/**
 * The Locator service of discovery.c: the command handlers sync, getPeers
 * and redirect, the completion of a redirect's connection attempt, and the
 * serialisation of peer-registry changes.  All of it runs on the dispatch
 * thread; each handler reads its argument tokens and writes its reply one
 * item at a time.  The peer registry, channel_connect, proxy_create and
 * channel_close are external: the registry is a sequence in iteration
 * order, and the three calls are recorded in a log.
 */
module Locator {
  import opened Wrappers
  import opened LocatorFormat

  /** An output stream: everything written to it, in order. */
  class OutputStream {
    var items: seq<Item>

    constructor ()
      ensures items == []
    {
      items := [];
    }

    method Write(x: Item)
      modifies this
      ensures items == old(items) + [x]
    {
      items := items + [x];
    }
  }

  /** A channel: its unread input, its output stream, whether it is closed, and its lock count. */
  class Channel {
    var inp: seq<InItem>
    const out: OutputStream
    var closed: bool
    var lockCount: nat

    constructor (inp: seq<InItem>, out: OutputStream)
      ensures this.inp == inp && this.out == out && !closed && lockCount == 0
    {
      this.inp := inp;
      this.out := out;
      closed := false;
      lockCount := 0;
    }

    /** read_stream: the next token; the end of the stream reads as a token other than EOM. */
    method Read() returns (t: InItem)
      modifies this`inp
      ensures t == Next(old(inp)) && inp == Rest(old(inp))
    {
      if inp == [] {
        t := IOther;
      } else {
        t := inp[0];
        inp := inp[1..];
      }
    }

    /** stream_lock */
    method Lock()
      modifies this`lockCount
      ensures lockCount == old(lockCount) + 1
    {
      lockCount := lockCount + 1;
    }

    /** stream_unlock: only a lock that is held can be released. */
    method Unlock()
      requires lockCount > 0
      modifies this`lockCount
      ensures lockCount == old(lockCount) - 1
    {
      lockCount := lockCount - 1;
    }
  }

  /** A RedirectInfo block: the requesting channel and the copied token. */
  class RedirectInfo {
    const channel: Channel
    const token: string

    constructor (channel: Channel, token: string)
      ensures this.channel == channel && this.token == token
    {
      this.channel := channel;
      this.token := token;
    }
  }

  /** A call into code outside this model. */
  datatype Call =
    | ConnectTo(peer: PeerServer, info: RedirectInfo)  // channel_connect(ps, channel_connected, info)
    | ProxyCreate(c1: Channel, c2: Channel)            // proxy_create(c1, c2)
    | ChannelClose(c: Channel)                         // channel_close(c2)

  /** How a handler ends: normally, or by exception(ERR_JSON_SYNTAX). */
  datatype Status = Handled | SyntaxError

  /** sync: the arguments must be exactly EOM; the reply carries the token and error 0. */
  method CommandSync(token: string, c: Channel) returns (st: Status)
    modifies c`inp, c.out
    ensures c.inp == Rest(old(c.inp))
    ensures st == Handled <==> Next(old(c.inp)) == IEom
    ensures st == Handled ==> c.out.items == old(c.out.items) + Reply(token, 0, [])
    ensures st == SyntaxError ==> c.out.items == old(c.out.items)
  {
    var t := c.Read();
    if t != IEom {
      return SyntaxError;
    }
    c.out.Write(StringZ("R"));
    c.out.Write(StringZ(token));
    c.out.Write(Errno(0));
    c.out.Write(Eom);
    st := Handled;
  }

  /** The property loop of write_peer_properties: a comma, the name, a colon and the value of each property, in index order. */
  method WriteFields(props: seq<Property>, out: OutputStream)
    modifies out
    ensures out.items == old(out.items) + Fields(props)
  {
    var i := 0;
    while i < |props|
      invariant 0 <= i <= |props|
      invariant out.items == old(out.items) + Fields(props[..i])
    {
      ghost var before := out.items;
      out.Write(Char(','));
      out.Write(JsonString(props[i].name));
      out.Write(Char(':'));
      out.Write(JsonString(props[i].value));
      assert out.items == before + Field(props[i]);
      AppendAssoc(old(out.items), Fields(props[..i]), Field(props[i]));
      FieldsSnoc(props[..i], props[i]);
      assert props[..i + 1] == props[..i] + [props[i]];
      i := i + 1;
    }
    assert props[..i] == props;
  }

  /** The peer object write_peer_properties writes: the id, then every property. */
  method WritePeerObject(ps: PeerServer, out: OutputStream)
    modifies out
    ensures out.items == old(out.items) + PeerObject(ps)
  {
    out.Write(Char('{'));
    out.Write(JsonString("ID"));
    out.Write(Char(':'));
    out.Write(JsonString(ps.id));
    ghost var head := [Char('{'), JsonString("ID"), Char(':'), JsonString(ps.id)];
    assert out.items == old(out.items) + head;
    WriteFields(ps.props, out);
    out.Write(Char('}'));
    AppendAssoc(old(out.items), head, Fields(ps.props));
    AppendAssoc(old(out.items), head + Fields(ps.props), [Char('}')]);
  }

  /**
   * The service's global state: `peer_cnt`, the RedirectInfo blocks that
   * are allocated, and the log of external calls.
   */
  class LocatorService {
    var peerCnt: int
    var sessions: set<RedirectInfo>
    var calls: seq<Call>

    constructor ()
      ensures peerCnt == 0 && sessions == {} && calls == []
    {
      peerCnt := 0;
      sessions := {};
      calls := [];
    }

    /**
     * write_peer_properties: a comma unless this is the first peer since
     * `peer_cnt` was reset, then the peer object; counts the peer.
     */
    method WritePeerProperties(ps: PeerServer, out: OutputStream)
      modifies this`peerCnt, out
      ensures out.items == old(out.items) + Separator(old(peerCnt)) + PeerObject(ps)
      ensures peerCnt == old(peerCnt) + 1
    {
      if peerCnt > 0 {
        out.Write(Char(','));
      }
      WritePeerObject(ps, out);
      peerCnt := peerCnt + 1;
    }

    /**
     * The payload of getPeers: `peer_cnt` reset, then an array holding
     * write_peer_properties of every peer the registry iterates over, then 0.
     */
    method WritePeerArray(registry: seq<PeerServer>, out: OutputStream)
      modifies this`peerCnt, out
      ensures out.items == old(out.items) + PeerArray(registry)
      ensures peerCnt == |registry|
    {
      out.Write(Char('['));
      WritePeers(registry, out);
      out.Write(Char(']'));
      out.Write(Nul);
    }

    /** `peer_cnt` reset, then write_peer_properties for every peer in iteration order. */
    method WritePeers(registry: seq<PeerServer>, out: OutputStream)
      modifies this`peerCnt, out
      ensures out.items == old(out.items) + PeerObjects(registry, 0)
      ensures peerCnt == |registry|
    {
      peerCnt := 0;
      var i := 0;
      while i < |registry|
        invariant 0 <= i <= |registry|
        invariant peerCnt == i
        invariant out.items == old(out.items) + PeerObjects(registry[..i], 0)
      {
        ghost var done := PeerObjects(registry[..i], 0);
        WritePeerProperties(registry[i], out);
        AppendAssoc(old(out.items), done, Separator(i));
        AppendAssoc(old(out.items), done + Separator(i), PeerObject(registry[i]));
        PeerObjectsSnoc(registry[..i], registry[i], 0);
        assert registry[..i + 1] == registry[..i] + [registry[i]];
        i := i + 1;
      }
      assert registry[..i] == registry;
    }

    /**
     * getPeers: the arguments must be exactly EOM; the reply carries the
     * token, error 0 and an array with one object for every peer the
     * registry iterates over.
     */
    method CommandGetPeers(token: string, c: Channel, registry: seq<PeerServer>) returns (st: Status)
      modifies this`peerCnt, c`inp, c.out
      ensures c.inp == Rest(old(c.inp))
      ensures st == Handled <==> Next(old(c.inp)) == IEom
      ensures st == Handled ==> c.out.items == old(c.out.items) + Reply(token, 0, PeerArray(registry))
      ensures st == Handled ==> peerCnt == |registry|
      ensures st == SyntaxError ==> c.out.items == old(c.out.items) && peerCnt == old(peerCnt)
    {
      var t := c.Read();
      if t != IEom {
        return SyntaxError;
      }
      c.out.Write(StringZ("R"));
      c.out.Write(StringZ(token));
      c.out.Write(Errno(0));
      WritePeerArray(registry, c.out);
      c.out.Write(Eom);
      st := Handled;
    }

    /**
     * redirect: the arguments must be a peer id, 0 and EOM.  An unknown id
     * gets an "unknown peer" reply at once.  A known one locks the channel,
     * allocates a RedirectInfo holding the channel and the cut token, and
     * starts one connection attempt; the reply waits for its completion.
     */
    method CommandRedirect(token: string, c: Channel, registry: seq<PeerServer>) returns (st: Status, info: RedirectInfo?)
      modifies this`sessions, this`calls, c`inp, c`lockCount, c.out
      ensures |c.inp| <= |old(c.inp)| && c.inp == old(c.inp)[|old(c.inp)| - |c.inp|..]
      ensures st == Handled <==> RedirectArgs(old(c.inp)).Some?
      ensures st == SyntaxError ==> info == null && c.out.items == old(c.out.items)
      ensures info == null ==> c.lockCount == old(c.lockCount) && sessions == old(sessions) && calls == old(calls)
      ensures st == Handled ==> c.inp == old(c.inp)[3..]
      ensures st == Handled && Find(registry, RedirectArgs(old(c.inp)).value).None? ==>
                info == null && c.out.items == old(c.out.items) + Reply(token, ERR_UNKNOWN_PEER, [])
      ensures st == Handled && Find(registry, RedirectArgs(old(c.inp)).value).Some? ==>
                && info != null && fresh(info)
                && info.channel == c && info.token == TokenCopy(token)
                && c.lockCount == old(c.lockCount) + 1
                && sessions == old(sessions) + {info}
                && calls == old(calls) + [ConnectTo(Find(registry, RedirectArgs(old(c.inp)).value).value, info)]
                && c.out.items == old(c.out.items)
    {
      info := null;
      var first := c.Read();
      if !first.IString? {
        return SyntaxError, null;
      }
      var id := first.s;
      var t := c.Read();
      if t != INul {
        return SyntaxError, null;
      }
      t := c.Read();
      if t != IEom {
        return SyntaxError, null;
      }
      var ps := Find(registry, id);
      if ps.Some? {
        info := new RedirectInfo(c, TokenCopy(token));
        sessions := sessions + {info};
        c.Lock();
        calls := calls + [ConnectTo(ps.value, info)];
      } else {
        c.out.Write(StringZ("R"));
        c.out.Write(StringZ(token));
        c.out.Write(Errno(ERR_UNKNOWN_PEER));
        c.out.Write(Eom);
      }
      st := Handled;
    }

    /**
     * channel_connected: the completion of a redirect's connection attempt,
     * with its error and, on success, the new channel `c2`.  An open
     * requester gets the proxy (on success only) and the reply; for a
     * closed one nothing is written and a new channel is closed rather than
     * left orphaned.  Either way the lock is released and the block freed.
     */
    method ChannelConnected(info: RedirectInfo, error: int, c2: Channel?)
      requires info in sessions
      requires info.channel.lockCount > 0
      requires error == 0 ==> c2 != null
      modifies this`sessions, this`calls, info.channel`lockCount, info.channel.out
      ensures sessions == old(sessions) - {info}
      ensures info.channel.lockCount == old(info.channel.lockCount) - 1
      ensures !info.channel.closed ==>
                && info.channel.out.items == old(info.channel.out.items) + Reply(info.token, error, [])
                && calls == old(calls) + (if error == 0 then [ProxyCreate(info.channel, c2)] else [])
      ensures info.channel.closed ==>
                && info.channel.out.items == old(info.channel.out.items)
                && calls == old(calls) + (if error == 0 then [ChannelClose(c2)] else [])
    {
      var c1 := info.channel;
      if !c1.closed {
        if error == 0 {
          calls := calls + [ProxyCreate(c1, c2)];
        }
        c1.out.Write(StringZ("R"));
        c1.out.Write(StringZ(info.token));
        c1.out.Write(Errno(error));
        c1.out.Write(Eom);
      } else if error == 0 {
        calls := calls + [ChannelClose(c2)];
      }
      c1.Unlock();
      sessions := sessions - {info};
    }

    /**
     * A whole redirect: the command, the requester possibly being closed
     * while the connection attempt is pending, and the attempt's
     * completion.  Every lock taken is released and every block allocated
     * is freed; a requester closed in between gets no reply, and a channel
     * that was nonetheless established is closed.
     */
    method Redirect(token: string, c: Channel, registry: seq<PeerServer>, closedMeanwhile: bool, error: int, c2: Channel?)
      returns (st: Status)
      requires !c.closed
      requires error == 0 ==> c2 != null
      modifies this`sessions, this`calls, c`inp, c`lockCount, c`closed, c.out
      ensures c.lockCount == old(c.lockCount)
      ensures sessions == old(sessions)
      ensures st == Handled <==> RedirectArgs(old(c.inp)).Some?
      ensures st == Handled && Find(registry, RedirectArgs(old(c.inp)).value).Some? ==>
                && |calls| == |old(calls)| + (if error == 0 then 2 else 1)
                && calls[|old(calls)|].ConnectTo?
                && calls[|old(calls)|].peer == Find(registry, RedirectArgs(old(c.inp)).value).value
                && (closedMeanwhile ==> c.out.items == old(c.out.items))
                && (closedMeanwhile && error == 0 ==> calls[|old(calls)| + 1] == ChannelClose(c2))
                && (!closedMeanwhile ==> c.out.items == old(c.out.items) + Reply(TokenCopy(token), error, []))
                && (!closedMeanwhile && error == 0 ==> calls[|old(calls)| + 1] == ProxyCreate(c, c2))
    {
      var info;
      st, info := CommandRedirect(token, c, registry);
      if info != null {
        if closedMeanwhile {
          c.closed := true;
        }
        ChannelConnected(info, error, c2);
      }
    }

    /** The event name and its payload, as peer_change_event writes them for each kind. */
    method WriteEventBody(ps: PeerServer, k: EventKind, out: OutputStream)
      modifies this`peerCnt, out
      ensures out.items == old(out.items) + EventBody(ps, k)
      ensures peerCnt == if k.Added? || k.Changed? then 1 else old(peerCnt)
    {
      match k {
        case Added =>
          out.Write(StringZ("peerAdded"));
          peerCnt := 0;
          WritePeerProperties(ps, out);
        case Changed =>
          out.Write(StringZ("peerChanged"));
          peerCnt := 0;
          WritePeerProperties(ps, out);
        case HeartBeat =>
          out.Write(StringZ("peerHeartBeat"));
          out.Write(JsonString(ps.id));
        case Removed =>
          out.Write(StringZ("peerRemoved"));
          out.Write(JsonString(ps.id));
        case OtherKind(_) =>
      }
    }

    /**
     * peer_change_event: nothing for a peer that is not discoverable;
     * otherwise "E", the service name, the event name with the full peer
     * (added, changed) or its id (heart beat, removed), then 0, EOM and a
     * flush.
     */
    method PeerChangeEvent(ps: PeerServer, k: EventKind, out: OutputStream)
      modifies this`peerCnt, out
      ensures out.items == old(out.items) + PeerEvent(ps, k)
      ensures peerCnt == if ps.discoverable && (k.Added? || k.Changed?) then 1 else old(peerCnt)
    {
      if !ps.discoverable {
        return;
      }
      out.Write(StringZ("E"));
      out.Write(StringZ(LOCATOR));
      ghost var head := [StringZ("E"), StringZ(LOCATOR)];
      assert out.items == old(out.items) + head;
      WriteEventBody(ps, k, out);
      out.Write(Nul);
      out.Write(Eom);
      out.Write(Flush);
      ghost var tail := [Nul, Eom, Flush];
      assert out.items == old(out.items) + head + EventBody(ps, k) + tail;
      AppendAssoc(old(out.items), head, EventBody(ps, k));
      AppendAssoc(old(out.items), head + EventBody(ps, k), tail);
    }
  }
}
