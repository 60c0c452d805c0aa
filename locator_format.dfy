/**
 * What the Locator service of discovery.c writes to an output stream, as
 * sequences of abstract items, and readers that recover the replies, peer
 * objects and events from those sequences.  The byte encodings of strings,
 * JSON strings and error codes belong to the stream and JSON writers and
 * stay abstract: each such write is one item.
 */
module LocatorFormat {
  import opened Wrappers

  /** One write to an output stream. */
  datatype Item =
    | StringZ(s: string)     // write_stringz
    | JsonString(s: string)  // json_write_string
    | Char(c: char)          // write_stream with a printable character
    | Errno(code: int)       // write_errno
    | Nul                    // write_stream(out, 0)
    | Eom                    // write_stream(out, MARKER_EOM)
    | Flush                  // flush_stream

  /** One token the command handlers read from a channel's input. */
  datatype InItem =
    | IString(s: string)     // a JSON string, as json_read_string returns it
    | INul                   // a 0 byte
    | IEom                   // MARKER_EOM
    | IOther                 // anything else, including the end of the stream

  /** The service name. */
  const LOCATOR: string := "Locator"

  /** sizeof(RedirectInfo.token) - 1: the longest token a redirect keeps. */
  const TOKEN_MAX: nat := 255

  /**
   * ERR_UNKNOWN_PEER.  errors.h is not part of this model: the value below
   * stands for it, and only its being non-zero matters.
   */
  const ERR_UNKNOWN_PEER: int := 0x20006

  /** The token read_stream returns next, and the input it leaves. */
  function Next(inp: seq<InItem>): InItem { if inp == [] then IOther else inp[0] }

  function Rest(inp: seq<InItem>): seq<InItem> { if inp == [] then [] else inp[1..] }

  /** The peer id of well-formed redirect arguments: a string, then 0, then EOM. */
  function RedirectArgs(inp: seq<InItem>): Option<string>
  {
    if |inp| >= 3 && inp[0].IString? && inp[1] == INul && inp[2] == IEom then Some(inp[0].s) else None
  }

  // ---------------------------------------------------------------------
  // Peers
  // ---------------------------------------------------------------------

  /** One entry of a PeerServer's property list. */
  datatype Property = Property(name: string, value: string)

  /** A PeerServer: `props` is `list[0..ind)`; `discoverable` is PS_FLAG_DISCOVERABLE. */
  datatype PeerServer = PeerServer(id: string, props: seq<Property>, discoverable: bool)

  /** What a peer object on the wire carries: the id and the properties. */
  datatype PeerView = PeerView(id: string, props: seq<Property>)

  function View(p: PeerServer): PeerView { PeerView(p.id, p.props) }

  function Views(ps: seq<PeerServer>): (vs: seq<PeerView>)
    ensures |vs| == |ps|
  {
    if ps == [] then [] else [View(ps[0])] + Views(ps[1..])
  }

  /**
   * peer_server_find over a registry listed in iteration order: the first
   * peer with the given id.
   */
  function Find(registry: seq<PeerServer>, id: string): (r: Option<PeerServer>)
    ensures r.Some? ==> r.value in registry && r.value.id == id
    ensures r.None? <==> forall i :: 0 <= i < |registry| ==> registry[i].id != id
  {
    if registry == [] then None
    else if registry[0].id == id then Some(registry[0])
    else Find(registry[1..], id)
  }

  /** The peer Find returns is the first one in iteration order with that id. */
  lemma {:induction false} FindIsFirst(registry: seq<PeerServer>, id: string)
    requires Find(registry, id).Some?
    ensures exists i :: 0 <= i < |registry| && registry[i] == Find(registry, id).value && FirstWithId(registry, id, i)
  {
    if registry[0].id == id {
      assert FirstWithId(registry, id, 0);
    } else {
      FindIsFirst(registry[1..], id);
      var i :| 0 <= i < |registry[1..]| && registry[1..][i] == Find(registry, id).value && FirstWithId(registry[1..], id, i);
      assert FirstWithId(registry, id, i + 1);
    }
  }

  /** No peer before index `i` has the id `id`. */
  predicate FirstWithId(registry: seq<PeerServer>, id: string, i: int)
    requires 0 <= i <= |registry|
  {
    forall j :: 0 <= j < i ==> registry[j].id != id
  }

  /** `,name:value` for one property. */
  function Field(p: Property): seq<Item>
  {
    [Char(','), JsonString(p.name), Char(':'), JsonString(p.value)]
  }

  function Fields(props: seq<Property>): seq<Item>
  {
    if props == [] then [] else Field(props[0]) + Fields(props[1..])
  }

  /** The object write_peer_properties writes after its optional comma. */
  function PeerObject(p: PeerServer): seq<Item>
  {
    [Char('{'), JsonString("ID"), Char(':'), JsonString(p.id)] + Fields(p.props) + [Char('}')]
  }

  /** The comma write_peer_properties writes when `peer_cnt` is positive. */
  function Separator(cnt: int): seq<Item> { if cnt > 0 then [Char(',')] else [] }

  /** write_peer_properties applied to each peer in turn, `peer_cnt` starting at `cnt`. */
  function PeerObjects(ps: seq<PeerServer>, cnt: int): seq<Item>
  {
    if ps == [] then [] else Separator(cnt) + PeerObject(ps[0]) + PeerObjects(ps[1..], cnt + 1)
  }

  /** Regrouping a concatenation, stated once so that writers need not prove it element by element. */
  lemma AppendAssoc<T>(a: seq<T>, b: seq<T>, c: seq<T>)
    ensures a + b + c == a + (b + c)
  {
  }

  lemma {:induction false} FieldsSnoc(props: seq<Property>, p: Property)
    ensures Fields(props + [p]) == Fields(props) + Field(p)
  {
    if props == [] {
      assert props + [p] == [p];
      assert [p][1..] == [];
    } else {
      assert (props + [p])[1..] == props[1..] + [p];
      FieldsSnoc(props[1..], p);
    }
  }

  lemma {:induction false} PeerObjectsSnoc(ps: seq<PeerServer>, p: PeerServer, cnt: int)
    ensures PeerObjects(ps + [p], cnt) == PeerObjects(ps, cnt) + Separator(cnt + |ps|) + PeerObject(p)
    decreases |ps|
  {
    if ps == [] {
      assert ps + [p] == [p];
      assert [p][1..] == [];
    } else {
      assert (ps + [p])[1..] == ps[1..] + [p];
      PeerObjectsSnoc(ps[1..], p, cnt + 1);
    }
  }

  // ---------------------------------------------------------------------
  // Replies and events
  // ---------------------------------------------------------------------

  /** A reply: "R", the command's token, an error code, the payload, EOM. */
  function Reply(token: string, error: int, payload: seq<Item>): seq<Item>
  {
    [StringZ("R"), StringZ(token), Errno(error)] + payload + [Eom]
  }

  /** The payload of a getPeers reply: the array of peer objects and its terminating 0. */
  function PeerArray(ps: seq<PeerServer>): seq<Item>
  {
    [Char('[')] + PeerObjects(ps, 0) + [Char(']'), Nul]
  }

  /** The kinds of change the peer registry reports. */
  datatype EventKind = Added | Changed | HeartBeat | Removed | OtherKind(code: int)

  /** What peer_change_event writes between the service name and the trailing 0. */
  function EventBody(p: PeerServer, k: EventKind): seq<Item>
  {
    match k
    case Added => [StringZ("peerAdded")] + PeerObject(p)
    case Changed => [StringZ("peerChanged")] + PeerObject(p)
    case HeartBeat => [StringZ("peerHeartBeat"), JsonString(p.id)]
    case Removed => [StringZ("peerRemoved"), JsonString(p.id)]
    case OtherKind(_) => []
  }

  /** Everything peer_change_event writes. */
  function PeerEvent(p: PeerServer, k: EventKind): seq<Item>
  {
    if !p.discoverable then []
    else [StringZ("E"), StringZ(LOCATOR)] + EventBody(p, k) + [Nul, Eom, Flush]
  }

  /**
   * strncpy(info->token, token, sizeof(info->token) - 1) into a zeroed
   * buffer: the token cut to at most TOKEN_MAX characters.
   */
  function TokenCopy(token: string): (t: string)
    ensures |t| <= TOKEN_MAX && t <= token
    ensures |token| <= TOKEN_MAX ==> t == token
    ensures |token| > TOKEN_MAX ==> |t| == TOKEN_MAX
  {
    if |token| <= TOKEN_MAX then token else token[..TOKEN_MAX]
  }

  // ---------------------------------------------------------------------
  // Readers
  // ---------------------------------------------------------------------

  /** A value read from the front of a sequence of items, and what follows it. */
  datatype Decoded<T> = Decoded(value: T, rest: seq<Item>)

  datatype ReplyView = ReplyView(token: string, error: int, payload: seq<Item>)

  function DecodeReply(items: seq<Item>): Option<ReplyView>
  {
    if |items| >= 4 && items[0] == StringZ("R") && items[1].StringZ? && items[2].Errno?
       && items[|items| - 1] == Eom
    then Some(ReplyView(items[1].s, items[2].code, items[3..|items| - 1]))
    else None
  }

  predicate StartsField(items: seq<Item>)
  {
    |items| >= 4 && items[0] == Char(',') && items[1].JsonString? && items[2] == Char(':') && items[3].JsonString?
  }

  function DecodeFields(items: seq<Item>): (d: Decoded<seq<Property>>)
    ensures |d.rest| <= |items|
    decreases |items|
  {
    if StartsField(items) then
      var more := DecodeFields(items[4..]);
      Decoded([Property(items[1].s, items[3].s)] + more.value, more.rest)
    else Decoded([], items)
  }

  function DecodeObject(items: seq<Item>): (d: Option<Decoded<PeerView>>)
    ensures d.Some? ==> |d.value.rest| < |items|
  {
    if |items| >= 4 && items[0] == Char('{') && items[1] == JsonString("ID") && items[2] == Char(':')
       && items[3].JsonString?
    then
      var f := DecodeFields(items[4..]);
      if |f.rest| > 0 && f.rest[0] == Char('}') then Some(Decoded(PeerView(items[3].s, f.value), f.rest[1..]))
      else None
    else None
  }

  /** Peer objects up to the closing bracket; a comma precedes each one once `cnt` is positive. */
  function DecodeObjects(items: seq<Item>, cnt: int): Option<Decoded<seq<PeerView>>>
    decreases |items|
  {
    if |items| > 0 && items[0] == Char(']') then Some(Decoded([], items))
    else if cnt > 0 && !(|items| > 0 && items[0] == Char(',')) then None
    else
      var body := if cnt > 0 then items[1..] else items;
      match DecodeObject(body)
      case None => None
      case Some(o) =>
        match DecodeObjects(o.rest, cnt + 1)
        case None => None
        case Some(more) => Some(Decoded([o.value] + more.value, more.rest))
  }

  function DecodeArray(payload: seq<Item>): Option<seq<PeerView>>
  {
    if |payload| > 0 && payload[0] == Char('[') then
      match DecodeObjects(payload[1..], 0)
      case None => None
      case Some(d) => if d.rest == [Char(']'), Nul] then Some(d.value) else None
    else None
  }

  datatype EventView = FullPeer(name: string, peer: PeerView) | PeerId(name: string, id: string) | NoBody

  function DecodeEvent(items: seq<Item>): Option<EventView>
  {
    if |items| >= 5 && items[0] == StringZ("E") && items[1] == StringZ(LOCATOR)
       && items[|items| - 3..] == [Nul, Eom, Flush]
    then
      var body := items[2..|items| - 3];
      if body == [] then Some(NoBody)
      else if !body[0].StringZ? then None
      else
        match DecodeObject(body[1..])
        case Some(d) => if d.rest == [] then Some(FullPeer(body[0].s, d.value)) else None
        case None => if |body| == 2 && body[1].JsonString? then Some(PeerId(body[0].s, body[1].s)) else None
    else None
  }

  /**
   * The event a registry change should produce: none for a peer that is not
   * discoverable; the full peer for added and changed; the id alone for
   * heart beats and removals; no body for any other kind.
   */
  function ExpectedEvent(p: PeerServer, k: EventKind): Option<EventView>
  {
    if !p.discoverable then None
    else
      match k
      case Added => Some(FullPeer("peerAdded", View(p)))
      case Changed => Some(FullPeer("peerChanged", View(p)))
      case HeartBeat => Some(PeerId("peerHeartBeat", p.id))
      case Removed => Some(PeerId("peerRemoved", p.id))
      case OtherKind(_) => Some(NoBody)
  }

  // ---------------------------------------------------------------------
  // Round trips
  // ---------------------------------------------------------------------

  lemma ReplyRoundTrip(token: string, error: int, payload: seq<Item>)
    ensures DecodeReply(Reply(token, error, payload)) == Some(ReplyView(token, error, payload))
  {
    var items := Reply(token, error, payload);
    assert items[3..|items| - 1] == payload;
  }

  lemma {:induction false} FieldsRoundTrip(props: seq<Property>, rest: seq<Item>)
    requires !StartsField(rest)
    ensures DecodeFields(Fields(props) + rest) == Decoded(props, rest)
  {
    if props == [] {
      assert Fields(props) + rest == rest;
    } else {
      var items := Fields(props) + rest;
      assert items == Field(props[0]) + (Fields(props[1..]) + rest);
      assert items[4..] == Fields(props[1..]) + rest;
      FieldsRoundTrip(props[1..], rest);
      assert [props[0]] + props[1..] == props;
    }
  }

  /** A peer object reads back as the peer's id and properties, in index order. */
  lemma ObjectRoundTrip(p: PeerServer, rest: seq<Item>)
    ensures DecodeObject(PeerObject(p) + rest) == Some(Decoded(View(p), rest))
  {
    var items := PeerObject(p) + rest;
    var tail := [Char('}')] + rest;
    assert items[4..] == Fields(p.props) + tail;
    FieldsRoundTrip(p.props, tail);
    assert tail[1..] == rest;
  }

  /** One object read by DecodeObjects, and the rest read by the recursive call. */
  lemma DecodeObjectsStep(items: seq<Item>, cnt: int, body: seq<Item>, o: Decoded<PeerView>, more: Decoded<seq<PeerView>>)
    requires |body| > 0 && body[0] != Char(']')
    requires if cnt > 0 then items == [Char(',')] + body else items == body
    requires DecodeObject(body) == Some(o)
    requires DecodeObjects(o.rest, cnt + 1) == Some(more)
    ensures DecodeObjects(items, cnt) == Some(Decoded([o.value] + more.value, more.rest))
  {
    if cnt > 0 {
      assert items[1..] == body;
    }
  }

  lemma PeerObjectsCons(p: PeerServer, ps: seq<PeerServer>, cnt: int, rest: seq<Item>)
    ensures PeerObjects([p] + ps, cnt) + rest == Separator(cnt) + (PeerObject(p) + (PeerObjects(ps, cnt + 1) + rest))
  {
    assert ([p] + ps)[1..] == ps;
  }

  /** The induction step of ObjectsRoundTrip: one more peer in front. */
  lemma ObjectsConsRoundTrip(p: PeerServer, ps: seq<PeerServer>, cnt: int, rest: seq<Item>)
    requires DecodeObjects(PeerObjects(ps, cnt + 1) + rest, cnt + 1) == Some(Decoded(Views(ps), rest))
    ensures DecodeObjects(PeerObjects([p] + ps, cnt) + rest, cnt) == Some(Decoded(Views([p] + ps), rest))
  {
    var tail := PeerObjects(ps, cnt + 1) + rest;
    var body := PeerObject(p) + tail;
    var items := PeerObjects([p] + ps, cnt) + rest;
    PeerObjectsCons(p, ps, cnt, rest);
    assert if cnt > 0 then items == [Char(',')] + body else items == body;
    assert body[0] == Char('{');
    ObjectRoundTrip(p, tail);
    DecodeObjectsStep(items, cnt, body, Decoded(View(p), tail), Decoded(Views(ps), rest));
  }

  lemma {:induction false} ObjectsRoundTrip(ps: seq<PeerServer>, cnt: int, rest: seq<Item>)
    requires |rest| > 0 && rest[0] == Char(']')
    ensures DecodeObjects(PeerObjects(ps, cnt) + rest, cnt) == Some(Decoded(Views(ps), rest))
    decreases |ps|
  {
    if ps == [] {
      assert PeerObjects(ps, cnt) + rest == rest;
    } else {
      ObjectsRoundTrip(ps[1..], cnt + 1, rest);
      ObjectsConsRoundTrip(ps[0], ps[1..], cnt, rest);
      assert [ps[0]] + ps[1..] == ps;
    }
  }

  /**
   * The getPeers payload reads back as one object per peer, every peer
   * included, in iteration order, with no comma before the first.
   */
  lemma ArrayRoundTrip(ps: seq<PeerServer>)
    ensures DecodeArray(PeerArray(ps)) == Some(Views(ps))
  {
    var payload := PeerArray(ps);
    assert payload[1..] == PeerObjects(ps, 0) + [Char(']'), Nul];
    ObjectsRoundTrip(ps, 0, [Char(']'), Nul]);
  }

  /** Every event peer_change_event writes reads back as the event it should be. */
  lemma PeerEventRoundTrip(p: PeerServer, k: EventKind)
    ensures DecodeEvent(PeerEvent(p, k)) == ExpectedEvent(p, k)
  {
    if p.discoverable {
      var items := PeerEvent(p, k);
      var body := EventBody(p, k);
      assert items[2..|items| - 3] == body;
      assert items[|items| - 3..] == [Nul, Eom, Flush];
      match k {
        case Added =>
          assert body[1..] == PeerObject(p) + [];
          ObjectRoundTrip(p, []);
        case Changed =>
          assert body[1..] == PeerObject(p) + [];
          ObjectRoundTrip(p, []);
        case HeartBeat =>
        case Removed =>
        case OtherKind(_) =>
      }
    }
  }
}
