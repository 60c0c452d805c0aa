# TCF agent: asynchronous request dispatcher and Locator service

This project models two parts of the TCF target agent.

The first part is the blocking-call dispatcher of `asyncreq.c`:

- Requests (reads, writes, socket calls, waitpid, select, close) are posted to a pool of worker threads.
- A worker runs the blocking call, records its result in the request, posts the request's `done` event and rejoins the free list.
- When AIO is compiled in, positioned reads and writes bypass the pool and complete in an AIO callback.

The second part is the Locator service of `discovery.c`. It covers:

- the `sync`, `getPeers` and `redirect` command handlers;
- the completion of a redirect's connection attempt;
- the events that report changes in the peer registry.

## How it is modelled

- `AsyncReqSpec` (async_req_spec.dfy) is the dispatcher as a sequential state machine.
  - The state holds:
    - the free list (`wtlist`), head first;
    - one slot per worker created so far, holding `wt->req`;
    - the requests held by the AIO library;
    - the log of `done` events, each with the request as it was when posted.
  - Each region the source runs under `wtlock` is one transition. The AIO post and the AIO callback are transitions too.
  - The blocking call's return value and errno, the AIO library's results and `pthread_create`'s result are inputs of the transitions.
  - Lemmas over traces of transitions prove:
    - the pool invariant: a worker is on the free list iff its slot is empty;
    - the worker count never decreases;
    - each request is completed exactly once per submission.
  - Lemmas over compositions of posts (`PostAll`) and of post-then-completion (`ServeAll`) prove:
    - idle workers are reused in FIFO order by posts that go through the pool;
    - strictly sequential use never needs more than one worker.
  - `ServeIsRun` shows that each single post-then-completion that `ServeAll` composes is a trace of one or two enabled transitions ending in the same state.
- `AsyncReq` (async_req.dfy) is the pool as an object, `WorkerPool`. Its fields are updated in place, as the C code updates its globals. Each method is proved to perform the matching transition of `AsyncReqSpec`.
- `LocatorFormat` (locator_format.dfy) describes the item sequences the Locator service writes. Each write to a stream is one abstract item. Decoders read replies, peer arrays and events back. Round-trip lemmas show that what is written reads back as intended.
- `Locator` (locator.dfy) holds the handlers as methods on these classes:
  - `OutputStream`, the item log;
  - `Channel`, with its input tokens, `closed` flag and lock count;
  - `RedirectInfo`;
  - `LocatorService`, which holds `peer_cnt`, the allocated redirect blocks and a log of calls to `channel_connect`, `proxy_create` and `channel_close`.

Where the specification and the code differ, the code is followed.

- The specification says a request of an unknown type never reaches the pool. The code posts it like any other request: a worker picks it up and sets `ENOSYS`. The model does the same (`Execute`, `PoolPost`).
- On the AIO path, `error` is never reset to 0, and `aio_done` sets it only when the returned value is negative (`AioResult`).

## Model

| member | source | states |
|---|---|---|
| AsyncReqSpec.Execute | asyncreq.c:45-166 | keeps the request's identity and type. For a known type: rval is the call's return value, error is non-zero exactly when the call returned -1, and error is then errno. For an unknown type: rval is untouched and error is ENOSYS |
| AsyncReqSpec.AioResult | asyncreq.c:183-188 | rval is aio_return's value. error becomes aio_error's value only when rval is negative and is otherwise unchanged |
| AsyncReqSpec.Init | asyncreq.c:247-250 | the initial state satisfies the pool invariant, has no workers and has posted nothing |
| AsyncReqSpec.PoolPost | asyncreq.c:222-244 | with an empty free list, a new worker is created whose slot holds the request, and the list stays empty. Otherwise the head worker, whose slot was empty, is removed from the list and given the request, and no worker is created. If creation fails, the worker count is unchanged and the request is posted done with error set to the creation error. No other slot changes. The invariant is preserved |
| AsyncReqSpec.Complete | asyncreq.c:168-178 | done is posted with the executed request, the worker's slot is emptied, the worker is appended to the tail of the free list, no other slot changes, and the invariant is preserved |
| AsyncReqSpec.AioPost | asyncreq.c:196-220 | free list and slots unchanged. A failed initiation posts done with rval -1 and error errno. A successful one hands the request to the AIO library |
| AsyncReqSpec.AioComplete | asyncreq.c:183-188 | free list and slots unchanged. The request leaves the AIO library and is posted done with AioResult |
| AsyncReqSpec.Post | asyncreq.c:191-245 | the invariant is preserved; at most one worker is created, and only when the free list was empty; the free list is either unchanged or loses exactly its head; with AIO enabled a seek-read or seek-write is exactly AioPost and leaves the pool untouched, and every other post is exactly PoolPost |
| AsyncReqSpec.Run | asyncreq.c:168-244 | along any trace of posts and completions, the invariant holds and the number of workers never decreases |
| AsyncReqSpec.IdlePoolHasFreeWorker | asyncreq.c:172-173 | in an idle pool that has workers, the free list is not empty |
| AsyncReqSpec.PostLedger | asyncreq.c:196-244 | a post accounts for its request exactly once in (done log + worker slots + AIO holdings), whichever path it takes |
| AsyncReqSpec.CompleteLedger | asyncreq.c:168-173 | a worker's completion moves its request from the slot to the done log and changes no count |
| AsyncReqSpec.AioCompleteLedger | asyncreq.c:183-188 | aio_done moves its request from the AIO library to the done log and changes no count |
| AsyncReqSpec.RunLedger | asyncreq.c:168-244 | over any trace, every request is accounted for once per submission |
| AsyncReqSpec.DoneOncePerSubmission | asyncreq.c:168-244 | from the initial state, done is posted for a request no more often than it was submitted, and exactly that often once nothing holds it |
| AsyncReqSpec.PostAssignsOneWorker | asyncreq.c:223-242 | a request that no worker holds is, once assigned, held by exactly one worker: the head of the free list or the new one |
| AsyncReqSpec.ServeOne | asyncreq.c:169-173 | posting to an idle pool and letting the completion run leaves the pool idle, creates a worker only if there was none, and posts exactly one done, for that request |
| AsyncReqSpec.ServeIsRun | asyncreq.c:168-244 | a post followed by the completion it leads to (the worker's pass, or aio_done for an accepted AIO request) is a trace of enabled transitions, and its end state is the composed Serve state |
| AsyncReqSpec.SequentialUseNeedsOneWorker | asyncreq.c:169-173 | strictly alternating post and completion on an idle pool never uses more than one worker; each job's done is posted once, in job order, after the earlier log |
| AsyncReqSpec.BurstCreatesOnlyMissingWorkers | asyncreq.c:223-243 | n posts with no completion in between create at most n minus the number of idle workers, and never remove one |
| AsyncReqSpec.IdleWorkersReusedInOrder | asyncreq.c:237-242 | posts that go through the pool (any request with AIO disabled; any but seek-read and seek-write with AIO enabled), no more numerous than the free list, hand the i-th request to the i-th idle worker, create no worker, leave the remaining list and the other slots unchanged |
| AsyncReqSpec.FinishOrderIsReuseOrder | asyncreq.c:171-173 | on an exhausted pool, two workers that finish in turn are handed the next two requests in the order they finished |
| AsyncReq.WorkerPool.constructor | asyncreq.c:247-250 | ini_asyncreq: the pool is in the initial state |
| AsyncReq.WorkerPool.Post | asyncreq.c:191-245 | the object's new state is exactly AsyncReqSpec.Post of its old state |
| AsyncReq.WorkerPool.WorkerIteration | asyncreq.c:45-178 | one pass of the worker loop: the object's new state is exactly AsyncReqSpec.Complete of its old state |
| AsyncReq.WorkerPool.AioDone | asyncreq.c:183-188 | the object's new state is exactly AsyncReqSpec.AioComplete of its old state |
| LocatorFormat.Find | discovery.c:101 | a peer is found exactly when one in the registry has the id, and the one found has that id |
| LocatorFormat.FindIsFirst | discovery.c:101 | the peer found is the first with that id in iteration order |
| LocatorFormat.TokenCopy | discovery.c:106 | the stored token is a prefix of the original, at most 255 characters long, and equal to it when the original fits |
| LocatorFormat.FieldsSnoc | discovery.c:50-55 | writing one more property appends exactly its `,name:value` |
| LocatorFormat.PeerObjectsSnoc | discovery.c:45-57 | writing one more peer appends a comma (unless it is the first since the reset) and its object |
| LocatorFormat.ReplyRoundTrip | discovery.c:63-66 | a reply reads back as its token, error and payload |
| LocatorFormat.FieldsRoundTrip | discovery.c:50-55 | the properties written read back as the same list, in index order |
| LocatorFormat.ObjectRoundTrip | discovery.c:46-56 | a peer object reads back as the peer's id and properties |
| LocatorFormat.ObjectsRoundTrip | discovery.c:45-57 | the objects written for a list of peers read back as that list, with a comma before each one but the first |
| LocatorFormat.ArrayRoundTrip | discovery.c:123-127 | the getPeers payload reads back as one object per iterated peer, none left out, in iteration order |
| LocatorFormat.PeerEventRoundTrip | discovery.c:131-160 | an event reads back as the expected one: none for a peer that is not discoverable, the full peer for added or changed, the id for heart beat or removed |
| Locator.CommandSync | discovery.c:61-67 | if the next token is not EOM, a syntax error with nothing written. Otherwise the reply is exactly "R", token, 0, EOM |
| Locator.WriteFields | discovery.c:50-55 | writes `,name:value` for every property in index order |
| Locator.WritePeerObject | discovery.c:46-56 | writes exactly the peer object: `{`, "ID":id, the properties, `}` |
| Locator.LocatorService.constructor | discovery.c:39 | peer_cnt starts at 0, with no redirect blocks and no external calls |
| Locator.LocatorService.WritePeerProperties | discovery.c:41-59 | writes a comma exactly when peer_cnt is positive, then the peer object, and increments peer_cnt |
| Locator.LocatorService.WritePeers | discovery.c:124-125 | resets peer_cnt and writes every iterated peer's object, in order. peer_cnt ends at the number of peers |
| Locator.LocatorService.WritePeerArray | discovery.c:123-127 | writes `[`, the objects of all peers, `]` and 0 |
| Locator.LocatorService.CommandGetPeers | discovery.c:117-129 | a syntax error with nothing written unless the next token is EOM. Otherwise the reply is "R", token, 0 and the array of every iterated peer (no discoverability filter), then EOM |
| Locator.LocatorService.CommandRedirect | discovery.c:93-115 | arguments other than string, 0, EOM give a syntax error and change nothing else. An unknown id replies "R", token, ERR_UNKNOWN_PEER, EOM, with no lock, no block and no connect. A known id locks the channel once, allocates one block holding the channel and the truncated token, starts exactly one connect and writes nothing |
| Locator.LocatorService.ChannelConnected | discovery.c:74-91 | for an open requester: the proxy is created only on success, and the reply carries the token and the error. For a closed requester: no reply, and the new channel is closed exactly when the connect succeeded. In every case the requester is unlocked once and the block freed |
| Locator.LocatorService.Redirect | discovery.c:74-115 | a whole redirect leaves the lock count and the set of allocated blocks as they were. A requester closed in the meantime gets no reply, and a channel established anyway is closed, not orphaned |
| Locator.LocatorService.WriteEventBody | discovery.c:137-156 | writes the event name with the full peer (peer_cnt reset, so no comma) for added and changed, with the id for heart beat and removed, and nothing for any other type |
| Locator.LocatorService.PeerChangeEvent | discovery.c:131-160 | nothing for a peer that is not discoverable. Otherwise "E", "Locator", the event body, 0, EOM and a flush |

## Left out

- Threads: pthread_create, the condition-variable wait loop, mutexes and signalling. Each region run under `wtlock` is one atomic transition, and the AIO callback is one transition too.
- The blocking system calls and the AIO library. Their return values and errno are inputs. errno's being non-zero after a -1 return (the source's `assert(req->error)`) is a precondition.
- The conversion of select's timeout into a `struct timeval` and the platform `#if` branches. The model follows the POSIX branch, where waitpid exists, and uses the Linux value 38 for ENOSYS.
- Union aliasing. Some cases check a different union member's `rval` than the one they assign (connect, waitpid, select). The model gives each request a single `rval`.
- Worker and request identity. Workers are numbered in creation order instead of being list nodes. A request is a value whose identity is its `id`, so aliasing of `AsyncReqInfo` structures is not modelled.
- Logging (`trace`) and `check_error`'s abort on a failing pthread call.
- Stream and JSON encoding. `write_stringz`, `json_write_string`, `write_errno` and `write_stream` each produce one abstract item; escaping and bytes are not modelled.
- The peer registry. `peer_server_find` and `peer_server_iter` are modelled as a sequence in iteration order. `channel_connect`, `proxy_create` and `channel_close` are recorded in a call log. Their effects are not modelled.
- Truncation of the redirect's peer id to `sizeof(id) - 1` characters by `json_read_string`. The id is taken whole.
- The exception mechanism. `exception(ERR_JSON_SYNTAX)` becomes a `SyntaxError` status. Tokens already read stay consumed.
- ERR_UNKNOWN_PEER's numeric value. errors.h is not part of this model; a non-zero stand-in is used.
- The stream and channel primitives `write_stream`, `read_stream`, `stream_lock` and `stream_unlock` are external. `OutputStream.Write`, `Channel.Read`, `Channel.Lock` and `Channel.Unlock` stand in for them: an item log, a token sequence and a lock counter. Disposing of a channel when `stream_unlock` drops its count to 0 is not modelled.
- `ini_locator_service` (registering the handlers and the registry listener) and `discovery_start` with UDP discovery, which are plumbing.
- Locator.LocatorService.ChannelConnected: requires the requester's lock count to be positive. In the source that lock was taken by the redirect that allocated the block, so this is stated as a precondition rather than derived.
- Locator.LocatorService.Redirect: states the call log only when the id is known, and then gives the position and kind of each new call. For an unknown id the log is unchanged, as CommandRedirect states.
