# Signalling relay core, modelled in Dafny

This project models the two sequential pieces of the WebRTC signalling relay:

- **The signalling actor** (`game/server.go`). Its dispatcher owns one peer's
  pending table and turns that one duplex connection into many concurrent
  negotiations, matched by correlation id. `Game.Step` is one turn of the
  dispatcher's select loop. The turn handles one of three events:
  - cancellation;
  - an inbound frame;
  - a connect request, carrying the freshly minted id.

  The dispatcher's state is a `Game.Table`:
  - the pending table (correlation id to caller);
  - the frames handed to the writer task (`out`);
  - the outcomes sent to callers (`delivered`);
  - the number of unknown-id warnings.

  `Game.Dispatch` chains turns until one of them returns; it is the
  dispatcher goroutine's loop only, not the whole of `(*server).Run`. The class
  `Game.Server` keeps the same state in fields, plus a `stopped` flag set once
  the loop has returned. It has one method per event, each callable only
  while the loop runs, and each method's contract ties the new state to `Step`.
- **The peer registry** (`manager/manager.go`). The class `Registry.Manager`
  holds a map from server id to server, with `Register`, `Unregister`, `List`
  and `Connect`.

`Protocol` holds the wire envelope `Message{id, payload}` and the session
description. The JSON library is modelled as `Json`: a record of four total
functions (description and envelope, each way), any of which may fail with a
`CodecError`. That type excludes the registry's `InvalidServer`, so only a
lookup miss can produce `ErrInvalidServer`. Properties that need a
well-behaved codec assume that decoding undoes encoding (`EnvelopeRoundTrips`,
`DescriptionRoundTrips`) and say so in their preconditions or as the hypothesis
of an ensures.

Each request is named by a `Caller` handle. The handle stands for that
request's `res`/`errored` channel pair and the waiter goroutine that serves it.
Several results rest on invariants over handles:
- `Valid`: no caller is told twice, no caller is pending twice, and no caller
  is both pending and told.
- `Fresh`: a request arrives with an id that is not pending and a caller never
  seen before. This stands for uuid freshness and for each `Connect` call
  making its own channels.

Three behaviours of the code are worth noting:
- `Unregister` deletes whatever is stored under `s.ID()`
  (manager/manager.go:44), whichever server instance that is.
- `List` returns the stored servers (manager/manager.go:23-34).
- A caller pending at cancellation is never answered: the table is reset
  (game/server.go:74) and its waiter returns on `ctx.Done()` without sending
  (game/server.go:105-106). `CancelStrandsPending` states this.

## Model

| member | source | states |
|---|---|---|
| `Protocol.MarshalMessage` | game/server.go:147-160 | succeeds exactly when both encodings succeed. A description failure or an envelope failure is returned unchanged. With a round-tripping codec, the frame decodes to the envelope carrying `id` and the description's bytes |
| `Protocol.MarshalMessageRoundTrip` | game/server.go:147-160 | with a round-tripping codec, the frame built for `id` decodes to an envelope whose id is `id` and whose payload decodes back to the description |
| `Game.Resolve` | game/server.go:103-114 | the waiter's outcome goes to its own caller only. It is an answer exactly when the payload decodes, and carries the decoded description; otherwise it carries the decode error |
| `Game.Step` | game/server.go:68-117 | one turn appends at most one frame to `out` or one outcome to `delivered`, never both, and never drops either. Only the fresh id can become pending. Only a request enqueues. The loop returns exactly on cancellation or an undecodable frame |
| `Game.Dispatch` | game/server.go:67-118 | over a run, `out` and `delivered` only grow, each by at most one entry per event |
| `Game.RequestAdmitted` | game/server.go:90-101 | an encodable request enqueues exactly one frame, which carries the fresh id. The fresh id maps to the caller; every other entry is unchanged and the table grows by one. Nothing is delivered |
| `Game.RequestRejected` | game/server.go:94-98 | an encoding failure is sent to that request's caller only. Nothing is enqueued, the pending table is unchanged and the loop continues |
| `Game.ReplyRouted` | game/server.go:82-89 | a reply whose id is pending removes exactly that entry, keeps every other entry, and sends one outcome, to that entry's caller only |
| `Game.UnknownReplyIgnored` | game/server.go:82-86 | a reply with an id that is not pending changes nothing except the warning count, and the loop continues |
| `Game.MalformedFrameIsFatal` | game/server.go:76-80 | an undecodable frame ends the loop with the decode error and changes no state |
| `Game.CancelEmptiesTable` | game/server.go:70-75 | cancellation empties the pending table, sends nothing, enqueues nothing, and returns with no error |
| `Game.ReplyConsumedOnce` | game/server.go:82-89 | a second reply with an id that was already answered falls into the unknown-id case: one outcome, one warning |
| `Game.RequestThenReply` | game/server.go:82-101 | a request followed by a reply carrying its id sends the reply's outcome to that request's caller and leaves the pending table as it was before the request |
| `Game.RepliesRoutedById` | game/server.go:82-101 | two requests A then B answered B then A: B's caller gets B's reply and A's caller gets A's reply, and the table ends as it started |
| `Game.StepAccounts` | game/server.go:68-117 | a fresh turn keeps `Valid`. A request adds exactly its caller to the callers accounted for (pending or told). A frame neither adds nor loses one. Cancellation keeps only the callers already told |
| `Game.DispatchKeepsValid` | game/server.go:67-118 | over any run of fresh requests from a valid table, no caller is ever told twice |
| `Game.DispatchLosesNoCaller` | game/server.go:67-118 | over a run without cancellation, every pending or told caller stays pending or told, and only callers that made requests appear |
| `Game.CancelStrandsPending` | game/server.go:70-75 | a caller pending at cancellation is neither pending nor told afterwards |
| `Game.Server.constructor` | game/server.go:136-145 | a new server keeps the id it was given and starts with an empty pending table, queue, delivery log and warning count, with the loop running |
| `Game.Server.ID` | game/server.go:40-42 | returns the id fixed at construction |
| `Game.Server.OnCancel` | game/server.go:70-75 | while the loop runs, the new fields and the result are those `Step` gives for cancellation: an empty table, returning nil, after which the loop is stopped. `Valid` is kept |
| `Game.Server.OnInbound` | game/server.go:76-89 | while the loop runs, the new fields and the result are those `Step` gives for the inbound frame; the loop is stopped exactly when the frame does not decode. `Valid` is kept |
| `Game.Server.OnConnectRequest` | game/server.go:90-101 | while the loop runs and given an id that is not pending, the new fields and the result are those `Step` gives for the request, the loop goes on, and `Valid` is kept for a fresh caller |
| `Registry.Manager.constructor` | manager/manager.go:61-63 | a new registry is empty |
| `Registry.Manager.Register` | manager/manager.go:36-40 | the map afterwards is the old one with `s.ID()` mapped to `s`, so any previous entry under that id is replaced and nothing else changes |
| `Registry.Manager.Unregister` | manager/manager.go:42-46 | the map afterwards is the old one without the key `s.ID()`, whichever server was stored there |
| `Registry.Manager.List` | manager/manager.go:23-34 | the slice is a new array with one slot per entry. Every slot holds a stored server, every stored server appears, and no server appears twice |
| `Registry.Manager.Connect` | manager/manager.go:50-59 | a missing id gives `ErrInvalidServer`, whatever any server would answer. A present id gives the stored server's own answer for `sd`, unchanged, which is never `ErrInvalidServer` |

## Left out

- The goroutines, channels, `errgroup` and `select` scheduling of `(*server).Run`
  (game/server.go:44-65, 103-120) are concurrency. Only the dispatcher's
  per-event step is modelled.
- The waiter goroutine is modelled as running as soon as its entry is matched
  (`Resolve`). Its race with cancellation is not modelled.
- The blocking rendezvous in `server.Connect` (game/server.go:123-134) is
  concurrency. A request enters the model as a `Requested` event, and its
  outcome appears in `delivered`.
- Closing `in`, `out` and `connectQueue` on cancellation, and the send-on-closed
  channel race that follows (game/server.go:71-73), are concurrency hazards.
  They have no sequential meaning.
- WebSocket reads and writes (game/server.go:49, 60) are I/O. `out` is the
  sequence of frames handed to the writer task.
- `encoding/json` is a foreign library. It is the `Json` parameter, whose four
  functions may fail.
- `uuid.NewString()` is randomness. The server id is a constructor parameter.
  A correlation id is the `freshId` of a request, required not to be pending.
- The "unknown id" warning is printed (I/O). It is counted in `warnings`.
- The contents of `webrtc.SessionDescription` are opaque. The model uses a
  record with the type and the SDP text.
- `sync.RWMutex` in the registry has no sequential meaning, so it is left out.
- `Registry.Manager.Connect`: the delegated `server.Connect` depends on the
  concurrent actor, so it is a `Negotiator` function parameter. "Does not call
  any server" is stated as "the answer does not depend on that function".
- The HTTP routing, middleware, configuration and websocket handler in
  `server.go` are plumbing, and are not part of this model.
