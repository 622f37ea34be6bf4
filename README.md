# Websocket hub registry, modelled in Dafny

The server keeps a hub: a map from client ID to connected client. Every client
owns an outbound `Send` channel. One goroutine runs `RunHub`. It takes one event
at a time, so the three `select` arms run one after another and never
interleave:

- **register** files the client under its ID and overwrites any earlier entry;
- **unregister** deletes the entry under the client's ID and closes the client's channel;
- **broadcast** makes one pass over the map. Each client either gets the frame by
  a non-blocking send, or has its entry deleted and its channel closed.

This project models those three arms at two levels.

- `registry.dfy`, module `Registry`, models them on values. A `State` holds the
  hub's map (`registry`) and every known client with its channel (`clients`).
  Client identity is a type parameter, because two different clients can share
  an ID. `Step` is one turn of the loop and `Run` a sequence of turns. Both
  include the two Go runtime panics that can happen here: closing a closed
  channel, and sending on a closed channel. The lemmas cover broadcast order, the
  open-channel invariant, and the two hazards described below.
- `hub.dfy`, module `Server`, models them as the server runs them. `Hub` is a
  class with a `clients` map field. `Client` is a class whose fields hold its
  channel's state. Each arm is a method that updates the objects in place, and
  each is proved equal to its `Registry` function on the ghost `View()`. The
  broadcast arm is a loop that picks the next key with `:|`, because Go
  iterates maps in no fixed order.

A channel is modelled by its queue of pending frames, its buffer capacity, a
`closed` flag, and `writerWaiting`. `writerWaiting` says whether the client's writer
goroutine is parked in its receive. A non-blocking send succeeds when the channel is
open and either has buffer room or has a parked writer (`Registry.CanSend`). A
successful send puts the frame in the queue, and a parked writer that takes it is
busy from then on (`Registry.Deliver`). The queue is therefore "frames the hub
handed to this client that are not yet written out", and its first frame is the
one a busy writer is writing. A run of the loop interleaves the hub's events with
the writer's one move, `WriterNext`. The writer finishes the frame it holds and goes
back to its receive, where it takes the next pending frame or parks. Its first move
is the goroutine starting. Every run keeps each channel coherent: a parked writer
has nothing left to write, and an unbuffered channel holds at most one frame. On a
coherent unbuffered channel, which is the kind the server creates
(server/websocket.go:61), a send succeeds exactly when it is a hand-off to a parked
writer. Buffered channels are not modelled exactly; see "## Left out".

## Model

| member | source | states |
|---|---|---|
| `Registry.Register` | server/hub.go:6-9 | After registering `h`, its ID maps to `h` and every other ID keeps its entry. No client's channel changes, so a client displaced under the same ID keeps its channel open. The invariant is kept when the new client's channel is open. |
| `Registry.Unregister` | server/hub.go:10-14 | The entry under the client's ID is gone, whichever client it held (deletion is by ID, not by identity). The client's channel is closed, and nothing else about the client changes. Every other entry and channel is unchanged, and the invariant is kept. |
| `Registry.Broadcast` | server/hub.go:15-25 | No key is added. A registered client stays registered exactly when its send succeeds. A client that stays gets exactly `m` appended to its earlier queue, and its writer is busy with it. No sender is excluded. A client that is evicted has its channel closed and its queue unchanged. Unregistered clients are untouched, and the invariant is kept. |
| `Registry.Visit` | server/hub.go:18-23 | One turn of the broadcast loop on one key. No entry is added or changed. Every other key stays. The visited key stays exactly when its client's send succeeds. That client's channel then gets `m` (`Registry.Deliver`), or is closed when the send fails. Every other client is unchanged. The invariant is kept. |
| `Registry.BroadcastInOrder` | server/hub.go:17-24 | The loop over a given sequence of keys. It never adds or changes an entry, keeps every key it does not visit, keeps the known clients, and keeps the invariant. These hold by induction over the turns. |
| `Registry.BroadcastOrderIrrelevant` | server/hub.go:17-24 | Running the loop body over the keys in any order, each key once, gives the same state as `Broadcast`. Deleting the current key during the pass does not change the outcome. |
| `Registry.Writer` | server/websocket.go:83-93 | A move of a client's writer changes only that client's channel, and never its `closed` flag. The registry and every other client are unchanged, and the invariant is kept. |
| `Registry.Step` | server/hub.go:5-26 | One turn of the loop keeps the state well formed and never adds or forgets a known client. As written, register never panics. As written, unregister panics exactly when the client's channel is already closed. Broadcast panics exactly when some registered channel is closed. A writer's move never panics and leaves the registry as it is. |
| `Registry.UnbufferedSendIsHandOff` | server/hub.go:19 | On a coherent unbuffered channel, a send succeeds exactly when the channel is open and its writer is parked with nothing left to write. The channel then holds just that frame, its writer is busy, and the channel is still coherent. |
| `Registry.StepKeepsCoherent` | server/websocket.go:83-93 | Every turn of the loop, whether a hub event or a writer's move, keeps every channel coherent: a parked writer has nothing left to write, and an unbuffered channel holds at most one frame. |
| `Registry.RunKeepsCoherent` | server/websocket.go:83-93 | Every run, of any length, ends with every channel coherent when it starts that way. |
| `Registry.Run` | server/hub.go:3-29 | A run of any length that does not panic ends in a well-formed state with the same known clients. |
| `Registry.StepKeepsInv` | server/hub.go:5-26 | From a state where every registered channel is open, one turn never sends on a closed channel and keeps that invariant. This holds when a registration brings a new, open client. With the corrected arms the turn never panics. |
| `Registry.RunKeepsInv` | server/hub.go:3-29 | Over every admissible sequence of events, the broadcast arm never sends on a closed channel, and every registered channel stays open. Admissible means each client is registered once, while new and open. With the corrected arms the loop never panics. |
| `Registry.EvictionThenUnregister` | server/hub.go:10-23 | A registered client whose channel is full, broadcast to and then unregistered, makes the loop panic by closing a closed channel. The corrected unregister leaves the state after the broadcast as it is. |
| `Registry.StaleUnregisterDropsNewer` | server/hub.go:6-14 | Suppose a client re-registers under the same ID and then the old client is unregistered. The new client's entry is deleted while its channel stays open. With the corrected arms, the new client stays registered and the old channel is closed. |
| `Registry.RegisterChecked` | server/hub.go:6-9 | Corrected register: the ID maps to the new client, and every other ID keeps its entry. A displaced client's channel is closed and nothing else about it changes. Every other client is unchanged. From a state satisfying the invariant it never panics and keeps the invariant. |
| `Registry.UnregisterChecked` | server/hub.go:10-14 | Corrected unregister: a client that is not the registered entry for its ID changes nothing. Otherwise it acts like `Unregister`. It never panics from a state satisfying the invariant. |
| `Registry.UnregisterCheckedIdempotent` | server/hub.go:10-14 | Applying the corrected unregister twice is the same as applying it once. |
| `Registry.HelloScenario` | server/hub.go:15-25 | Alice, Bob and Carol are connected, and only Carol's writer is busy. Broadcasting "hello" gives Alice and Bob `["hello"]`, removes Carol and closes her channel. Carol's later unregister panics. |
| `Registry.BusyWriterEvicted` | server/hub.go:17-23 | A registered client on an unbuffered channel with a parked writer takes the first frame, and its writer is then busy. A second broadcast with no writer move in between evicts the client: its ID is gone, its channel is closed, and it holds only the first frame. |
| `Registry.ReturningWriterKept` | server/hub.go:17-23 | The same client, from an empty queue, whose writer writes the first frame out (server/websocket.go:86-87) and parks again before the second broadcast, stays registered. Its channel then holds exactly the second frame, with the writer busy on it. |
| `Registry.WroteThenBroadcast` | server/hub.go:18-20 | A busy writer on an unbuffered channel that finishes its one frame parks again, so the next broadcast keeps the client. The channel then holds just the new frame, with the writer busy on it. |
| `Server.Client.constructor` | server/websocket.go:61 | A new client has an empty, open channel with the given capacity. No writer waits on it yet, because the writer starts after registration (server/websocket.go:64). |
| `Server.Client.WriterNext` | server/websocket.go:86-87 | The writer's move, as `Registry.Next` says. It finishes the frame it holds, if any. It then takes the next pending frame or, with none left, parks. The capacity, the ID and the `closed` flag do not change. |
| `Server.Client.TrySend` | server/hub.go:18-20 | The non-blocking send succeeds exactly when `CanSend` holds. It then appends the frame and marks the writer busy, and otherwise changes nothing. The channel must be open, because a send on a closed channel panics even inside a `select`. |
| `Server.Client.Close` | server/hub.go:13 | Closing marks the channel closed and keeps its queue. It requires an open channel, because closing a closed one panics. |
| `Server.Hub.View` | server/websocket.go:27-33 | The hub's map and its clients' channels, viewed as a `Registry.State`. The object invariant implies the value invariant. |
| `Server.Hub.constructor` | server/websocket.go:35-40 | A new hub has an empty client map. |
| `Server.Hub.Register` | server/hub.go:6-9 | The register arm updates the map in place and yields `Registry.Register` of the previous view. |
| `Server.Hub.Unregister` | server/hub.go:10-14 | The unregister arm yields `Registry.Unregister` of the previous view. It requires the client's channel to be open. |
| `Server.Hub.Visit` | server/hub.go:18-23 | One turn of the broadcast loop yields `Registry.Visit` of the previous view. |
| `Server.Hub.Broadcast` | server/hub.go:15-25 | The loop deletes entries as it goes and visits keys in an arbitrary order. It yields `Registry.Broadcast` of the previous view and keeps every registered channel open. |
| `Server.HelloToAliceAndBob` | server/hub.go:15-25 | After Alice and Bob register, their writers park, and "hello" is broadcast, both queues are exactly `["hello"]` and both IDs are still registered. |

## Left out

- The loop's plumbing is not modelled: the `for`/`select`, the unbuffered event channels and the mutex. Only one goroutine runs the loop (main.go:23), so each event is a plain method call, and `Registry.Run` covers finite sequences of events.
- `HandleWebSocketConnections`, `ReadMessages` and `WriteMessages` (server/websocket.go:42-93) are left out as code. They do socket I/O, connection upgrades and the per-client goroutines. Only the writer's effect on its channel is modelled: the `WriterNext` event in a run, and `Client.WriterNext` on the objects. A writer's failed socket write, which ends its loop, is not modelled.
- auth/jwt.go, main.go and database/redis.go are not part of this model. They cover token signing and checking in an external library, environment and clock reads, route wiring, and an unused cache client.
- `Server.Hub.Register` requires the client's channel to be open. The source does not check this. It holds because every client gets a fresh channel (server/websocket.go:61), and the open-channel invariant depends on it.
- `Registry.CanSend`: for a buffered channel (capacity 1 or more) the buffer count includes the frame the writer is holding. In Go that frame went straight to the receiver and never took a buffer slot. So the model can evict a buffered client that Go would keep. Buffered channels are not modelled exactly; the server creates only unbuffered ones (server/websocket.go:61).
- `Registry.Next`: on a buffered channel that got frames before its writer started, the writer's first move drops the oldest frame as if written. In Go the writer would take that frame and be busy with it. This cannot happen on an unbuffered channel.
- `Server.Hub.Unregister`: a Go panic is modelled as a precondition. Unregistering a client whose channel is already closed panics in Go, so the method requires the channel to be open. `Registry.Step` models the panic itself.
- Two corrections would avoid both hazards under Findings. One is an unregister that ignores a client no longer filed under its ID. The other is a register that closes the displaced client's channel. The code does neither. The model follows the code, and the corrected arms appear only under Findings.
- Broadcast has no sender exclusion. The hub does not know which client sent a frame, so the sender gets it too.

## Findings

| source | as written | input that shows it | evidently intended | confidence | as-written member | corrected member |
|---|---|---|---|---|---|---|
| server/hub.go:13 | `close(client.Send)` runs on every unregister, even when the broadcast arm has already closed that channel (server/hub.go:21-22). | A client whose writer is busy is evicted by a broadcast. Its writer then exits, its reader fails and sends the unregister event, and the second `close` panics. | Unregistering a client that is no longer the registered entry does nothing. | not executed | `Registry.EvictionThenUnregister` | `Registry.UnregisterChecked` |
| server/hub.go:12 | `delete(hub.Clients, client.ID)` removes whatever entry is filed under the ID. Register (server/hub.go:8) overwrites an entry without closing the displaced client's channel. | A user reconnects under the same ID before the old connection's unregister arrives. The new client's entry is deleted while its channel stays open. The live connection silently stops getting broadcasts until it drops, and its own unregister then closes the channel. | Only the entry that is this client is removed, and registering over an ID closes the displaced client's channel. | not executed | `Registry.StaleUnregisterDropsNewer` | `Registry.RegisterChecked` |

`Registry.Run` and `Registry.RunKeepsInv` take the discipline as a parameter:
`AsWritten` or `Corrected`. Under `Corrected` they use the two corrected arms,
and `RunKeepsInv` proves that the loop then never panics on any admissible
sequence of events. The `Server` classes model the code as written.
