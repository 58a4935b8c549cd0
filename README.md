# Chat room hub — a Dafny model

This project models the coordination core of a single-room websocket chat server written in Go: the room's run loop in `chat/room.go`. The loop owns the set of clients in the room. Each client has a bounded outbound channel, `send`, of capacity `messageBufferSize` (256). The loop handles one event at a time:

- **join**: the client is put in the room;
- **leave**: the client is deleted from the room and its channel is closed;
- **forward(msg)**: every client in the room gets a non-blocking send of `msg`. A client whose channel is full is evicted: it is deleted from the room and its channel is closed.

The model has four modules.

- `Chan` (`chan.dfy`): a buffered Go channel seen as a value. It holds the buffered messages, the capacity and a closed flag. Function `Send` is the send arm of a non-blocking `select`, `Close` is `close`, and `Receive` is one receive of `for msg := range ch`. Go panics when a program sends on a closed channel or closes one twice. Here both are preconditions.
- `Hub` (`hub.dfy`): the room's state as a value. It holds the member set and a map from each known client to its channel. `Join`, `Leave` and `Forward` are the three arms of the loop. `ForwardInOrder` runs the fan-out loop one member at a time in a chosen order. A lemma proves that every order gives the same result.
- `Events` (`events.dfy`): runs of events fed to the loop by the connection adapter and the pumps. A run ends in `Panicked` where the Go program would panic.
- `ChatRoom` (`room.dfy`): the imperative layer. Class `Room` has a field `clients: set<Client>`. Class `Client` has a field `send`. Methods `Join`, `Leave`, `LeaveIfMember` and `Forward` update these objects in place, and each method's contract gives its new state through the matching `Hub` function. `Forward` loops over a snapshot of the members. It picks members in an arbitrary order and deletes a member during the iteration, as the Go `range` over the map does.

Go's `close` panics on a channel that is already closed. `Leave` and eviction both close unconditionally. A client evicted by `forward` later sends its deferred leave, and that closes the channel a second time. The model exposes this: `Hub.Leave` and `ChatRoom.Room.Leave` require an open channel, and the run model shows the panic (see Findings).

## Model

| member | source | states |
|---|---|---|
| Chan.Make | chat/room.go:80 | a new client's channel is empty, open, within capacity, with the requested capacity |
| Chan.Send | chat/room.go:52 | a non-blocking send to an open channel with room appends exactly the message at the end, keeps the earlier messages, and stays within capacity |
| Chan.Close | chat/room.go:46 | closing needs an open channel (Go panics otherwise); the buffered messages and capacity are kept |
| Chan.Receive | chat/client.go:28 | one receive takes the oldest buffered message (even after close), ends the range loop only on a closed, drained channel, and otherwise blocks; the state changes only by dropping the head |
| Hub.NewRoom | chat/room.go:26-34 | a new room has no members and satisfies the settled invariant |
| Hub.Join | chat/room.go:39-42 | afterwards the client is a member; other clients' membership is unchanged; no channel changes; joining a member changes nothing; the invariant is kept when the joiner's channel is open |
| Hub.Leave | chat/room.go:43-47 | the client is not a member and its channel is closed with its contents kept; other clients' membership and channels are unchanged; a non-member's leave leaves the member set unchanged but still closes the channel; needs an open channel |
| Hub.LeaveIfMember | chat/room.go:43-47 | corrected leave: the client is not a member afterwards, only a member's channel is closed, a non-member's leave changes nothing, and a settled state stays settled with the leaver's channel closed |
| Hub.Outcome | chat/room.go:51-60 | one member's send keeps the capacity; with room the channel stays open and has the message appended, when full it is closed with its contents unchanged |
| Hub.Deliver | chat/room.go:51-60 | one loop iteration changes only the visited member: kept with the message appended when its channel had room, removed with its channel closed when full |
| Hub.DeliverTo | chat/room.go:50-61 | fan-out to a set of members never adds members, keeps untargeted members and their channels, and keeps every member's channel open |
| Hub.Forward | chat/room.go:48-61 | members with room stay and get the message at the end; members with a full channel are removed with the channel closed and contents unchanged; those are the only removals; non-members' channels are untouched; an empty room is unchanged; the invariant is kept |
| Hub.ForwardInOrder | chat/room.go:50-60 | the loop run member by member in a given order never adds members, keeps every member's channel open, and leaves the channels of clients it does not visit unchanged; `Hub.ForwardOrderIndependent` proves it equals `Hub.Forward` for every order |
| Hub.DeliverIsSingleton | chat/room.go:51-60 | one loop iteration equals the fan-out to that one member |
| Hub.DeliverToCompose | chat/room.go:50-60 | fan-out to disjoint sets in sequence equals fan-out to their union, because each member's outcome depends only on its own channel |
| Hub.ForwardInOrderIsDeliverTo | chat/room.go:50-60 | the loop run in any order without repeats equals the fan-out to the members it visits |
| Hub.ForwardOrderIndependent | chat/room.go:50-60 | the loop run over the members in any order gives exactly the `Forward` state, so the map's iteration order does not matter |
| Events.ConnectStep | chat/room.go:78-83 | a newly built (fresh) client always joins, with a fresh open channel of capacity 256, adding exactly its channel; every other membership and every existing channel is unchanged; nothing panics; removed clients stay out and are sent nothing |
| Events.DisconnectStep | chat/room.go:84 | the leaver is no longer a member, and every other client's membership and channel is unchanged; in a settled state a member's leave always runs and leaves the leaver's channel closed with its contents kept; in a settled state the as-written leave panics exactly when the client was already removed, and the guarded leave of a built client always runs |
| Events.BroadcastStep | chat/room.go:48-61 | forwarding panics exactly when some member's channel is closed; in a settled state it is exactly `Hub.Forward`, and keeps the state settled |
| Events.DrainStep | chat/client.go:28 | a receive by a built client's write pump always runs, changes that client's channel exactly as `Chan.Receive` does and nothing else, and never panics |
| Events.Step | chat/room.go:36-64 | one event (an arm of the run loop, or one receive by a write pump) adds a channel only for a connect; from a settled state every event the adapter can produce either runs or, as written, panics; with the guarded leave it runs every event the adapter can produce from a settled state; it keeps removed clients out and unsent-to, keeps a settled state settled, never panics with the guarded leave, and panics as written exactly on the leave of an already-removed client |
| Events.Run | chat/room.go:36-64 | the loop handles events one at a time and a client once known stays known; `Events.GuardedRunNeverPanics`, `Events.GuardedWellFormedRunRuns` and `Events.RemovedStaysOut` carry its properties |
| Events.GuardedRunNeverPanics | chat/room.go:36-64 | with the guarded leave, no sequence of events from a new room panics, and every state reached is settled (members open, removed clients closed, channels within capacity) |
| Events.GuardedWellFormedRunRuns | chat/room.go:36-64 | with the guarded leave, every event sequence the adapter can produce from a new room (fresh connects, leaves and receives only of built clients) runs to the end, settled, with a channel for exactly the clients built |
| Events.RemovedStaysOut | chat/room.go:36-64 | once a known client is not a member it never becomes one again, receives no further messages, and a closed channel stays closed, for the rest of any run |
| Events.BroadcastToSole | chat/room.go:48-61 | a broadcast to a lone member whose channel has room appends the message to that channel |
| Events.SoleMemberFills | chat/room.go:48-61 | a lone member that never drains holds every one of the first n ≤ 256 broadcasts |
| Events.AsWrittenEvictThenLeavePanics | chat/room.go:43-47 | as written, one client, 257 broadcasts and its deferred leave panic: the eviction closed the channel and the leave closes it again |
| Events.GuardedEvictThenLeaveRuns | chat/room.go:43-47 | with the guarded leave, the same events run to completion with an empty room |
| ChatRoom.Client.constructor | chat/room.go:78-82 | a new client's channel is empty, open and of capacity `messageBufferSize` |
| ChatRoom.Client.Receive | chat/client.go:28 | one receive by the write pump updates the client's channel as `Chan.Receive` does |
| ChatRoom.Room.ValidIsHubValid | chat/room.go:11-23 | the room object's invariant holds exactly when `Hub.Valid` holds of its view, so the object layer and the value layer keep the same invariant |
| ChatRoom.Room.constructor | chat/room.go:26-34 | a new room has no clients |
| ChatRoom.Room.Join | chat/room.go:39-42 | the client is added to `clients`, only the room changes, the new state is `Hub.Join` of the old one, and the invariant is kept for a client with an open channel |
| ChatRoom.Room.Leave | chat/room.go:43-47 | the client is removed and its channel closed, only the room and that client change, the new state is `Hub.Leave` of the old one; needs an open channel |
| ChatRoom.Room.LeaveIfMember | chat/room.go:43-47 | corrected leave in place: the client is removed, its channel is closed only if it was a member, the new state is `Hub.LeaveIfMember` of the old one, and the invariant is kept |
| ChatRoom.Room.Forward | chat/room.go:48-61 | in the loop over a snapshot of the members the new state is `Hub.Forward` of the old one: each member with room gets the message, each member with a full channel is removed and closed, only members' channels change, and the invariant is kept |

## Left out

- `room.ServeHTTP` (chat/room.go:73-87): the websocket upgrade, the `log.Fatal` on handshake failure and the goroutine launch are I/O and process plumbing. The model keeps what this function does to room state. `Events.ConnectStep` builds a client with a fresh open channel and joins it. `Events.DisconnectStep` is the deferred leave.
- `client.read` (chat/client.go:16-25): the socket read loop is network I/O. Each message it would read is a `Broadcast` event.
- `client.write` (chat/client.go:27-34): only one receive from the channel is modelled (`Chan.Receive`, `Events.DrainStep`, `ChatRoom.Client.Receive`). The socket write, its error and `socket.Close` are I/O.
- The tracer (`trace/tracer.go`, and `trace.Off()`, which is not part of this model): tracing only writes diagnostics and does not affect room state.
- Concurrency: the unbuffered `forward`, `join` and `leave` channels (chat/room.go:28-30), blocking on them, and the `select`'s choice among ready events (chat/room.go:38). Events are inputs handled one at a time in a given order.
- `socketBufferSize` (chat/room.go:67): it only configures the websocket upgrader.
- Events.Step: a `Connect` of a client already known, and a `Disconnect` or `Drain` of an unknown one, give `Impossible`. The adapter builds a fresh client for every connection, so these cannot occur.
- Events.BroadcastStep: a broadcast in a state where some member has no channel gives `Impossible`. Every member is a client the adapter built, so every member has a channel.
- ChatRoom.Room.Join: the invariant is only promised for a client whose channel is open and within capacity. A client built by the adapter always has such a channel.

## Findings

| source | as written | input that shows it | evidently intended | confidence | as-written member | corrected member |
|---|---|---|---|---|---|---|
| chat/room.go:43-47 | the leave arm closes `client.send` unconditionally, but a client evicted at chat/room.go:57-58 already had its channel closed, and its deferred leave (chat/room.go:84) still arrives | one client joins and never drains, 257 messages are forwarded (the 257th evicts it), then its connection ends and the deferred leave is handled: `close` of a closed channel panics; the panic is not recovered in the `run` goroutine, so the whole server process exits | close the channel only if the client is still a member, so that each channel is closed at most once, and only by the step that removes its client | high; not executed | Events.AsWrittenEvictThenLeavePanics | Hub.LeaveIfMember |

The corrected leave is used by the `MemberOnly` policy of `Events.Run`. Under that policy `Events.GuardedRunNeverPanics` proves that no run panics. The imperative form is `ChatRoom.Room.LeaveIfMember`. `ChatRoom.Room.Leave` and `Hub.Leave` keep the code as written, with the open channel as a precondition.
