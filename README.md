# Go-chat room bookkeeping, modelled in Dafny

This project models the room bookkeeping of the Go-chat server:

- the per-room participant table and its broadcast loop (`Room` in
  `websocket/room.go`, and its near-duplicate in `models/struct.go`);
- the package-level room registry `rooms`, with its create, delete and
  list handlers (`websocket/handler.go`);
- the lifecycle of one WebSocket session (`WebSocketHandler`).

Every mutex-guarded method is one atomic step. The unbuffered `Broadcast`
channel is a FIFO queue. Connections are opaque identities, and
`NilConn` stands for a nil `*websocket.Conn`.

The gorilla/websocket calls are inputs:

- Upgrade success is a boolean.
- The messages `ReadJSON` decodes before its first failure are a sequence.
- The connections whose `WriteJSON` fails are a set.
- Each `Close` a room makes is recorded in the room's `Closed` set.
- Successful writes are recorded per connection in `Sent`.

Files:

- `types.dfy` (module `Types`): the value records `User`, `Participant`,
  `Message` and `SerializableRoom`, and connections.
- `room_spec.dfy` (module `RoomSpec`): a room's abstract state, and the
  transitions `Join`, `Leave`, `Forward`, `CloseAll`, `CloseAllNonNil` and
  `Deliver`, with the lemmas about them.
- `ws_room.dfy` (module `WsRoom`): the `Room` class of `websocket/room.go`.
  Its methods update the table and the queue in place, and each is proved
  equal to one transition.
- `models_room.dfy` (module `Models`): the `Room` class of `models/struct.go`,
  with `ToSerializable` and the nil-tolerant `CloseAllConnections`.
- `handler.dfy` (module `Handler`): the registry class and the session.

Properties proved:

- Join/leave bookkeeping. A join overwrites an existing entry, so the count
  grows only for a new connection. Removing an absent connection changes
  nothing, so removal is idempotent.
- FIFO broadcast. A participant that no step drops is sent the queued
  messages once each, in queue order. Only connections whose write failed
  are dropped, and nobody is ever added.
- Notices. A joiner receives its own join notice, and when it joins with
  nothing queued (the only way the room's locking lets a join complete) it
  receives nothing sent before it. A leaver never receives its own leave
  notice. A session whose connection was dropped by a failed write, or
  closed by a room deletion, queues no leave notice when it ends.
- Deleted rooms. After `CloseAllConnections`, nothing is delivered to
  anyone.
- The id policy. `CreateRoomHandler` uses the id `len(rooms)+1`. The id is
  fresh while nothing has been deleted. Once rooms 1..n exist, deleting any
  room but the last makes the next create pick `n`, which is still live, so
  the create is refused with Conflict.

The model follows the code in a place a reader might not expect:
`WebSocketHandler` forwards each decoded message unchanged. It does not
stamp room, user or time on it.

## Model

| member | source | states |
|---|---|---|
| `WsRoom.Room.constructor` | websocket/room.go:21-27 | NewRoom: the given id and name, an empty participant map, an empty queue |
| `WsRoom.Room.AddParticipant` | websocket/room.go:51-65 | the new state is the Join transition: `conn` maps to `user` and one join notice is queued |
| `WsRoom.Room.RemoveParticipant` | websocket/room.go:68-84 | the new state is the Leave transition: a registered `conn` is dropped and its leave notice queued; an absent one changes nothing |
| `WsRoom.Room.CloseAllConnections` | websocket/room.go:35-48 | the new state is CloseAll: every registered connection is closed and the map is empty |
| `WsRoom.Room.BroadcastStep` | websocket/room.go:87-99 | one loop iteration is the Deliver transition: the head of the queue is returned and written to every participant; the failing ones are closed and removed; an empty queue changes nothing |
| `Models.Room.constructor` | models/struct.go:72-79 | NewRoom: id, name and creator as given, an empty participant map, an empty queue |
| `Models.Room.ToSerializable` | models/struct.go:50-69 | id, name and creator are copied; the list holds one Participant per map entry, with user id and name copied, so its length is the map size; an empty map gives an empty list; the room is not modified |
| `Models.ListedLength` | models/struct.go:51-57 | any listing of the map, one element per connection, is as long as the map |
| `Models.Room.CloseAllConnections` | models/struct.go:88-106 | the new state is CloseAllNonNil: nil connections are not closed, every other one is, and every entry is deleted |
| `Models.Room.AddParticipant` | models/struct.go:109-123 | the new state is the Join transition, as in websocket/room.go |
| `Models.Room.RemoveParticipant` | models/struct.go:126-142 | the new state is the Leave transition, as in websocket/room.go |
| `Models.Room.BroadcastStep` | models/struct.go:145-158 | one loop iteration is the Deliver transition, as in websocket/room.go |
| `RoomSpec.JoinEffect` | websocket/room.go:51-63 | after a join `c` maps to `u`; every other entry is unchanged; the count grows only if `c` was new; exactly one message is queued, with the room id, the user id, the user name plus the join suffix, and an empty timestamp |
| `RoomSpec.LeavePresent` | websocket/room.go:71-82 | removing a registered `c` removes only `c`, shrinks the count by one, and queues one leave message with that user's id and name plus the leave suffix |
| `RoomSpec.LeaveAbsent` | websocket/room.go:71-72 | removing an absent connection changes nothing and queues nothing |
| `RoomSpec.LeaveIdempotent` | models/struct.go:129-131 | removing the same connection twice equals removing it once |
| `RoomSpec.SessionEffect` | websocket/handler.go:52-64 | a whole session removes its connection; its net effect on the queue is its join notice, its messages in read order, then its leave notice |
| `RoomSpec.CloseAllEffect` | websocket/room.go:41-45 | CloseAll leaves no participant, closes every registered connection, and leaves the queue and the deliveries as they were |
| `RoomSpec.CloseAllNonNilEffect` | models/struct.go:94-103 | the nil-tolerant variant empties the map, closes every registered non-nil connection, and never closes the nil one |
| `RoomSpec.DeliverParticipants` | websocket/room.go:88-97 | a broadcast step consumes the head of the queue; afterwards the participants are exactly the previous ones minus the failing ones, and each keeps its user |
| `RoomSpec.DeliverSent` | websocket/room.go:91-96 | in one step exactly the non-failing participants are sent the head message, appended to what they had |
| `RoomSpec.DeliverClosed` | websocket/room.go:92-95 | in one step exactly the failing participants are closed |
| `RoomSpec.DeliverNeverAdds` | models/struct.go:147-156 | a broadcast step never adds a participant |
| `RoomSpec.DeliverAllParticipants` | websocket/room.go:88-97 | after any run of steps, the participants are exactly those that never failed, with their users |
| `RoomSpec.DeliverAllFifo` | websocket/room.go:88-97 | a participant that no step drops is sent the first k queued messages once each, in queue order |
| `RoomSpec.DeliverAllQueue` | websocket/room.go:88-89 | each broadcast step consumes exactly one queued message |
| `RoomSpec.DeliverAllSkipsAbsent` | websocket/room.go:88-97 | a connection that is not a participant is never re-added and is sent nothing by later steps |
| `RoomSpec.JoinerReceivesOwnNotice` | websocket/room.go:51-97 | once the backlog ahead of it is broadcast, a joiner that never fails is sent that backlog and then its own join notice |
| `RoomSpec.JoinerSentOnlyOwnNotice` | websocket/room.go:51-97 | a join into a room with nothing queued is followed by a step that keeps the joiner with its user, empties the queue, and sends the joiner exactly its own join notice |
| `RoomSpec.LeaverMissesOwnNotice` | websocket/room.go:68-97 | after a leave, later broadcast steps never send anything to the leaver, its own leave notice included |
| `RoomSpec.NothingSentAfterCloseAll` | websocket/room.go:35-97 | after CloseAllConnections, no broadcast step sends anything to anyone and the room stays empty |
| `RoomSpec.TwoSessionScenario` | websocket/handler.go:52-63 | a is in a room with nothing queued; b joins and its notice is broadcast; a sends `hi` and it is broadcast. With no write failures the room holds a's peers plus b, the queue is empty, and each of a and b is sent exactly b's join notice and then `hi` |
| `RoomSpec.DroppedSessionLeavesSilently` | websocket/room.go:68-97 | after a broadcast step drops `c` for a failed write, the session's RemoveParticipant changes nothing and queues no leave notice |
| `RoomSpec.ClosedSessionLeavesSilently` | websocket/room.go:35-84 | after CloseAllConnections, a session's RemoveParticipant changes nothing and queues no leave notice |
| `Handler.Registry.constructor` | websocket/handler.go:21 | the registry starts empty |
| `Handler.Registry.CreateRoom` | websocket/handler.go:68-90 | an empty name gives BadRequest and no change. The id is len(rooms)+1. A live id gives Conflict and no change. Otherwise a fresh empty room with that id and name is added, the size grows by one, and other entries keep their rooms |
| `Handler.NextIdFreshWithoutDeletes` | websocket/handler.go:75-81 | with live ids 1..n the chosen id n+1 is not live, and adding it gives ids 1..n+1 |
| `Handler.NextIdCollidesAfterDelete` | websocket/handler.go:75-79 | with live ids 1..n and any k < n deleted, the chosen id is n, which is still live |
| `Handler.Registry.ListRooms` | websocket/handler.go:93-105 | one {room_id, room_name} per registered room: the length is len(rooms), every entry matches the registry, every room appears, and no id repeats |
| `Handler.Registry.DeleteRoom` | websocket/handler.go:113-145 | a missing or non-numeric id gives BadRequest and an unknown id gives NotFound, each with no change. Otherwise that room is CloseAll'd and exactly its key is removed; no other room is touched |
| `Handler.Registry.Serve` | websocket/handler.go:24-65 | an upgrade failure, or a missing, non-numeric or unknown room_id, ends the session with no room touched. Otherwise the room's new state is Leave(Forward(Join(old, id, conn, user), inbound), id, conn) |

## Left out

- Concurrency: the goroutines, the `sync.Mutex`, and the blocking of the
  unbuffered channel. Each locked method is one atomic step and the queue is
  unbounded, so back-pressure and stalls are not modelled. Neither is the
  unsynchronised access to `rooms`. Neither is the deadlock in which a
  joiner holds the room's lock while blocked sending its notice, and the
  consumer, already holding a received message, waits for that lock.
- RoomSpec.JoinerReceivesOwnNotice: with the unbounded queue a joiner can
  join while messages are still queued, and it is then also sent that
  backlog. The code cannot complete such a join: `AddParticipant` keeps the
  room's lock until the consumer takes its notice, and the consumer takes
  the lock before writing anything (websocket/room.go:52-63, 89-90). The
  case the code completes is `RoomSpec.JoinerSentOnlyOwnNotice`.
- RoomSpec.DeliverAllFifo: states delivery over any run of queued
  messages, including schedules in which a join happens while messages are
  queued. The code cannot reach those schedules, for the same reason.
- Handler.Registry.Serve: the whole session runs with nothing interleaved.
  It joins, forwards every message and leaves, and no `BroadcastStep` or
  `DeleteRoom` runs in between. Its ensures therefore always queues one
  leave notice. In the code the consumer and the delete handler run during
  the session. A failed write (websocket/room.go:92-95) or the delete
  handler's `CloseAllConnections` (websocket/handler.go:139) can remove the
  connection first, and the deferred `RemoveParticipant` then queues
  nothing. `RoomSpec.DroppedSessionLeavesSilently` and
  `RoomSpec.ClosedSessionLeavesSilently` state that case on the transitions.
- RoomSpec.SessionEffect: the same atomic session as `Serve`, with the
  same lost case.
- The `go room.StartBroadcast()` started by both `NewRoom`s: the consumer is
  the `BroadcastStep` method, one loop iteration per call, run by the caller.
- Gorilla WebSocket I/O. Upgrade, read and write outcomes are inputs. The
  deferred `conn.Close()` of `WebSocketHandler` (websocket/handler.go:31) is
  not recorded; `Closed` records only the closes a room makes, and as a set,
  so a second close of the same connection is not counted.
- A nil connection: only the nil check of models/struct.go is modelled. A
  write to a nil connection (a panic in Go) is an ordinary outcome given by
  the failing set. The close of a nil connection by
  `WsRoom.Room.CloseAllConnections` (a panic at websocket/room.go:43) is
  recorded as an ordinary close.
- `generateUniqueID` (a clock read): the session's user is a parameter.
- `strconv.Atoi`: its outcome is an input, `Some(n)` or `None`.
- JSON encoding, HTTP status writing and logging. The status kinds are part
  of the results. `ListRoomsHandler` encodes an empty list as JSON `null`
  because the slice is nil; the model returns an empty sequence.
- Route wiring in main.go is not part of this model. That includes the
  delete route, which puts `room_id` in the path while the handler reads it
  from the query.
- models/room.go (plain struct declarations), db/mongodb.go and
  static/script.js are not part of this model.
