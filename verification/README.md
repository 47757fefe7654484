# kitten-draw room server, modelled in Dafny

This project models the room server of kitten-draw (`server.js`), a Node.js
and socket.io backend for a shared drawing canvas. The server keeps two
process-wide JavaScript `Map`s. `rooms` maps a room id to a room record:
its players, its canvas snapshot and `maxPlayers = 10`. `players` maps a
socket id to a player. Each connection's handler closure captures
`currentRoom` and `currentPlayer`. Every handler runs to completion on
Node's single thread, so the server is modelled as a sequential
transition system:

- `Registry` holds the state, the outbound events and the audiences.
  `State` has the registry, the global player table, socket.io's own
  room membership ("channels"), each connection's closure variables and
  the armed reaper timers. The audiences are `socket.emit` (sender only),
  `socket.to(room)` (the room's sockets minus the sender) and
  `io.to(room)` (all of the room's sockets).
- `Handlers` has one pure function per `socket.on` handler: `create_room`,
  `join_room`, `draw`, `clear_canvas`, `send_message`, `ping`,
  `leave_room` and `disconnect`. It also has `OnReap`, the `setTimeout`
  callback fired as an explicit step. Each returns the new state and the
  ordered emits, each emit tagged with its audience and the sockets that
  audience reaches.
- `Lifecycle` dispatches actions (connect, socket event, timer fires,
  `POST /api/rooms`) and
  holds the properties that relate several steps.
- `Invariants` proves that every step keeps the registry well formed.
  Among other things, no room ever holds more than 10 players.
- `RoomOrder` proves that no handler reorders the registry, whose order
  `activeRooms` reports: rooms keep their positions, new ids go last and
  the reaper drops one.
- `Wiring` proves that socket.io's membership stays tied to the registry.
  A connected socket is in the socket.io room its `currentRoom` names and
  in that of every room listing it. So `io.to(room)` reaches the sender
  and every connected player, and `socket.to(room)` reaches every
  connected player but the sender.
- `HttpApi` covers `POST /api/rooms`, `GET /api/rooms/:roomId` and
  `GET /api/stats`.
- `OrderedMaps` is JavaScript's insertion-ordered `Map`.
  `RoomIds` is `generateRoomId`. `Colors` is the `#`-plus-hex player
  colour. `JsValues` is JavaScript truthiness and socket payloads.

Random numbers enter as inputs: six alphabet indices for a room id, and
one number below 16777215 for a colour. Clock readings (`createdAt`,
`joinedAt`, `timestamp`) are dropped.

Behaviours of the source that the model keeps on purpose:

- A room-id collision on `create_room` or `POST /api/rooms` replaces the
  live room (`CreateCollisionReplacesRoom`).
- Joining a second room does not remove the player from the first. A
  later `leave_room` removes it only from the second room and from the
  global table (`SwitchingRoomsLeavesStaleMember`).
- `leave_room` never calls `socket.leave`, so a socket that left keeps
  receiving the room's relays (`LeftSocketStillReceivesDraws`). That is why
  recipients are computed from socket.io membership, not from the room's
  players.
- The reaper callback reads `currentRoom` when it fires. On the
  `leave_room` path it is `null` until the socket next joins or creates a
  room, so a timer that fires before then deletes nothing
  (`LeaveTimerDeletesNothing`). The room the leave emptied is still
  registered right after it (`LastLeaveEmptiesRoom`). If the socket
  rejoins that room and later disconnects as its last player, the leave's
  timer deletes the room like the disconnect's own
  (`StaleLeaveTimerDeletesRejoinedRoom`). On the `disconnect` path the
  closure can no longer change, so the timer deletes the room whenever
  it fires while the room is registered and empty
  (`DisconnectTimerDeletesEmptyRoom`). A join in the step before the
  timer fires keeps the room (`JoinBeforeReapKeepsRoom`). In general the
  timer spares the room exactly when the room still has a player at the
  moment it fires (`OnReap`): a joiner who has left again by then does
  not save it.
- `try`/`catch`: a handler called with `undefined`/`null` data throws at
  the first property read. `create_room` and `join_room` then report
  "Failed to create room" / "Failed to join room". `clear_canvas` throws
  after it has already cleared the canvas, so the canvas is cleared but
  nothing is emitted.

The server assigns no slot numbers to players, and `join_room` on an
unknown id answers "Room not found"; it never creates the room.

## Model

| member | source | states |
|---|---|---|
| `RoomIds.GenerateRoomId` | server.js:30-37 | the loop builds exactly 6 characters, each from `A`–`Z`/`0`–`9`, character k being the alphabet entry at the k-th random index |
| `RoomIds.RoomIdOf` | server.js:30-37 | a generated id has length 6 and only upper-case letters and digits |
| `RoomIds.DrawOfRoomIdOf` | server.js:31-35 | the random indices can be read back from the id: generation loses nothing |
| `RoomIds.RoomIdOfInjective` | server.js:30-37 | two creations get the same id only when all six random indices coincide |
| `Colors.ColorString` | server.js:149 | a player colour is `#` followed by 1–6 lower-case hex digits denoting the random number, with no leading zero (`#0` for 0), so exactly its `toString(16)` text |
| `Colors.FromHexToHex` | server.js:149 | `toString(16)` is faithful: reading the hex text back gives the number |
| `Colors.ToHexShape` | server.js:149 | `toString(16)` has no leading zero and at most k digits below 16^k |
| `Colors.ToHex` | server.js:149 | `toString(16)` of a non-negative integer is a non-empty string of lower-case hex digits (its value and shape are stated by `FromHexToHex` and `ToHexShape`) |
| `OrderedMaps.Set` | server.js:153-154 | `Map.set` makes the key map to the value and leaves other keys alone; a new key is appended at the end; a present key's entry is spliced in at its own position; keys stay distinct |
| `OrderedMaps.SetInPlace` | server.js:207-208 | in a map with distinct keys, `set` on a present key changes only that key's entry, every other entry staying at its index |
| `OrderedMaps.Delete` | server.js:313-314 | `Map.delete` removes the key and leaves other keys alone; the size drops by one exactly when the key was present, and the remaining entries keep their order |
| `OrderedMaps.Values` | server.js:84 | `Array.from(m.values())` has one element per entry, the value of the entry at the same position, so it lists values in insertion order |
| `OrderedMaps.SetKeys` | server.js:130-139 | `set` never moves a key: on a present key the key order is unchanged, a new key is appended last |
| `OrderedMaps.DeleteKeys` | server.js:328 | in a map with distinct keys, `delete` removes exactly the key's position from the key order and keeps the other keys in order |
| `OrderedMaps.GetIsEntry` | server.js:100 | what `get` returns for a key is an entry that iteration visits |
| `OrderedMaps.EntryIsGet` | server.js:100 | every entry iteration visits is what `get` returns for its key |
| `Registry.NewRoom` | server.js:130-139 | a new room has no players, a null canvas and `maxPlayers` 10 |
| `Registry.Recipients` | server.js:214 | `socket.emit` reaches the sender only, `socket.to` the room's sockets minus the sender, `io.to` all of the room's sockets |
| `Registry.JoinChannel` | server.js:157 | after `socket.join(r)` the socket is in socket.io room `r`; no socket leaves any room and no other room gains a member |
| `Registry.LeaveAllChannels` | server.js:343 | socket.io takes a closing socket out of every room before `disconnect` runs, and nothing else changes; this is an assumption about the library that `Wiring` relies on, not code of the server |
| `Wiring.RoomAudiencesReachMembers` | server.js:157-268 | in a wired state `io.to(room)` reaches every connected player of the room and `socket.to(room)` every one but the sender, the sender never hears its own `socket.to`, and a socket that never joined the room hears neither |
| `Wiring.SenderHearsItsRoom` | server.js:155-157 | a connected socket hears `io.to` of the room its `currentRoom` names |
| `Wiring.ClearCanvasReachesRoom` | server.js:265-271 | `canvas_cleared` reaches the sender and every connected player of the room |
| `Wiring.SendMessageReachesSender` | server.js:285-290 | `chat_message` reaches the sender too |
| `Wiring.DrawReachesOtherMembers` | server.js:249 | `draw_data` reaches every other connected player of the room and not the drawer |
| `Wiring.JoinNotifiesMembers` | server.js:211-225 | `player_joined` reaches every connected player the room already had, not the joiner; `room_joined` goes to the joiner alone |
| `Wiring.LeaveNotifiesMembers` | server.js:317-320 | `player_left` from `leave_room` reaches every other connected player of the room |
| `Wiring.DisconnectNotifiesMembers` | server.js:355-358 | `player_left` from `disconnect` reaches every other connected player of the room |
| `Wiring.MembersWiredFrame` | server.js:157-211 | room membership stays wired through a step that changes one room, drops no session, connects nobody and takes no connected socket out of a socket.io room |
| `Handlers.NewPlayer` | server.js:145-151 | the player record carries `socket.id` as both `id` and `socketId`, keeps the given username, and gets a `#`-prefixed colour string of 2 to 7 characters |
| `Handlers.OnCreateRoom` | server.js:118-172 | missing data or falsy username: one error to the sender, nothing changes; otherwise the generated id maps to a room whose only player is the creator under `socket.id`, with a null canvas and limit 10, replacing any room there; no other room changes; `currentRoom` is the id; the socket joins that socket.io room and no other room's membership changes; one `room_created` to the sender |
| `Handlers.OnJoinRoom` | server.js:175-233 | each failed guard (no data, missing id or name, unknown room, `size >= maxPlayers`) sends its own error to the sender and changes nothing; a success adds the caller to that room only (size up by one unless it was already a member), never past the limit, sets `currentRoom`, adds the socket to that socket.io room and to no other, sends `player_joined` to the other sockets, then `room_joined` with the canvas as it stood, to the caller |
| `Handlers.Admit` | server.js:196-225 | the joiner is stored under `socket.id` in the room and the global table, other keys and rooms unchanged, the room's canvas and limit kept, `currentRoom` set, the socket added to that socket.io room only, then `player_joined` to the room's other sockets and `room_joined` with the canvas to the joiner |
| `Handlers.OnDraw` | server.js:236-254 | outside a live room, or with no data, nothing happens; otherwise a truthy `canvasData` replaces the room's snapshot, a falsy one leaves it, nothing else changes, and the payload goes to the room's sockets minus the sender |
| `Handlers.OnClearCanvas` | server.js:257-277 | in a live room the snapshot becomes null and `canvas_cleared` goes to `io.to(room)`, every socket in the room's socket.io room (which holds the sender in every reachable state, see `Wiring.ClearCanvasReachesRoom`); with no data the canvas is still cleared but nothing is emitted; outside a room nothing happens |
| `Handlers.OnSendMessage` | server.js:280-297 | never changes state; relays to all sockets of the `currentRoom` name, whether or not that room is still registered |
| `Handlers.OnPing` | server.js:300-302 | `pong` to the sender only, no state change |
| `Handlers.RemovePlayer` | server.js:312-332 | the departing socket leaves the room and the global table and the remaining players are the earlier ones without the socket, in their join order, other players and rooms are untouched, the others hear one `player_left` with the remaining list, and a timer is armed exactly when the room became empty |
| `Handlers.OnLeaveRoom` | server.js:305-340 | in a live room: the socket leaves that room's players and the global table and the remaining players are the earlier ones without the socket, in their join order, the room's size drops by one if the socket was among its players (a room that replaced it on an id collision does not list it) and is unchanged otherwise, the room's id, limit, other players and canvas and all other rooms are untouched, a timer is armed exactly when the room became empty, `currentRoom` is reset, socket.io membership is untouched, and exactly one `player_left` with the remaining list goes to the room's sockets minus the sender; otherwise no-op |
| `Handlers.OnDisconnect` | server.js:343-377 | the socket leaves every socket.io room and no other socket's membership changes; in a live room it leaves that room's players and the global table and the remaining players are the earlier ones without the socket, in their join order, the size drops by one if the socket was among its players and is unchanged otherwise, the room's id, limit, other players and canvas and other rooms are untouched, a timer is armed exactly when the room became empty, and exactly one `player_left` with the remaining list goes to the room's other sockets; `currentRoom` is kept |
| `Handlers.OnReap` | server.js:326-331 | the callback only deletes, only the room the closure's `currentRoom` names at fire time, only if it has no players, and does delete such a room |
| `Invariants.CreateRoomKeepsInv` | server.js:130-155 | creation keeps every room well formed (distinct players, limit 10, size within limit, truthy snapshot) |
| `Invariants.JoinRoomKeepsInv` | server.js:191-208 | the capacity guard keeps every room at or below `maxPlayers` |
| `Invariants.DrawKeepsInv` | server.js:244-246 | a stored snapshot is always truthy |
| `Invariants.ClearCanvasKeepsInv` | server.js:265 | clearing keeps the registry well formed |
| `Invariants.RemovePlayerKeepsInv` | server.js:313-314 | removal keeps the registry well formed |
| `Invariants.LeaveRoomKeepsInv` | server.js:305-340 | `leave_room` keeps the registry well formed |
| `Invariants.DisconnectKeepsInv` | server.js:343-377 | `disconnect` keeps the registry well formed |
| `Invariants.ReapKeepsInv` | server.js:326-331 | the reaper keeps the registry well formed |
| `Lifecycle.Apply` | server.js:111-378 | a connection starts with no room; a socket's event never changes another connection's `currentRoom`/`currentPlayer`; a timer firing emits nothing and consumes one armed timer; `POST /api/rooms` emits nothing and touches no session |
| `Lifecycle.ApplyKeepsInv` | server.js:111-378 | every action keeps the registry well formed |
| `Lifecycle.ReceiveKeepsInv` | server.js:118-377 | every socket event, whatever its payload, keeps the registry well formed |
| `Lifecycle.RunKeepsInv` | server.js:191-194 | in every reachable state every room has at most 10 players |
| `Lifecycle.ApplyKeepsWired` | server.js:111-377 | every action keeps socket.io membership wired to sessions and room players |
| `Lifecycle.ReceiveKeepsWired` | server.js:118-377 | every socket event keeps socket.io membership wired |
| `Lifecycle.RunKeepsWired` | server.js:155-211 | in every reachable state a connected socket is in the socket.io room its `currentRoom` names and in that of every room listing it, and every listed socket has connected |
| `Lifecycle.ApplyKeepsOtherSession` | server.js:111-116 | an action that is not socket q's own event leaves q's `currentRoom`/`currentPlayer` alone and cannot reconnect q |
| `Lifecycle.NoRoomUntilJoin` | server.js:334 | `currentRoom` stays `null` through any run in which the socket neither creates nor joins a room |
| `Lifecycle.DisconnectedSessionFrozen` | server.js:343-377 | after a disconnect the socket's closure variables never change again |
| `Lifecycle.FullRoomRejectsJoin` | server.js:191-194 | a join to a room holding 10 players gets "Room is full" and changes nothing |
| `Lifecycle.LeaveThenDisconnectNotifiesOnce` | server.js:305-372 | `leave_room` then `disconnect` removes the player once and yields exactly one `player_left`; the second handler changes no room, player or timer |
| `Lifecycle.DisconnectAloneNotifiesOnce` | server.js:343-372 | a bare disconnect removes the player with exactly one `player_left` and leaves `currentRoom` set |
| `Lifecycle.LeaveTimerDeletesNothing` | server.js:324-334 | a timer of the socket's closure, armed by the last player's `leave_room`, deletes nothing whenever it fires after any run in which the socket neither joins nor creates a room (the same one included) |
| `Lifecycle.LastLeaveEmptiesRoom` | server.js:305-334 | the last player's `leave_room` leaves the room registered with no players and arms a timer |
| `Lifecycle.JoinEmptyRoom` | server.js:191-208 | joining an empty registered room makes the joiner its only player and sets `currentRoom` to it |
| `Lifecycle.StaleLeaveTimerDeletesRejoinedRoom` | server.js:324-370 | after leave, rejoin of the same room and disconnect as its last player, the timer the leave armed deletes that room |
| `Lifecycle.DisconnectTimerDeletesEmptyRoom` | server.js:362-370 | the timer armed by the last player's disconnect, fired after any later run, deletes the room whenever the room is then registered and empty |
| `Lifecycle.JoinBeforeReapKeepsRoom` | server.js:191-208 | a join in the step right before the timer fires keeps the room registered and populated; over longer runs the room survives exactly when it still has a player when the timer fires, which is `Handlers.OnReap`'s contract |
| `Lifecycle.DrawsLastWriterWins` | server.js:244-246 | after any series of draws by any members of the room, in any interleaving of senders, the snapshot is the last truthy `canvasData`, or the earlier one if none was truthy |
| `Lifecycle.LateJoinerGetsLastDraw` | server.js:220-225 | a player joining after a draw receives that draw's `canvasData` in `room_joined`, addressed to it alone |
| `Lifecycle.LateJoinerAfterClearGetsBlank` | server.js:265 | a player joining after `clear_canvas` receives a null canvas |
| `Lifecycle.SwitchingRoomsLeavesStaleMember` | server.js:207-209 | after joining a second room and leaving, the first room still lists the player while the global table does not |
| `Lifecycle.LeftSocketStillReceivesDraws` | server.js:249 | in a wired state a connected socket that left with `leave_room` still receives the room's draw relays |
| `Lifecycle.CreateCollisionReplacesRoom` | server.js:130-139 | a colliding `create_room` drops the live room's players and canvas while their sessions still name the id |
| `HttpApi.PostRooms` | server.js:49-75 | falsy username: 400 and no change; otherwise an empty room with null canvas and limit 10 is registered under the generated id, nothing else changes, and the id is returned |
| `HttpApi.PostRoomsKeepsInv` | server.js:56-68 | creating a room over HTTP keeps the registry well formed |
| `HttpApi.PostedRoomIsJoinable` | server.js:49-75 | a room created over HTTP has room for a joiner |
| `HttpApi.LookupRoom` | server.js:77-94 | found exactly when registered, and then lists the room's players in join order |
| `HttpApi.PostThenLookupFindsEmptyRoom` | server.js:56-88 | a room created over HTTP is found by the lookup with an empty player list |
| `HttpApi.JoinThenLookupListsJoiner` | server.js:81-88 | after an accepted join the lookup lists the joiner last when it was new, else in its old place with every other player where it was |
| `HttpApi.ActiveRooms` | server.js:100-106 | only rooms with players are listed, never more than there are rooms |
| `HttpApi.ActiveRoomsMembers` | server.js:100-106 | a summary is listed exactly when some room record with players produces it |
| `HttpApi.GetStats` | server.js:96-108 | totals are the sizes of `rooms` and `players` |
| `HttpApi.ActiveRoomsNameKeys` | server.js:100-105 | every `activeRooms` entry names a registered room |
| `HttpApi.ActiveRoomsInOrder` | server.js:100-105 | `activeRooms` lists rooms in the registry's insertion order |
| `HttpApi.ActiveRoomsFollowRegistry` | server.js:96-108 | in a well-formed registry earlier `activeRooms` entries name rooms registered earlier |
| `RoomOrder.CreateRoomKeepsRoomOrder` | server.js:130-139 | `create_room` appends a new id last in the registry's key order, keeps a colliding id in its old place, and on an error keeps the order |
| `RoomOrder.JoinRoomKeepsRoomOrder` | server.js:208 | `join_room` never changes the registry's key order |
| `RoomOrder.DrawKeepsRoomOrder` | server.js:244-246 | `draw` never changes the registry's key order |
| `RoomOrder.ClearCanvasKeepsRoomOrder` | server.js:265 | `clear_canvas` never changes the registry's key order |
| `RoomOrder.RemovePlayerKeepsRoomOrder` | server.js:313 | removing a player never changes the registry's key order |
| `RoomOrder.LeaveRoomKeepsRoomOrder` | server.js:305-340 | `leave_room` never changes the registry's key order |
| `RoomOrder.DisconnectKeepsRoomOrder` | server.js:343-377 | `disconnect` never changes the registry's key order |
| `RoomOrder.ReapKeepsRoomOrder` | server.js:326-331 | the reaper either keeps the key order or drops exactly the position of the empty room it deletes, keeping the other rooms in order |
| `RoomOrder.PostRoomsKeepsRoomOrder` | server.js:59-68 | `POST /api/rooms` appends a new id last in the registry's key order and keeps a colliding id in its old place; a rejected request keeps the order |
| `HttpApi.ActiveRoomsAreNonEmptyRooms` | server.js:96-108 | an id is among `activeRooms` exactly when its room is registered with at least one player, with its size |

## Left out

- Express setup, CORS, static hosting, `GET /api/health`, `server.listen` and SIGTERM handling: process plumbing with no registry logic.
- socket.io delivery itself: the model records who each emit is addressed to, not the delivery.
- `console.log`/`console.error` and all clock readings (`createdAt`, `joinedAt`, `timestamp`): no effect on state.
- The 300000 ms delay: a timer may fire at any later step; the model does not order timers by time.
- `Math.random`: its results are inputs (alphabet indices, colour number).
- JavaScript numbers: payload numbers are reals, so `NaN` and `-0` are not modelled.
- Payloads that are non-object primitives: a handler's `data` is either absent (`undefined`/`null`) or a plain object.
- The drawing payload's structure: `canvasData` and relayed draw data are opaque values with a truthiness test.
