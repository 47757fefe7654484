/** The server's process-wide state: the room registry (`rooms`), the global
    player table (`players`), socket.io's own room membership, every
    connection's closure variables, and the armed reaper timers. */
module Registry {
  import opened Options
  import opened JsValues
  import opened OrderedMaps

  type SocketId = string
  type RoomId = string

  /** `settings.maxPlayers` of every room the server creates. */
  const MaxPlayers: nat := 10

  /** The player record built on `create_room` / `join_room`; `joinedAt` is
      a clock reading and is not modelled. */
  datatype Player = Player(id: SocketId, username: JsValue, socketId: SocketId, color: string)

  /** A room record; `createdAt` is a clock reading and is not modelled.
      `canvasState` is `None` for `null`. */
  datatype Room = Room(
    id: RoomId,
    players: OMap<SocketId, Player>,
    canvasState: Option<JsValue>,
    maxPlayers: nat,
    isPublic: bool)

  /** A fresh room as both creation paths build it: no players, blank canvas. */
  function NewRoom(id: RoomId): (r: Room)
    ensures r.id == id && |r.players| == 0 && r.canvasState == None
    ensures r.maxPlayers == MaxPlayers
  {
    Room(id, [], None, MaxPlayers, true)
  }

  /** The two variables each connection's handler closure captures. */
  datatype Session = Session(currentRoom: Option<RoomId>, currentPlayer: Option<Player>)

  const NoSession := Session(None, None)

  /** `if (!currentRoom)` fails: no room, or (never produced) an empty id. */
  predicate InRoom(s: Session) {
    s.currentRoom.Some? && s.currentRoom.value != ""
  }

  datatype State = State(
    rooms: OMap<RoomId, Room>,
    players: OMap<SocketId, Player>,
    /** socket.io's adapter: which sockets `socket.join`ed each room name */
    channels: map<RoomId, set<SocketId>>,
    /** closure variables of every connection ever opened */
    sessions: map<SocketId, Session>,
    connected: set<SocketId>,
    /** one entry per armed `setTimeout`, naming the connection whose closure armed it */
    timers: multiset<SocketId>)

  function Init(): State {
    State([], [], map[], map[], {}, multiset{})
  }

  /** Sockets socket.io would address for room name `r`. */
  function Channel(st: State, r: RoomId): set<SocketId> {
    if r in st.channels then st.channels[r] else {}
  }

  /** `socket.join(r)`. */
  function JoinChannel(ch: map<RoomId, set<SocketId>>, r: RoomId, sid: SocketId): (ch': map<RoomId, set<SocketId>>)
    ensures r in ch' && sid in ch'[r]
    ensures forall q :: q in ch' && q != r ==> q in ch && ch'[q] == ch[q]
    ensures forall q :: q in ch ==> q in ch' && ch[q] <= ch'[q]
    ensures forall q :: q in ch' ==> ch'[q] <= (if q in ch then ch[q] else {}) + {sid}
  {
    ch[r := (if r in ch then ch[r] else {}) + {sid}]
  }

  /** What a closing socket leaves behind: it is in no socket.io room. */
  function LeaveAllChannels(ch: map<RoomId, set<SocketId>>, sid: SocketId): (ch': map<RoomId, set<SocketId>>)
    ensures ch'.Keys == ch.Keys
    ensures forall q :: q in ch' ==> sid !in ch'[q] && ch'[q] + {sid} >= ch[q] && ch'[q] <= ch[q]
  {
    map q | q in ch :: ch[q] - {sid}
  }

  /** Who an emit is addressed to, as the source writes it. */
  datatype Audience =
    | Sender                        // socket.emit(...)
    | RoomExceptSender(room: RoomId) // socket.to(room).emit(...)
    | WholeRoom(room: RoomId)        // io.to(room).emit(...)

  /** The sockets an audience denotes in state `st`. */
  function Recipients(st: State, sid: SocketId, a: Audience): (to: set<SocketId>)
    ensures a.Sender? ==> to == {sid}
    ensures a.RoomExceptSender? ==> sid !in to && to + {sid} >= Channel(st, a.room) && to <= Channel(st, a.room)
    ensures a.WholeRoom? ==> to == Channel(st, a.room)
  {
    match a
    case Sender => {sid}
    case RoomExceptSender(r) => Channel(st, r) - {sid}
    case WholeRoom(r) => Channel(st, r)
  }

  /** Outbound socket events; clock readings (`timestamp`) are not modelled. */
  datatype Event =
    | Error(message: string)
    | RoomCreated(roomId: RoomId, playerId: SocketId, players: seq<Player>)
    | PlayerJoined(player: Player, players: seq<Player>)
    | RoomJoined(roomId: RoomId, playerId: SocketId, players: seq<Player>, canvasState: Option<JsValue>)
    | DrawData(data: map<string, JsValue>)
    | CanvasCleared(clearedBy: JsValue)
    | ChatMessage(senderField: JsValue, usernameField: JsValue, text: JsValue)
    | Pong
    | PlayerLeft(playerId: SocketId, players: seq<Player>)

  /** One emit: its audience, the sockets that audience resolves to, and the event. */
  datatype Emission = Emission(audience: Audience, to: set<SocketId>, event: Event)

  function Emit(st: State, sid: SocketId, a: Audience, e: Event): (m: Emission)
    ensures m.audience == a && m.event == e && m.to == Recipients(st, sid, a)
  {
    Emission(a, Recipients(st, sid, a), e)
  }

  /** The result of one handler run: the state afterwards and what it emitted, in order. */
  datatype Step = Step(state: State, emits: seq<Emission>)

  /** The room a key names, with the record's own shape rules. */
  ghost predicate RoomOk(id: RoomId, r: Room) {
    && r.id == id
    && Valid(r.players)
    && r.maxPlayers == MaxPlayers
    && |r.players| <= r.maxPlayers
    && (forall s :: Has(r.players, s) ==> Get(r.players, s).value.id == s)
    && (r.canvasState.Some? ==> Truthy(r.canvasState.value))
  }

  /** What every reachable state satisfies. */
  ghost predicate Inv(st: State) {
    && Valid(st.rooms)
    && Valid(st.players)
    && (forall id :: Has(st.rooms, id) ==> RoomOk(id, Get(st.rooms, id).value))
    && st.connected <= st.sessions.Keys
    && (forall t :: t in st.timers ==> t in st.sessions)
  }

  /** How socket.io's membership relates to the registry in every reachable
      state. `create_room` and `join_room` call `socket.join` whenever they
      set `currentRoom` or add a player, nothing but a disconnect takes a
      socket out of a socket.io room, and only connected sockets deliver
      events; so a connected socket is in the socket.io room its closure
      names and in that of every room that lists it. */
  ghost predicate Wired(st: State) {
    ClosuresWired(st) && MembersWired(st)
  }

  /** A connected socket is in the socket.io room its closure names. */
  ghost predicate ClosuresWired(st: State) {
    forall s :: s in st.connected && s in st.sessions && st.sessions[s].currentRoom.Some? ==>
      s in Channel(st, st.sessions[s].currentRoom.value)
  }

  /** Every registered room is wired. */
  ghost predicate MembersWired(st: State) {
    forall id :: Has(st.rooms, id) ==> RoomWired(st, id, Get(st.rooms, id).value.players)
  }

  /** Room `id` lists only sockets that connected, and a connected one it
      lists is in the room's socket.io room. */
  ghost predicate RoomWired(st: State, id: RoomId, players: OMap<SocketId, Player>) {
    forall s :: Has(players, s) ==> s in st.sessions && (s in st.connected ==> s in Channel(st, id))
  }

  /** The number of players the registry holds for room `id`, 0 if it is gone. */
  function RoomSize(st: State, id: RoomId): nat {
    match Get(st.rooms, id)
    case Some(r) => |r.players|
    case None => 0
  }

  /** How many `player_left` events a run emitted. */
  function CountPlayerLeft(ms: seq<Emission>): (n: nat)
    ensures n <= |ms|
    ensures n == 0 <==> forall i :: 0 <= i < |ms| ==> !ms[i].event.PlayerLeft?
  {
    if |ms| == 0 then 0
    else (if ms[0].event.PlayerLeft? then 1 else 0) + CountPlayerLeft(ms[1..])
  }

}
