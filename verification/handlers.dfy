/** The socket event handlers of server.js, one function per `socket.on`,
    each run to completion on the state and returning the new state and the
    emits it made. `sid` is `socket.id`; the handler's closure variables are
    `st.sessions[sid]`. The `try`/`catch` around each handler is modelled:
    reading a field of an `Absent` payload throws, and whatever the handler
    had already done stays done. */
module Handlers {
  import opened Options
  import opened JsValues
  import opened OrderedMaps
  import opened RoomIds
  import opened Colors
  import opened Registry

  /** `socket.emit('error', { message })` and `return`: nothing else changes. */
  function Reject(st: State, sid: SocketId, message: string): (s: Step)
    ensures s.state == st
    ensures s.emits == [Emission(Sender, {sid}, Error(message))]
  {
    Step(st, [Emit(st, sid, Sender, Error(message))])
  }

  /** The room the connection's `currentRoom` names, when the handler's
      `if (!currentRoom) return;` guard lets it through. */
  function CurrentRoomId(st: State, sid: SocketId): (id: Option<RoomId>)
    requires sid in st.sessions
    ensures id.Some? <==> InRoom(st.sessions[sid])
    ensures id.Some? ==> id == st.sessions[sid].currentRoom
  {
    if InRoom(st.sessions[sid]) then st.sessions[sid].currentRoom else None
  }

  /** The room `currentRoom` names when it is set and still registered. */
  predicate InLiveRoom(st: State, sid: SocketId)
    requires sid in st.sessions
  {
    CurrentRoomId(st, sid).Some? && Has(st.rooms, CurrentRoomId(st, sid).value)
  }

  /** The player record a successful create or join builds. */
  function NewPlayer(sid: SocketId, username: JsValue, colorDraw: ColorDraw): (p: Player)
    ensures p.id == sid && p.socketId == sid && p.username == username
    ensures 2 <= |p.color| <= 7 && p.color[0] == '#'
  {
    Player(sid, username, sid, ColorString(colorDraw))
  }

  /** `create_room`: generate an id, store a fresh room under it (replacing
      any room already there), make the caller its only player. */
  function OnCreateRoom(st: State, sid: SocketId, data: Payload, idDraw: IdDraw, colorDraw: ColorDraw): (s: Step)
    requires sid in st.sessions
    // destructuring undefined throws; the catch reports a generic failure
    ensures data.Absent? ==>
      s.state == st && s.emits == [Emission(Sender, {sid}, Error("Failed to create room"))]
    ensures data.Record? && !Truthy(Field(data, "username")) ==>
      s.state == st && s.emits == [Emission(Sender, {sid}, Error("Username is required"))]
    ensures data.Record? && Truthy(Field(data, "username")) ==>
      var id := RoomIdOf(idDraw);
      var p := NewPlayer(sid, Field(data, "username"), colorDraw);
      var room := Get(s.state.rooms, id);
      && room.Some?
      && room.value.id == id
      && Values(room.value.players) == [p]
      && Get(room.value.players, sid) == Some(p)
      && room.value.canvasState == None
      && room.value.maxPlayers == MaxPlayers
      && (forall q :: q != id ==> Get(s.state.rooms, q) == Get(st.rooms, q))
      && Get(s.state.players, sid) == Some(p)
      && (forall q :: q != sid ==> Get(s.state.players, q) == Get(st.players, q))
      && s.state.sessions == st.sessions[sid := Session(Some(id), Some(p))]
      && Channel(s.state, id) == Channel(st, id) + {sid}
      && (forall q :: q != id ==> Channel(s.state, q) == Channel(st, q))
      && s.state.timers == st.timers && s.state.connected == st.connected
      && s.emits == [Emission(Sender, {sid}, RoomCreated(id, sid, [p]))]
  {
    if data.Absent? then Reject(st, sid, "Failed to create room")
    else
      var username := Field(data, "username");
      if !Truthy(username) then Reject(st, sid, "Username is required")
      else
        var id := RoomIdOf(idDraw);
        var p := NewPlayer(sid, username, colorDraw);
        var room := NewRoom(id).(players := Set(NewRoom(id).players, sid, p));
        var st' := st.(
          rooms := Set(st.rooms, id, room),
          players := Set(st.players, sid, p),
          sessions := st.sessions[sid := Session(Some(id), Some(p))],
          channels := JoinChannel(st.channels, id, sid));
        Step(st', [Emit(st', sid, Sender, RoomCreated(id, sid, Values(room.players)))])
  }

  /** The guards of `join_room` all pass: both fields given, a string id
      naming a registered room, and that room below capacity. */
  predicate JoinAccepted(st: State, data: Payload) {
    && data.Record?
    && Truthy(Field(data, "roomId")) && Truthy(Field(data, "username"))
    && Field(data, "roomId").Str?
    && Has(st.rooms, Field(data, "roomId").s)
    && |Get(st.rooms, Field(data, "roomId").s).value.players| < Get(st.rooms, Field(data, "roomId").s).value.maxPlayers
  }

  /** The success path of `join_room`: `p` is stored under `socket.id` in
      room `id` and in the global table, the connection's closure now names
      the room, the socket joins its socket.io room, and the two
      notifications go out. */
  function Admit(st: State, sid: SocketId, id: RoomId, p: Player): (s: Step)
    requires Has(st.rooms, id)
    ensures
      var before := Get(st.rooms, id).value;
      var after := Get(s.state.rooms, id);
      && after.Some?
      && Get(after.value.players, sid) == Some(p)
      && (forall q :: q != sid ==> Get(after.value.players, q) == Get(before.players, q))
      && |after.value.players| == |before.players| + (if Has(before.players, sid) then 0 else 1)
      && after.value.canvasState == before.canvasState
      && after.value.id == before.id && after.value.maxPlayers == before.maxPlayers
      && (forall q :: q != id ==> Get(s.state.rooms, q) == Get(st.rooms, q))
      && Get(s.state.players, sid) == Some(p)
      && (forall q :: q != sid ==> Get(s.state.players, q) == Get(st.players, q))
      && s.state.sessions == st.sessions[sid := Session(Some(id), Some(p))]
      && Channel(s.state, id) == Channel(st, id) + {sid}
      && (forall q :: q != id ==> Channel(s.state, q) == Channel(st, q))
      && s.state.timers == st.timers && s.state.connected == st.connected
      && s.emits == [
           Emission(RoomExceptSender(id), Channel(st, id) - {sid}, PlayerJoined(p, Values(after.value.players))),
           Emission(Sender, {sid}, RoomJoined(id, sid, Values(after.value.players), before.canvasState))]
  {
    var room := Get(st.rooms, id).value;
    var room' := room.(players := Set(room.players, sid, p));
    var st' := st.(
      rooms := Set(st.rooms, id, room'),
      players := Set(st.players, sid, p),
      sessions := st.sessions[sid := Session(Some(id), Some(p))],
      channels := JoinChannel(st.channels, id, sid));
    assert Channel(st', id) - {sid} == Channel(st, id) - {sid};
    Step(st', [
      Emit(st', sid, RoomExceptSender(id), PlayerJoined(p, Values(room'.players))),
      Emit(st', sid, Sender, RoomJoined(id, sid, Values(room'.players), room.canvasState))])
  }

  /** `join_room`: validate, then add the caller to the room, tell the other
      sockets of the room, and send the caller the room with its canvas. */
  function OnJoinRoom(st: State, sid: SocketId, data: Payload, colorDraw: ColorDraw): (s: Step)
    requires sid in st.sessions
    ensures data.Absent? ==>
      s.state == st && s.emits == [Emission(Sender, {sid}, Error("Failed to join room"))]
    ensures data.Record? && !(Truthy(Field(data, "roomId")) && Truthy(Field(data, "username"))) ==>
      s.state == st && s.emits == [Emission(Sender, {sid}, Error("Room ID and username are required"))]
    ensures data.Record? && Truthy(Field(data, "roomId")) && Truthy(Field(data, "username"))
            && !(Field(data, "roomId").Str? && Has(st.rooms, Field(data, "roomId").s)) ==>
      s.state == st && s.emits == [Emission(Sender, {sid}, Error("Room not found"))]
    ensures data.Record? && Truthy(Field(data, "roomId")) && Truthy(Field(data, "username"))
            && Field(data, "roomId").Str? && Has(st.rooms, Field(data, "roomId").s)
            && !JoinAccepted(st, data) ==>
      s.state == st && s.emits == [Emission(Sender, {sid}, Error("Room is full"))]
    ensures JoinAccepted(st, data) ==>
      var id := Field(data, "roomId").s;
      var before := Get(st.rooms, id).value;
      var p := NewPlayer(sid, Field(data, "username"), colorDraw);
      var after := Get(s.state.rooms, id);
      && after.Some?
      && Get(after.value.players, sid) == Some(p)
      && (forall q :: q != sid ==> Get(after.value.players, q) == Get(before.players, q))
      && |after.value.players| == |before.players| + (if Has(before.players, sid) then 0 else 1)
      && (Valid(before.players) ==> |after.value.players| <= after.value.maxPlayers)
      && after.value.canvasState == before.canvasState
      && after.value.id == before.id && after.value.maxPlayers == before.maxPlayers
      && (forall q :: q != id ==> Get(s.state.rooms, q) == Get(st.rooms, q))
      && Get(s.state.players, sid) == Some(p)
      && (forall q :: q != sid ==> Get(s.state.players, q) == Get(st.players, q))
      && s.state.sessions == st.sessions[sid := Session(Some(id), Some(p))]
      && Channel(s.state, id) == Channel(st, id) + {sid}
      && (forall q :: q != id ==> Channel(s.state, q) == Channel(st, q))
      && s.state.timers == st.timers && s.state.connected == st.connected
      && s.emits == [
           Emission(RoomExceptSender(id), Channel(st, id) - {sid}, PlayerJoined(p, Values(after.value.players))),
           Emission(Sender, {sid}, RoomJoined(id, sid, Values(after.value.players), before.canvasState))]
  {
    if data.Absent? then Reject(st, sid, "Failed to join room")
    else
      var roomId := Field(data, "roomId");
      var username := Field(data, "username");
      if !Truthy(roomId) || !Truthy(username) then Reject(st, sid, "Room ID and username are required")
      else if !roomId.Str? || !Has(st.rooms, roomId.s) then Reject(st, sid, "Room not found")
      else
        var id := roomId.s;
        var room := Get(st.rooms, id).value;
        if |room.players| >= room.maxPlayers then Reject(st, sid, "Room is full")
        else
          Admit(st, sid, id, NewPlayer(sid, username, colorDraw))
  }

  /** `draw`: a truthy `canvasData` becomes the room's snapshot (last writer
      wins); the whole payload is relayed to the room's other sockets. */
  function OnDraw(st: State, sid: SocketId, data: Payload): (s: Step)
    requires sid in st.sessions
    ensures !InLiveRoom(st, sid) || data.Absent? ==> s == Step(st, [])
    ensures InLiveRoom(st, sid) && data.Record? ==>
      var id := CurrentRoomId(st, sid).value;
      var before := Get(st.rooms, id).value;
      var cd := Field(data, "canvasData");
      var after := Get(s.state.rooms, id);
      && after.Some?
      && after.value.canvasState == (if Truthy(cd) then Some(cd) else before.canvasState)
      && after.value.players == before.players
      && after.value.id == before.id && after.value.maxPlayers == before.maxPlayers
      && (forall q :: q != id ==> Get(s.state.rooms, q) == Get(st.rooms, q))
      && s.state.players == st.players && s.state.sessions == st.sessions
      && s.state.channels == st.channels && s.state.timers == st.timers
      && s.state.connected == st.connected
      && s.emits == [Emission(RoomExceptSender(id), Channel(st, id) - {sid}, DrawData(data.fields))]
  {
    match CurrentRoomId(st, sid)
    case None => Step(st, [])
    case Some(id) =>
      match Get(st.rooms, id)
      case None => Step(st, [])
      case Some(room) =>
        if data.Absent? then Step(st, [])
        else
          var canvasData := Field(data, "canvasData");
          var st' := if Truthy(canvasData)
            then st.(rooms := Set(st.rooms, id, room.(canvasState := Some(canvasData))))
            else st;
          Step(st', [Emit(st', sid, RoomExceptSender(id), DrawData(data.fields))])
  }

  /** `clear_canvas`: the snapshot becomes `null`; every socket of the room,
      the sender included, hears `canvas_cleared`. Reading `data.playerId`
      for the event throws on an absent payload after the canvas was cleared. */
  function OnClearCanvas(st: State, sid: SocketId, data: Payload): (s: Step)
    requires sid in st.sessions
    ensures !InLiveRoom(st, sid) ==> s == Step(st, [])
    ensures InLiveRoom(st, sid) ==>
      var id := CurrentRoomId(st, sid).value;
      var before := Get(st.rooms, id).value;
      var after := Get(s.state.rooms, id);
      && after.Some?
      && after.value.canvasState == None
      && after.value.players == before.players
      && after.value.id == before.id && after.value.maxPlayers == before.maxPlayers
      && (forall q :: q != id ==> Get(s.state.rooms, q) == Get(st.rooms, q))
      && s.state.players == st.players && s.state.sessions == st.sessions
      && s.state.channels == st.channels && s.state.timers == st.timers
      && s.state.connected == st.connected
      && (data.Absent? ==> s.emits == [])
      && (data.Record? ==>
            s.emits == [Emission(WholeRoom(id), Channel(st, id), CanvasCleared(Field(data, "playerId")))])
  {
    match CurrentRoomId(st, sid)
    case None => Step(st, [])
    case Some(id) =>
      match Get(st.rooms, id)
      case None => Step(st, [])
      case Some(room) =>
        var st' := st.(rooms := Set(st.rooms, id, room.(canvasState := None)));
        if data.Absent? then Step(st', [])
        else Step(st', [Emit(st', sid, WholeRoom(id), CanvasCleared(Field(data, "playerId")))])
  }

  /** `send_message`: a stateless relay to every socket of the room name in
      `currentRoom`. Unlike the other handlers it does not check that the
      room is still registered. */
  function OnSendMessage(st: State, sid: SocketId, data: Payload): (s: Step)
    requires sid in st.sessions
    ensures s.state == st
    ensures CurrentRoomId(st, sid).None? || data.Absent? ==> s.emits == []
    ensures CurrentRoomId(st, sid).Some? && data.Record? ==>
      var id := CurrentRoomId(st, sid).value;
      s.emits == [Emission(WholeRoom(id), Channel(st, id),
                           ChatMessage(Field(data, "playerId"), Field(data, "username"), Field(data, "message")))]
  {
    match CurrentRoomId(st, sid)
    case None => Step(st, [])
    case Some(id) =>
      if data.Absent? then Step(st, [])
      else Step(st, [Emit(st, sid, WholeRoom(id),
                          ChatMessage(Field(data, "playerId"), Field(data, "username"), Field(data, "message")))])
  }

  /** `ping`: `pong` to the sender only, nothing else. */
  function OnPing(st: State, sid: SocketId): (s: Step)
    ensures s.state == st
    ensures s.emits == [Emission(Sender, {sid}, Pong)]
  {
    Step(st, [Emit(st, sid, Sender, Pong)])
  }

  /** The removal `leave_room` and `disconnect` share: drop `sid` from the
      room and from the global table, tell the room's other sockets, and arm
      a reaper timer when the room became empty. */
  function RemovePlayer(st: State, sid: SocketId, id: RoomId): (s: Step)
    requires Has(st.rooms, id)
    ensures
      var before := Get(st.rooms, id).value;
      var after := Get(s.state.rooms, id);
      && after.Some?
      && !Has(after.value.players, sid)
      && after.value.players == Delete(before.players, sid)
      && (forall q :: q != sid ==> Get(after.value.players, q) == Get(before.players, q))
      && (Valid(before.players) ==>
            |after.value.players| == |before.players| - (if Has(before.players, sid) then 1 else 0))
      && after.value.canvasState == before.canvasState
      && after.value.id == before.id && after.value.maxPlayers == before.maxPlayers
      && (forall q :: q != id ==> Get(s.state.rooms, q) == Get(st.rooms, q))
      && !Has(s.state.players, sid)
      && (forall q :: q != sid ==> Get(s.state.players, q) == Get(st.players, q))
      && s.state.sessions == st.sessions && s.state.channels == st.channels
      && s.state.connected == st.connected
      && s.state.timers == st.timers + (if |after.value.players| == 0 then multiset{sid} else multiset{})
      && s.emits == [Emission(RoomExceptSender(id), Channel(st, id) - {sid}, PlayerLeft(sid, Values(after.value.players)))]
  {
    var room := Get(st.rooms, id).value;
    var room' := room.(players := Delete(room.players, sid));
    var st' := st.(
      rooms := Set(st.rooms, id, room'),
      players := Delete(st.players, sid),
      timers := st.timers + (if |room'.players| == 0 then multiset{sid} else multiset{}));
    Step(st', [Emit(st', sid, RoomExceptSender(id), PlayerLeft(sid, Values(room'.players)))])
  }

  /** `leave_room`: the shared removal, then `currentRoom = null`. The
      socket stays in the socket.io room: the source never calls `socket.leave`. */
  function OnLeaveRoom(st: State, sid: SocketId): (s: Step)
    requires sid in st.sessions
    ensures !InLiveRoom(st, sid) ==> s == Step(st, [])
    ensures InLiveRoom(st, sid) ==>
      var id := CurrentRoomId(st, sid).value;
      var before := Get(st.rooms, id).value;
      var after := Get(s.state.rooms, id);
      && after.Some?
      && !Has(after.value.players, sid)
      && after.value.players == Delete(before.players, sid)
      && (forall q :: q != sid ==> Get(after.value.players, q) == Get(before.players, q))
      && (Valid(before.players) ==>
            |after.value.players| == |before.players| - (if Has(before.players, sid) then 1 else 0))
      && after.value.canvasState == before.canvasState
      && after.value.id == before.id && after.value.maxPlayers == before.maxPlayers
      && (forall q :: q != id ==> Get(s.state.rooms, q) == Get(st.rooms, q))
      && !Has(s.state.players, sid)
      && (forall q :: q != sid ==> Get(s.state.players, q) == Get(st.players, q))
      && s.state.sessions == st.sessions[sid := NoSession]
      && s.state.channels == st.channels && s.state.connected == st.connected
      && s.state.timers == st.timers + (if |after.value.players| == 0 then multiset{sid} else multiset{})
      && s.emits == [Emission(RoomExceptSender(id), Channel(st, id) - {sid}, PlayerLeft(sid, Values(after.value.players)))]
      && CountPlayerLeft(s.emits) == 1
  {
    match CurrentRoomId(st, sid)
    case None => Step(st, [])
    case Some(id) =>
      if !Has(st.rooms, id) then Step(st, [])
      else
        var r := RemovePlayer(st, sid, id);
        Step(r.state.(sessions := r.state.sessions[sid := NoSession]), r.emits)
  }

  /** `disconnect`: socket.io has already taken the socket out of every
      room; the handler does the shared removal but leaves `currentRoom`
      as it was, where a pending reaper timer will read it. */
  function OnDisconnect(st: State, sid: SocketId): (s: Step)
    requires sid in st.sessions
    ensures s.state.connected == st.connected - {sid}
    ensures s.state.sessions == st.sessions
    ensures forall q :: Channel(s.state, q) == Channel(st, q) - {sid}
    ensures !InLiveRoom(st, sid) ==>
      && s.state.rooms == st.rooms && s.state.players == st.players
      && s.state.timers == st.timers && s.emits == []
    ensures InLiveRoom(st, sid) ==>
      var id := CurrentRoomId(st, sid).value;
      var before := Get(st.rooms, id).value;
      var after := Get(s.state.rooms, id);
      && after.Some?
      && !Has(after.value.players, sid)
      && after.value.players == Delete(before.players, sid)
      && (forall q :: q != sid ==> Get(after.value.players, q) == Get(before.players, q))
      && (Valid(before.players) ==>
            |after.value.players| == |before.players| - (if Has(before.players, sid) then 1 else 0))
      && after.value.canvasState == before.canvasState
      && after.value.id == before.id && after.value.maxPlayers == before.maxPlayers
      && (forall q :: q != id ==> Get(s.state.rooms, q) == Get(st.rooms, q))
      && !Has(s.state.players, sid)
      && (forall q :: q != sid ==> Get(s.state.players, q) == Get(st.players, q))
      && s.state.timers == st.timers + (if |after.value.players| == 0 then multiset{sid} else multiset{})
      && s.emits == [Emission(RoomExceptSender(id), Channel(st, id) - {sid}, PlayerLeft(sid, Values(after.value.players)))]
      && CountPlayerLeft(s.emits) == 1
  {
    var st0 := st.(channels := LeaveAllChannels(st.channels, sid), connected := st.connected - {sid});
    assert forall q :: Channel(st0, q) == Channel(st, q) - {sid};
    match CurrentRoomId(st0, sid)
    case None => Step(st0, [])
    case Some(id) =>
      if !Has(st0.rooms, id) then Step(st0, [])
      else
        assert Channel(st0, id) - {sid} == Channel(st, id) - {sid};
        RemovePlayer(st0, sid, id)
  }

  /** The `setTimeout` callback armed by connection `sid`, fired: it reads
      that closure's `currentRoom` now, not when it was armed, and deletes the
      room it names only if that room is registered and has no players. */
  function OnReap(st: State, sid: SocketId): (s: Step)
    requires sid in st.sessions && sid in st.timers
    ensures s.emits == []
    ensures s.state.timers == st.timers - multiset{sid}
    ensures s.state.players == st.players && s.state.sessions == st.sessions
    ensures s.state.channels == st.channels && s.state.connected == st.connected
    // only deletions, and only of the empty room the closure names
    ensures forall q :: Has(s.state.rooms, q) ==> Get(s.state.rooms, q) == Get(st.rooms, q)
    ensures forall q :: Has(st.rooms, q) && !Has(s.state.rooms, q) ==>
      st.sessions[sid].currentRoom == Some(q) && RoomSize(st, q) == 0
    ensures st.sessions[sid].currentRoom.Some? ==>
      var q := st.sessions[sid].currentRoom.value;
      Has(st.rooms, q) && RoomSize(st, q) == 0 ==> !Has(s.state.rooms, q)
  {
    var st0 := st.(timers := st.timers - multiset{sid});
    match st.sessions[sid].currentRoom
    case None => Step(st0, [])
    case Some(q) =>
      if Has(st.rooms, q) && |Get(st.rooms, q).value.players| == 0
      then Step(st0.(rooms := Delete(st.rooms, q)), [])
      else Step(st0, [])
  }
}
