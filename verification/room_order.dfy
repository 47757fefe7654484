/** The registry's key order, which `activeRooms` exposes, under every
    handler: an update in place keeps every key where it was, creation
    appends a new id last (or keeps a colliding id in its old place), and
    the reaper drops one key and keeps the others in order. */
module RoomOrder {
  import opened Options
  import opened JsValues
  import opened OrderedMaps
  import opened RoomIds
  import opened Colors
  import opened Registry
  import opened Handlers
  import opened HttpApi

  lemma CreateRoomKeepsRoomOrder(st: State, sid: SocketId, data: Payload, idDraw: IdDraw, colorDraw: ColorDraw)
    requires sid in st.sessions
    ensures
      var id := RoomIdOf(idDraw);
      Keys(OnCreateRoom(st, sid, data, idDraw, colorDraw).state.rooms) ==
        if data.Record? && Truthy(Field(data, "username")) && !Has(st.rooms, id)
        then Keys(st.rooms) + [id] else Keys(st.rooms)
  {
    if data.Record? && Truthy(Field(data, "username")) {
      var id := RoomIdOf(idDraw);
      var p := NewPlayer(sid, Field(data, "username"), colorDraw);
      SetKeys(st.rooms, id, NewRoom(id).(players := Set(NewRoom(id).players, sid, p)));
    }
  }

  lemma JoinRoomKeepsRoomOrder(st: State, sid: SocketId, data: Payload, colorDraw: ColorDraw)
    requires sid in st.sessions
    ensures Keys(OnJoinRoom(st, sid, data, colorDraw).state.rooms) == Keys(st.rooms)
  {
    if JoinAccepted(st, data) {
      var id := Field(data, "roomId").s;
      var room := Get(st.rooms, id).value;
      var p := NewPlayer(sid, Field(data, "username"), colorDraw);
      SetKeys(st.rooms, id, room.(players := Set(room.players, sid, p)));
    }
  }

  lemma DrawKeepsRoomOrder(st: State, sid: SocketId, data: Payload)
    requires sid in st.sessions
    ensures Keys(OnDraw(st, sid, data).state.rooms) == Keys(st.rooms)
  {
    if InLiveRoom(st, sid) && data.Record? {
      var id := CurrentRoomId(st, sid).value;
      var room := Get(st.rooms, id).value;
      SetKeys(st.rooms, id, room.(canvasState := Some(Field(data, "canvasData"))));
    }
  }

  lemma ClearCanvasKeepsRoomOrder(st: State, sid: SocketId, data: Payload)
    requires sid in st.sessions
    ensures Keys(OnClearCanvas(st, sid, data).state.rooms) == Keys(st.rooms)
  {
    if InLiveRoom(st, sid) {
      var id := CurrentRoomId(st, sid).value;
      var room := Get(st.rooms, id).value;
      SetKeys(st.rooms, id, room.(canvasState := None));
    }
  }

  lemma RemovePlayerKeepsRoomOrder(st: State, sid: SocketId, id: RoomId)
    requires Has(st.rooms, id)
    ensures Keys(RemovePlayer(st, sid, id).state.rooms) == Keys(st.rooms)
  {
    var room := Get(st.rooms, id).value;
    SetKeys(st.rooms, id, room.(players := Delete(room.players, sid)));
  }

  lemma LeaveRoomKeepsRoomOrder(st: State, sid: SocketId)
    requires sid in st.sessions
    ensures Keys(OnLeaveRoom(st, sid).state.rooms) == Keys(st.rooms)
  {
    if InLiveRoom(st, sid) {
      RemovePlayerKeepsRoomOrder(st, sid, CurrentRoomId(st, sid).value);
    }
  }

  lemma DisconnectKeepsRoomOrder(st: State, sid: SocketId)
    requires sid in st.sessions
    ensures Keys(OnDisconnect(st, sid).state.rooms) == Keys(st.rooms)
  {
    if InLiveRoom(st, sid) {
      var st0 := st.(channels := LeaveAllChannels(st.channels, sid), connected := st.connected - {sid});
      RemovePlayerKeepsRoomOrder(st0, sid, CurrentRoomId(st, sid).value);
    }
  }

  /** The reaper either keeps the key order or drops the key of the empty
      room the closure names, keeping the rest in order. */
  lemma ReapKeepsRoomOrder(st: State, sid: SocketId)
    requires Valid(st.rooms) && sid in st.sessions && sid in st.timers
    ensures
      var r := OnReap(st, sid).state.rooms;
      var q := st.sessions[sid].currentRoom;
      Keys(r) ==
        if q.Some? && Has(st.rooms, q.value) && RoomSize(st, q.value) == 0
        then Keys(st.rooms)[..KeyIndex(st.rooms, q.value)] + Keys(st.rooms)[KeyIndex(st.rooms, q.value) + 1..]
        else Keys(st.rooms)
  {
    var q := st.sessions[sid].currentRoom;
    if q.Some? && Has(st.rooms, q.value) && RoomSize(st, q.value) == 0 {
      DeleteKeys(st.rooms, q.value);
    }
  }

  lemma PostRoomsKeepsRoomOrder(st: State, body: map<string, JsValue>, idDraw: IdDraw)
    ensures
      var id := RoomIdOf(idDraw);
      Keys(PostRooms(st, body, idDraw).0.rooms) ==
        if Truthy(Field(Record(body), "username")) && !Has(st.rooms, id)
        then Keys(st.rooms) + [id] else Keys(st.rooms)
  {
    SetKeys(st.rooms, RoomIdOf(idDraw), NewRoom(RoomIdOf(idDraw)));
  }
}
