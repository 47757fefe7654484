/** Every handler keeps the registry well formed; in particular no room
    ever holds more than `MaxPlayers` players. */
module Invariants {
  import opened JsValues
  import opened OrderedMaps
  import opened RoomIds
  import opened Colors
  import opened Registry
  import opened Handlers

  lemma InitSatisfiesInv()
    ensures Inv(Init())
  {
  }

  /** Replacing one room by a well-formed record keeps the registry well formed. */
  lemma SetRoomKeepsInv(st: State, id: RoomId, r: Room, st': State)
    requires Inv(st) && RoomOk(id, r)
    requires st'.rooms == Set(st.rooms, id, r)
    requires Valid(st'.players)
    requires st'.connected <= st'.sessions.Keys
    requires forall t :: t in st'.timers ==> t in st'.sessions
    ensures Inv(st')
  {
    forall q | Has(st'.rooms, q)
      ensures RoomOk(q, Get(st'.rooms, q).value)
    {
      if q != id {
        assert Get(st'.rooms, q) == Get(st.rooms, q);
      }
    }
  }

  lemma CreateRoomKeepsInv(st: State, sid: SocketId, data: Payload, idDraw: IdDraw, colorDraw: ColorDraw)
    requires Inv(st) && sid in st.sessions
    ensures Inv(OnCreateRoom(st, sid, data, idDraw, colorDraw).state)
  {
  }

  lemma JoinRoomKeepsInv(st: State, sid: SocketId, data: Payload, colorDraw: ColorDraw)
    requires Inv(st) && sid in st.sessions
    ensures Inv(OnJoinRoom(st, sid, data, colorDraw).state)
  {
    var s := OnJoinRoom(st, sid, data, colorDraw);
    if JoinAccepted(st, data) {
      var id := Field(data, "roomId").s;
      var room := Get(st.rooms, id).value;
      var p := NewPlayer(sid, Field(data, "username"), colorDraw);
      var room' := room.(players := Set(room.players, sid, p));
      assert RoomOk(id, room');
      SetRoomKeepsInv(st, id, room', s.state);
    }
  }

  lemma DrawKeepsInv(st: State, sid: SocketId, data: Payload)
    requires Inv(st) && sid in st.sessions
    ensures Inv(OnDraw(st, sid, data).state)
  {
  }

  lemma ClearCanvasKeepsInv(st: State, sid: SocketId, data: Payload)
    requires Inv(st) && sid in st.sessions
    ensures Inv(OnClearCanvas(st, sid, data).state)
  {
  }

  lemma RemovePlayerKeepsInv(st: State, sid: SocketId, id: RoomId)
    requires Inv(st) && Has(st.rooms, id) && sid in st.sessions
    ensures Inv(RemovePlayer(st, sid, id).state)
  {
    var s := RemovePlayer(st, sid, id);
    var room := Get(st.rooms, id).value;
    var room' := room.(players := Delete(room.players, sid));
    assert RoomOk(id, room');
    SetRoomKeepsInv(st, id, room', s.state);
  }

  lemma LeaveRoomKeepsInv(st: State, sid: SocketId)
    requires Inv(st) && sid in st.sessions
    ensures Inv(OnLeaveRoom(st, sid).state)
  {
    if InLiveRoom(st, sid) {
      RemovePlayerKeepsInv(st, sid, CurrentRoomId(st, sid).value);
    }
  }

  lemma DisconnectKeepsInv(st: State, sid: SocketId)
    requires Inv(st) && sid in st.sessions
    ensures Inv(OnDisconnect(st, sid).state)
  {
    var st0 := st.(channels := LeaveAllChannels(st.channels, sid), connected := st.connected - {sid});
    assert Inv(st0);
    if InLiveRoom(st0, sid) {
      RemovePlayerKeepsInv(st0, sid, CurrentRoomId(st0, sid).value);
    }
  }

  lemma ReapKeepsInv(st: State, sid: SocketId)
    requires Inv(st) && sid in st.sessions && sid in st.timers
    ensures Inv(OnReap(st, sid).state)
  {
  }
}
