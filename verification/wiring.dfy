/** socket.io's room membership against the registry: every handler keeps
    `Wired`, and in a wired state the audiences `io.to(room)` and
    `socket.to(room)` reach the room's connected players. */
module Wiring {
  import opened JsValues
  import opened OrderedMaps
  import opened RoomIds
  import opened Colors
  import opened Registry
  import opened Handlers
  import opened HttpApi

  lemma InitIsWired()
    ensures Wired(Init())
  {
  }

  /** `MembersWired` carries over a step that changes at most room `id`,
      keeps every session, connects nobody and drops a connected socket
      from no socket.io room, once room `id` is wired afterwards. */
  lemma MembersWiredFrame(st: State, st': State, id: RoomId)
    requires MembersWired(st)
    requires forall q :: q != id ==> Get(st'.rooms, q) == Get(st.rooms, q)
    requires st.sessions.Keys <= st'.sessions.Keys && st'.connected <= st.connected
    requires forall q :: Channel(st, q) * st'.connected <= Channel(st', q)
    requires Has(st'.rooms, id) ==> RoomWired(st', id, Get(st'.rooms, id).value.players)
    ensures MembersWired(st')
  {
    forall q | Has(st'.rooms, q) ensures RoomWired(st', q, Get(st'.rooms, q).value.players) {
      if q != id {
        var players := Get(st.rooms, q).value.players;
        assert RoomWired(st, q, players);
        forall s | Has(players, s) ensures s in st'.sessions && (s in st'.connected ==> s in Channel(st', q)) {
          if s in st'.connected {
            assert s in Channel(st, q) * st'.connected;
          }
        }
      }
    }
  }

  lemma CreateRoomKeepsWired(st: State, sid: SocketId, data: Payload, idDraw: IdDraw, colorDraw: ColorDraw)
    requires Wired(st) && sid in st.sessions
    ensures Wired(OnCreateRoom(st, sid, data, idDraw, colorDraw).state)
  {
    CreateRoomKeepsClosuresWired(st, sid, data, idDraw, colorDraw);
    CreateRoomKeepsMembersWired(st, sid, data, idDraw, colorDraw);
  }

  lemma CreateRoomKeepsClosuresWired(st: State, sid: SocketId, data: Payload, idDraw: IdDraw, colorDraw: ColorDraw)
    requires ClosuresWired(st) && sid in st.sessions
    ensures ClosuresWired(OnCreateRoom(st, sid, data, idDraw, colorDraw).state)
  {
  }

  lemma CreateRoomKeepsMembersWired(st: State, sid: SocketId, data: Payload, idDraw: IdDraw, colorDraw: ColorDraw)
    requires MembersWired(st) && sid in st.sessions
    ensures MembersWired(OnCreateRoom(st, sid, data, idDraw, colorDraw).state)
  {
  }

  lemma JoinRoomKeepsWired(st: State, sid: SocketId, data: Payload, colorDraw: ColorDraw)
    requires Wired(st) && sid in st.sessions
    ensures Wired(OnJoinRoom(st, sid, data, colorDraw).state)
  {
    JoinRoomKeepsClosuresWired(st, sid, data, colorDraw);
    JoinRoomKeepsMembersWired(st, sid, data, colorDraw);
  }

  lemma JoinRoomKeepsClosuresWired(st: State, sid: SocketId, data: Payload, colorDraw: ColorDraw)
    requires ClosuresWired(st) && sid in st.sessions
    ensures ClosuresWired(OnJoinRoom(st, sid, data, colorDraw).state)
  {
  }

  lemma JoinRoomKeepsMembersWired(st: State, sid: SocketId, data: Payload, colorDraw: ColorDraw)
    requires MembersWired(st) && sid in st.sessions
    ensures MembersWired(OnJoinRoom(st, sid, data, colorDraw).state)
  {
    var st' := OnJoinRoom(st, sid, data, colorDraw).state;
    if JoinAccepted(st, data) {
      var id := Field(data, "roomId").s;
      var before := Get(st.rooms, id).value.players;
      var after := Get(st'.rooms, id).value.players;
      assert RoomWired(st, id, before);
      forall s | Has(after, s) ensures s in st'.sessions && (s in st'.connected ==> s in Channel(st', id)) {
        if s != sid {
          assert Has(before, s);
        }
      }
      MembersWiredFrame(st, st', id);
    }
  }

  lemma DrawKeepsWired(st: State, sid: SocketId, data: Payload)
    requires Wired(st) && sid in st.sessions
    ensures Wired(OnDraw(st, sid, data).state)
  {
    DrawKeepsClosuresWired(st, sid, data);
    DrawKeepsMembersWired(st, sid, data);
  }

  lemma DrawKeepsClosuresWired(st: State, sid: SocketId, data: Payload)
    requires ClosuresWired(st) && sid in st.sessions
    ensures ClosuresWired(OnDraw(st, sid, data).state)
  {
  }

  lemma DrawKeepsMembersWired(st: State, sid: SocketId, data: Payload)
    requires MembersWired(st) && sid in st.sessions
    ensures MembersWired(OnDraw(st, sid, data).state)
  {
  }

  lemma ClearCanvasKeepsWired(st: State, sid: SocketId, data: Payload)
    requires Wired(st) && sid in st.sessions
    ensures Wired(OnClearCanvas(st, sid, data).state)
  {
    ClearCanvasKeepsClosuresWired(st, sid, data);
    ClearCanvasKeepsMembersWired(st, sid, data);
  }

  lemma ClearCanvasKeepsClosuresWired(st: State, sid: SocketId, data: Payload)
    requires ClosuresWired(st) && sid in st.sessions
    ensures ClosuresWired(OnClearCanvas(st, sid, data).state)
  {
  }

  lemma ClearCanvasKeepsMembersWired(st: State, sid: SocketId, data: Payload)
    requires MembersWired(st) && sid in st.sessions
    ensures MembersWired(OnClearCanvas(st, sid, data).state)
  {
  }

  lemma LeaveRoomKeepsWired(st: State, sid: SocketId)
    requires Wired(st) && sid in st.sessions
    ensures Wired(OnLeaveRoom(st, sid).state)
  {
    LeaveRoomKeepsClosuresWired(st, sid);
    LeaveRoomKeepsMembersWired(st, sid);
  }

  lemma LeaveRoomKeepsClosuresWired(st: State, sid: SocketId)
    requires ClosuresWired(st) && sid in st.sessions
    ensures ClosuresWired(OnLeaveRoom(st, sid).state)
  {
  }

  lemma LeaveRoomKeepsMembersWired(st: State, sid: SocketId)
    requires MembersWired(st) && sid in st.sessions
    ensures MembersWired(OnLeaveRoom(st, sid).state)
  {
  }

  lemma DisconnectKeepsWired(st: State, sid: SocketId)
    requires Wired(st) && sid in st.sessions
    ensures Wired(OnDisconnect(st, sid).state)
  {
    DisconnectKeepsClosuresWired(st, sid);
    DisconnectKeepsMembersWired(st, sid);
  }

  lemma DisconnectKeepsClosuresWired(st: State, sid: SocketId)
    requires ClosuresWired(st) && sid in st.sessions
    ensures ClosuresWired(OnDisconnect(st, sid).state)
  {
  }

  lemma DisconnectKeepsMembersWired(st: State, sid: SocketId)
    requires MembersWired(st) && sid in st.sessions
    ensures MembersWired(OnDisconnect(st, sid).state)
  {
  }

  lemma ReapKeepsWired(st: State, sid: SocketId)
    requires Wired(st) && sid in st.sessions && sid in st.timers
    ensures Wired(OnReap(st, sid).state)
  {
    ReapKeepsClosuresWired(st, sid);
    ReapKeepsMembersWired(st, sid);
  }

  lemma ReapKeepsClosuresWired(st: State, sid: SocketId)
    requires ClosuresWired(st) && sid in st.sessions && sid in st.timers
    ensures ClosuresWired(OnReap(st, sid).state)
  {
  }

  lemma ReapKeepsMembersWired(st: State, sid: SocketId)
    requires MembersWired(st) && sid in st.sessions && sid in st.timers
    ensures MembersWired(OnReap(st, sid).state)
  {
  }

  lemma PostRoomsKeepsWired(st: State, body: map<string, JsValue>, idDraw: IdDraw)
    requires Wired(st)
    ensures Wired(PostRooms(st, body, idDraw).0)
  {
    PostRoomsKeepsClosuresWired(st, body, idDraw);
    PostRoomsKeepsMembersWired(st, body, idDraw);
  }

  lemma PostRoomsKeepsClosuresWired(st: State, body: map<string, JsValue>, idDraw: IdDraw)
    requires ClosuresWired(st)
    ensures ClosuresWired(PostRooms(st, body, idDraw).0)
  {
  }

  lemma PostRoomsKeepsMembersWired(st: State, body: map<string, JsValue>, idDraw: IdDraw)
    requires MembersWired(st)
    ensures MembersWired(PostRooms(st, body, idDraw).0)
  {
  }

  // ---------------------------------------------------------------------
  // Who hears what

  /** In a wired state `io.to(room)` reaches every connected player of the
      room and `socket.to(room)` every one but the sender; both reach only
      sockets that joined the room, so a socket that never joined it hears
      nothing. */
  lemma RoomAudiencesReachMembers(st: State, sid: SocketId, id: RoomId)
    requires Wired(st) && Has(st.rooms, id)
    ensures forall q :: q in st.connected && Has(Get(st.rooms, id).value.players, q) ==>
      && q in Recipients(st, sid, WholeRoom(id))
      && (q != sid ==> q in Recipients(st, sid, RoomExceptSender(id)))
    ensures sid !in Recipients(st, sid, RoomExceptSender(id))
    ensures forall q :: q !in Channel(st, id) ==>
      q !in Recipients(st, sid, WholeRoom(id)) && q !in Recipients(st, sid, RoomExceptSender(id))
  {
  }

  /** A connected socket is in the audience of `io.to(currentRoom)`. */
  lemma SenderHearsItsRoom(st: State, sid: SocketId)
    requires Wired(st) && sid in st.connected && sid in st.sessions
    requires st.sessions[sid].currentRoom.Some?
    ensures sid in Recipients(st, sid, WholeRoom(st.sessions[sid].currentRoom.value))
  {
  }

  /** `canvas_cleared` reaches every connected player of the room, the
      sender included. */
  lemma ClearCanvasReachesRoom(st: State, sid: SocketId, data: Payload)
    requires Wired(st) && sid in st.connected && sid in st.sessions
    requires InLiveRoom(st, sid) && data.Record?
    ensures
      var id := CurrentRoomId(st, sid).value;
      var s := OnClearCanvas(st, sid, data);
      && |s.emits| == 1 && s.emits[0].event.CanvasCleared?
      && sid in s.emits[0].to
      && forall q :: q in st.connected && Has(Get(st.rooms, id).value.players, q) ==> q in s.emits[0].to
  {
  }

  /** `chat_message` reaches the sender too. */
  lemma SendMessageReachesSender(st: State, sid: SocketId, data: Payload)
    requires Wired(st) && sid in st.connected && sid in st.sessions
    requires CurrentRoomId(st, sid).Some? && data.Record?
    ensures
      var s := OnSendMessage(st, sid, data);
      |s.emits| == 1 && sid in s.emits[0].to
  {
  }

  /** `draw_data` reaches every other connected player of the room, and
      not the drawer. */
  lemma DrawReachesOtherMembers(st: State, sid: SocketId, data: Payload)
    requires Wired(st) && sid in st.sessions
    requires InLiveRoom(st, sid) && data.Record?
    ensures
      var id := CurrentRoomId(st, sid).value;
      var s := OnDraw(st, sid, data);
      && |s.emits| == 1 && s.emits[0].event.DrawData?
      && sid !in s.emits[0].to
      && forall q :: q in st.connected && Has(Get(st.rooms, id).value.players, q) && q != sid ==>
           q in s.emits[0].to
  {
  }

  /** `player_joined` reaches every connected player the room had before
      the join, and not the joiner, who gets `room_joined` instead. */
  lemma JoinNotifiesMembers(st: State, sid: SocketId, data: Payload, colorDraw: ColorDraw)
    requires Wired(st) && sid in st.sessions && JoinAccepted(st, data)
    ensures
      var id := Field(data, "roomId").s;
      var s := OnJoinRoom(st, sid, data, colorDraw);
      && s.emits[0].event.PlayerJoined? && sid !in s.emits[0].to
      && s.emits[1].event.RoomJoined? && s.emits[1].to == {sid}
      && forall q :: q in st.connected && Has(Get(st.rooms, id).value.players, q) && q != sid ==>
           q in s.emits[0].to
  {
  }

  /** `player_left` from `leave_room` reaches every other connected player
      of the room. */
  lemma LeaveNotifiesMembers(st: State, sid: SocketId)
    requires Wired(st) && sid in st.sessions && InLiveRoom(st, sid)
    ensures
      var id := CurrentRoomId(st, sid).value;
      var s := OnLeaveRoom(st, sid);
      && |s.emits| == 1 && sid !in s.emits[0].to
      && forall q :: q in st.connected && Has(Get(st.rooms, id).value.players, q) && q != sid ==>
           q in s.emits[0].to
  {
  }

  /** `player_left` from `disconnect` reaches every other connected player
      of the room. */
  lemma DisconnectNotifiesMembers(st: State, sid: SocketId)
    requires Wired(st) && sid in st.sessions && InLiveRoom(st, sid)
    ensures
      var id := CurrentRoomId(st, sid).value;
      var s := OnDisconnect(st, sid);
      && |s.emits| == 1 && sid !in s.emits[0].to
      && forall q :: q in st.connected && Has(Get(st.rooms, id).value.players, q) && q != sid ==>
           q in s.emits[0].to
  {
  }
}
