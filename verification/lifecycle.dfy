/** The server as a transition system: connections open, sockets deliver
    events to their handlers one at a time, and armed reaper timers fire at
    any later point. Properties that relate several steps live here. */
module Lifecycle {
  import opened Options
  import opened JsValues
  import opened OrderedMaps
  import opened RoomIds
  import opened Colors
  import opened Registry
  import opened Handlers
  import opened Invariants
  import opened HttpApi
  import opened Wiring

  /** An inbound socket event with the random draws its handler consumes. */
  datatype SocketEvent =
    | CreateRoomEvent(data: Payload, idDraw: IdDraw, colorDraw: ColorDraw)
    | JoinRoomEvent(data: Payload, colorDraw: ColorDraw)
    | DrawEvent(data: Payload)
    | ClearCanvasEvent(data: Payload)
    | SendMessageEvent(data: Payload)
    | PingEvent
    | LeaveRoomEvent(data: Payload)
    | DisconnectEvent

  datatype Action =
    | Connect(sid: SocketId)
    | Receive(sid: SocketId, event: SocketEvent)
    | FireTimer(sid: SocketId)
    | PostRoom(body: map<string, JsValue>, idDraw: IdDraw)

  /** What the environment can do: a fresh socket id connects, a connected
      socket delivers an event, an armed timer fires, an HTTP client creates
      a room. */
  predicate Enabled(st: State, a: Action) {
    match a
    case Connect(sid) => sid !in st.sessions
    case Receive(sid, _) => sid in st.connected && sid in st.sessions
    case FireTimer(sid) => sid in st.timers && sid in st.sessions
    case PostRoom(_, _) => true
  }

  /** Runs one action: the `io.on('connection')` setup, one socket handler,
      a timer callback, or the `POST /api/rooms` route (its response is not
      an emit and is dropped here). */
  function Apply(st: State, a: Action): (s: Step)
    requires Enabled(st, a)
    ensures a.Connect? ==> s.emits == [] && s.state.sessions == st.sessions[a.sid := NoSession]
    ensures a.FireTimer? ==> s.emits == [] && |s.state.timers| + 1 == |st.timers|
    ensures a.PostRoom? ==> s.emits == [] && s.state.sessions == st.sessions
    // a socket's events only ever touch its own closure variables
    ensures a.Receive? ==> forall q :: q in st.sessions && q != a.sid ==>
      q in s.state.sessions && s.state.sessions[q] == st.sessions[q]
  {
    match a
    case Connect(sid) =>
      Step(st.(sessions := st.sessions[sid := NoSession], connected := st.connected + {sid}), [])
    case FireTimer(sid) =>
      OnReap(st, sid)
    case PostRoom(body, idDraw) =>
      Step(PostRooms(st, body, idDraw).0, [])
    case Receive(sid, ev) =>
      match ev
      case CreateRoomEvent(data, idDraw, colorDraw) =>
        OnCreateRoom(st, sid, data, idDraw, colorDraw)
      case JoinRoomEvent(data, colorDraw) =>
        OnJoinRoom(st, sid, data, colorDraw)
      case DrawEvent(data) =>
        OnDraw(st, sid, data)
      case ClearCanvasEvent(data) =>
        OnClearCanvas(st, sid, data)
      case SendMessageEvent(data) => OnSendMessage(st, sid, data)
      case PingEvent => OnPing(st, sid)
      case LeaveRoomEvent(_) =>
        OnLeaveRoom(st, sid)
      case DisconnectEvent =>
        OnDisconnect(st, sid)
  }

  /** Every action keeps the registry well formed. */
  lemma ApplyKeepsInv(st: State, a: Action)
    requires Inv(st) && Enabled(st, a)
    ensures Inv(Apply(st, a).state)
  {
    match a
    case Connect(sid) =>
    case FireTimer(sid) => ReapKeepsInv(st, sid);
    case PostRoom(body, idDraw) => PostRoomsKeepsInv(st, body, idDraw);
    case Receive(sid, ev) => ReceiveKeepsInv(st, sid, ev);
  }

  lemma ReceiveKeepsInv(st: State, sid: SocketId, ev: SocketEvent)
    requires Inv(st) && sid in st.connected && sid in st.sessions
    ensures Inv(Apply(st, Receive(sid, ev)).state)
  {
    match ev
    case CreateRoomEvent(data, idDraw, colorDraw) => CreateRoomKeepsInv(st, sid, data, idDraw, colorDraw);
    case JoinRoomEvent(data, colorDraw) => JoinRoomKeepsInv(st, sid, data, colorDraw);
    case DrawEvent(data) => DrawKeepsInv(st, sid, data);
    case ClearCanvasEvent(data) => ClearCanvasKeepsInv(st, sid, data);
    case SendMessageEvent(data) =>
    case PingEvent =>
    case LeaveRoomEvent(_) => LeaveRoomKeepsInv(st, sid);
    case DisconnectEvent => DisconnectKeepsInv(st, sid);
  }

  /** A run of actions, each enabled where it occurs. */
  predicate Runs(st: State, actions: seq<Action>)
    decreases |actions|
  {
    |actions| == 0 || (Enabled(st, actions[0]) && Runs(Apply(st, actions[0]).state, actions[1..]))
  }

  function Run(st: State, actions: seq<Action>): State
    requires Runs(st, actions)
    decreases |actions|
  {
    if |actions| == 0 then st else Run(Apply(st, actions[0]).state, actions[1..])
  }

  /** Every state reachable from the empty server satisfies the invariant:
      no room ever holds more than `MaxPlayers` players. */
  lemma {:induction false} RunKeepsInv(st: State, actions: seq<Action>)
    requires Inv(st) && Runs(st, actions)
    ensures Inv(Run(st, actions))
    ensures forall id :: Has(Run(st, actions).rooms, id) ==> RoomSize(Run(st, actions), id) <= MaxPlayers
    decreases |actions|
  {
    if |actions| > 0 {
      ApplyKeepsInv(st, actions[0]);
      RunKeepsInv(Apply(st, actions[0]).state, actions[1..]);
    }
  }

  /** Every action keeps socket.io's membership wired to the registry. A
      connecting socket has no session yet, so no room lists it. */
  lemma ApplyKeepsWired(st: State, a: Action)
    requires Wired(st) && Enabled(st, a)
    ensures Wired(Apply(st, a).state)
  {
    match a
    case Connect(sid) =>
    case FireTimer(sid) => ReapKeepsWired(st, sid);
    case PostRoom(body, idDraw) => PostRoomsKeepsWired(st, body, idDraw);
    case Receive(sid, ev) => ReceiveKeepsWired(st, sid, ev);
  }

  lemma ReceiveKeepsWired(st: State, sid: SocketId, ev: SocketEvent)
    requires Wired(st) && sid in st.connected && sid in st.sessions
    ensures Wired(Apply(st, Receive(sid, ev)).state)
  {
    match ev
    case CreateRoomEvent(data, idDraw, colorDraw) => CreateRoomKeepsWired(st, sid, data, idDraw, colorDraw);
    case JoinRoomEvent(data, colorDraw) => JoinRoomKeepsWired(st, sid, data, colorDraw);
    case DrawEvent(data) => DrawKeepsWired(st, sid, data);
    case ClearCanvasEvent(data) => ClearCanvasKeepsWired(st, sid, data);
    case SendMessageEvent(data) =>
    case PingEvent =>
    case LeaveRoomEvent(_) => LeaveRoomKeepsWired(st, sid);
    case DisconnectEvent => DisconnectKeepsWired(st, sid);
  }

  /** Every state reachable from the empty server is wired: in particular
      `canvas_cleared` reaches its sender (`ClearCanvasReachesRoom`) and the
      room relays reach every connected player. */
  lemma {:induction false} RunKeepsWired(st: State, actions: seq<Action>)
    requires Wired(st) && Runs(st, actions)
    ensures Wired(Run(st, actions))
    decreases |actions|
  {
    if |actions| > 0 {
      ApplyKeepsWired(st, actions[0]);
      RunKeepsWired(Apply(st, actions[0]).state, actions[1..]);
    }
  }

  /** A join to a room that already holds `MaxPlayers` players is refused
      with "Room is full" and changes nothing, whatever else the request says. */
  lemma FullRoomRejectsJoin(st: State, sid: SocketId, data: Payload, colorDraw: ColorDraw)
    requires Inv(st) && sid in st.sessions
    requires data.Record? && Truthy(Field(data, "username")) && Truthy(Field(data, "roomId"))
    requires Field(data, "roomId").Str? && Has(st.rooms, Field(data, "roomId").s)
    requires RoomSize(st, Field(data, "roomId").s) == MaxPlayers
    ensures OnJoinRoom(st, sid, data, colorDraw) == Step(st, [Emission(Sender, {sid}, Error("Room is full"))])
  {
  }

  // ---------------------------------------------------------------------
  // Departure: leave_room followed by disconnect

  /** `leave_room` then `disconnect` on the same socket: the player is removed
      once and the room's other sockets hear exactly one `player_left`,
      because `leave_room` clears `currentRoom` and `disconnect` checks it. */
  lemma LeaveThenDisconnectNotifiesOnce(st: State, sid: SocketId)
    requires sid in st.sessions && InLiveRoom(st, sid)
    ensures
      var s1 := OnLeaveRoom(st, sid);
      var s2 := OnDisconnect(s1.state, sid);
      var id := CurrentRoomId(st, sid).value;
      && CountPlayerLeft(s1.emits + s2.emits) == 1
      && s2.emits == []
      && s2.state.rooms == s1.state.rooms && s2.state.players == s1.state.players
      && s2.state.timers == s1.state.timers
      && Has(s2.state.rooms, id) && !Has(Get(s2.state.rooms, id).value.players, sid)
      && !Has(s2.state.players, sid)
  {
  }

  /** A socket that disconnects without leaving first is removed once too. */
  lemma DisconnectAloneNotifiesOnce(st: State, sid: SocketId)
    requires sid in st.sessions && InLiveRoom(st, sid)
    ensures
      var s := OnDisconnect(st, sid);
      var id := CurrentRoomId(st, sid).value;
      && CountPlayerLeft(s.emits) == 1
      && Has(s.state.rooms, id) && !Has(Get(s.state.rooms, id).value.players, sid)
      && s.state.sessions[sid].currentRoom == Some(id)
  {
  }

  // ---------------------------------------------------------------------
  // The reaper

  /** The actions that set `currentRoom` for `sid`: its own `create_room`
      and `join_room` events. */
  predicate SetsRoom(a: Action, sid: SocketId) {
    a.Receive? && a.sid == sid && (a.event.CreateRoomEvent? || a.event.JoinRoomEvent?)
  }

  /** An action that is not `q`'s own event leaves `q`'s closure variables
      alone, and cannot reconnect `q`. */
  lemma ApplyKeepsOtherSession(st: State, a: Action, q: SocketId)
    requires Enabled(st, a) && q in st.sessions && !(a.Receive? && a.sid == q)
    ensures q in Apply(st, a).state.sessions && Apply(st, a).state.sessions[q] == st.sessions[q]
    ensures q !in st.connected ==> q !in Apply(st, a).state.connected
  {
    match a
    case Connect(sid) =>
    case FireTimer(sid) =>
    case PostRoom(body, idDraw) =>
    case Receive(sid, ev) => ReceiveKeepsOtherSession(st, sid, ev, q);
  }

  lemma ReceiveKeepsOtherSession(st: State, sid: SocketId, ev: SocketEvent, q: SocketId)
    requires sid in st.connected && sid in st.sessions && q in st.sessions && q != sid
    ensures q in Apply(st, Receive(sid, ev)).state.sessions
    ensures Apply(st, Receive(sid, ev)).state.sessions[q] == st.sessions[q]
    ensures q !in st.connected ==> q !in Apply(st, Receive(sid, ev)).state.connected
  {
    match ev
    case CreateRoomEvent(data, idDraw, colorDraw) =>
    case JoinRoomEvent(data, colorDraw) =>
    case DrawEvent(data) =>
    case ClearCanvasEvent(data) =>
    case SendMessageEvent(data) =>
    case PingEvent =>
    case LeaveRoomEvent(_) =>
    case DisconnectEvent =>
  }

  /** A socket's own event other than `create_room` and `join_room` leaves
      a `null` `currentRoom` `null`. */
  lemma OwnEventKeepsNoRoom(st: State, sid: SocketId, ev: SocketEvent)
    requires sid in st.connected && sid in st.sessions && st.sessions[sid].currentRoom == None
    requires !ev.CreateRoomEvent? && !ev.JoinRoomEvent?
    ensures sid in Apply(st, Receive(sid, ev)).state.sessions
    ensures Apply(st, Receive(sid, ev)).state.sessions[sid].currentRoom == None
  {
  }

  /** `currentRoom` stays `null` through any run in which the socket
      neither creates nor joins a room. */
  lemma {:induction false} NoRoomUntilJoin(st: State, sid: SocketId, actions: seq<Action>)
    requires Runs(st, actions) && sid in st.sessions && st.sessions[sid].currentRoom == None
    requires forall i :: 0 <= i < |actions| ==> !SetsRoom(actions[i], sid)
    ensures sid in Run(st, actions).sessions && Run(st, actions).sessions[sid].currentRoom == None
    decreases |actions|
  {
    if |actions| > 0 {
      var a := actions[0];
      assert !SetsRoom(a, sid);
      if a.Receive? && a.sid == sid {
        OwnEventKeepsNoRoom(st, sid, a.event);
      } else {
        ApplyKeepsOtherSession(st, a, sid);
      }
      NoRoomUntilJoin(Apply(st, a).state, sid, actions[1..]);
    }
  }

  /** A disconnected socket delivers no more events, so its closure
      variables never change again. */
  lemma {:induction false} DisconnectedSessionFrozen(st: State, sid: SocketId, actions: seq<Action>)
    requires Runs(st, actions) && sid in st.sessions && sid !in st.connected
    ensures sid in Run(st, actions).sessions && Run(st, actions).sessions[sid] == st.sessions[sid]
    ensures sid !in Run(st, actions).connected
    decreases |actions|
  {
    if |actions| > 0 {
      ApplyKeepsOtherSession(st, actions[0], sid);
      DisconnectedSessionFrozen(Apply(st, actions[0]).state, sid, actions[1..]);
    }
  }

  /** The timer the last player's `leave_room` arms deletes nothing whenever
      it fires before the socket next joins or creates a room, the same one
      included: `currentRoom` is `null` until then. */
  lemma LeaveTimerDeletesNothing(st: State, sid: SocketId, actions: seq<Action>)
    requires Inv(st) && sid in st.sessions && InLiveRoom(st, sid)
    requires |Get(st.rooms, CurrentRoomId(st, sid).value).value.players| == 1
    requires Has(Get(st.rooms, CurrentRoomId(st, sid).value).value.players, sid)
    requires Runs(OnLeaveRoom(st, sid).state, actions)
    requires forall i :: 0 <= i < |actions| ==> !SetsRoom(actions[i], sid)
    ensures sid in OnLeaveRoom(st, sid).state.timers
    ensures
      var t := Run(OnLeaveRoom(st, sid).state, actions);
      sid in t.timers ==> sid in t.sessions && OnReap(t, sid).state.rooms == t.rooms
  {
    NoRoomUntilJoin(OnLeaveRoom(st, sid).state, sid, actions);
  }

  /** The last player's `leave_room` empties the room, keeps it registered
      and arms a timer. */
  lemma LastLeaveEmptiesRoom(st: State, sid: SocketId)
    requires Inv(st) && sid in st.sessions && InLiveRoom(st, sid)
    requires |Get(st.rooms, CurrentRoomId(st, sid).value).value.players| == 1
    requires Has(Get(st.rooms, CurrentRoomId(st, sid).value).value.players, sid)
    ensures
      var id := CurrentRoomId(st, sid).value;
      var s1 := OnLeaveRoom(st, sid);
      && Inv(s1.state)
      && Has(s1.state.rooms, id) && RoomSize(s1.state, id) == 0
      && sid in s1.state.timers && sid in s1.state.sessions
  {
    LeaveRoomKeepsInv(st, sid);
  }

  /** A join to an empty room makes the joiner its only player. */
  lemma JoinEmptyRoom(st: State, sid: SocketId, data: Payload, colorDraw: ColorDraw)
    requires Inv(st) && sid in st.sessions
    requires data.Record? && Truthy(Field(data, "username"))
    requires Field(data, "roomId").Str? && Truthy(Field(data, "roomId"))
    requires Has(st.rooms, Field(data, "roomId").s) && RoomSize(st, Field(data, "roomId").s) == 0
    ensures
      var id := Field(data, "roomId").s;
      var s := OnJoinRoom(st, sid, data, colorDraw);
      && Inv(s.state)
      && InLiveRoom(s.state, sid) && CurrentRoomId(s.state, sid) == Some(id)
      && |Get(s.state.rooms, id).value.players| == 1
      && Has(Get(s.state.rooms, id).value.players, sid)
      && s.state.timers == st.timers
  {
    JoinRoomKeepsInv(st, sid, data, colorDraw);
  }

  /** The timer armed by `leave_room` is not tied to the room it was armed
      for: it reads `currentRoom` when it fires. If the socket rejoins the
      room and then disconnects as its last player, the timer the leave
      armed already deletes the room. */
  lemma StaleLeaveTimerDeletesRejoinedRoom(st: State, sid: SocketId, data: Payload, colorDraw: ColorDraw)
    requires Inv(st) && sid in st.sessions && InLiveRoom(st, sid)
    requires |Get(st.rooms, CurrentRoomId(st, sid).value).value.players| == 1
    requires Has(Get(st.rooms, CurrentRoomId(st, sid).value).value.players, sid)
    requires data.Record? && Truthy(Field(data, "username"))
    requires Field(data, "roomId") == Str(CurrentRoomId(st, sid).value)
    ensures
      var id := CurrentRoomId(st, sid).value;
      var s1 := OnLeaveRoom(st, sid);
      var s2 := OnJoinRoom(s1.state, sid, data, colorDraw);
      var s3 := OnDisconnect(s2.state, sid);
      && sid in s1.state.timers
      && sid in s3.state.timers
      && !Has(OnReap(s3.state, sid).state.rooms, id)
  {
    var s1 := OnLeaveRoom(st, sid);
    LastLeaveEmptiesRoom(st, sid);
    JoinEmptyRoom(s1.state, sid, data, colorDraw);
    var s2 := OnJoinRoom(s1.state, sid, data, colorDraw);
    DisconnectTimerDeletesEmptyRoom(s2.state, sid, []);
  }

  /** The timer the last player's disconnect arms deletes the room it
      emptied whenever it fires while that room is registered and empty:
      the closure's `currentRoom` still names it, and nothing can change it. */
  lemma DisconnectTimerDeletesEmptyRoom(st: State, sid: SocketId, actions: seq<Action>)
    requires Inv(st) && sid in st.sessions && InLiveRoom(st, sid)
    requires |Get(st.rooms, CurrentRoomId(st, sid).value).value.players| == 1
    requires Has(Get(st.rooms, CurrentRoomId(st, sid).value).value.players, sid)
    requires Runs(OnDisconnect(st, sid).state, actions)
    ensures sid in OnDisconnect(st, sid).state.timers
    ensures
      var id := CurrentRoomId(st, sid).value;
      var t := Run(OnDisconnect(st, sid).state, actions);
      sid in t.timers && Has(t.rooms, id) && RoomSize(t, id) == 0 ==>
        sid in t.sessions && !Has(OnReap(t, sid).state.rooms, id)
  {
    DisconnectedSessionFrozen(OnDisconnect(st, sid).state, sid, actions);
  }

  /** A join that arrives before the timer fires keeps the room alive: the
      callback re-checks the player count and finds it non-zero. */
  lemma JoinBeforeReapKeepsRoom(st: State, sid: SocketId, other: SocketId, data: Payload, colorDraw: ColorDraw)
    requires Inv(st) && sid in st.sessions && other in st.sessions && sid != other
    requires sid in st.timers && st.sessions[sid].currentRoom.Some?
    requires JoinAccepted(st, data) && Field(data, "roomId").s == st.sessions[sid].currentRoom.value
    ensures
      var id := Field(data, "roomId").s;
      var s1 := OnJoinRoom(st, other, data, colorDraw);
      var s2 := OnReap(s1.state, sid);
      Has(s2.state.rooms, id) && RoomSize(s2.state, id) >= 1
  {
  }

  // ---------------------------------------------------------------------
  // The canvas snapshot

  /** A `draw` as one room member sends it: the sending socket and its payload. */
  type DrawCall = (SocketId, Payload)

  /** The snapshot after a series of draws: the last truthy `canvasData`
      among the payloads present, or what was there before if there is none. */
  function LastSnapshot(initial: Option<JsValue>, ds: seq<DrawCall>): Option<JsValue>
    decreases |ds|
  {
    if |ds| == 0 then initial
    else
      var data := ds[|ds| - 1].1;
      if data.Record? && Truthy(Field(data, "canvasData")) then Some(Field(data, "canvasData"))
      else LastSnapshot(initial, ds[..|ds| - 1])
  }

  /** The state after each socket in turn sends its payload as a `draw`. */
  function DrawAll(st: State, ds: seq<DrawCall>): (st': State)
    requires forall i :: 0 <= i < |ds| ==> ds[i].0 in st.sessions
    ensures st'.sessions == st.sessions
    decreases |ds|
  {
    if |ds| == 0 then st
    else
      var prev := DrawAll(st, ds[..|ds| - 1]);
      OnDraw(prev, ds[|ds| - 1].0, ds[|ds| - 1].1).state
  }

  /** Last writer wins: whichever members of room `id` draw, in whatever
      interleaving, the room's snapshot afterwards is the last truthy
      `canvasData` sent, and its players are as before. */
  lemma {:induction false} DrawsLastWriterWins(st: State, id: RoomId, ds: seq<DrawCall>)
    requires Has(st.rooms, id)
    requires forall i :: 0 <= i < |ds| ==> ds[i].0 in st.sessions && CurrentRoomId(st, ds[i].0) == Some(id)
    ensures
      var st' := DrawAll(st, ds);
      && Has(st'.rooms, id)
      && Get(st'.rooms, id).value.canvasState == LastSnapshot(Get(st.rooms, id).value.canvasState, ds)
      && Get(st'.rooms, id).value.players == Get(st.rooms, id).value.players
    decreases |ds|
  {
    if |ds| > 0 {
      var prefix := ds[..|ds| - 1];
      DrawsLastWriterWins(st, id, prefix);
      var prev := DrawAll(st, prefix);
      assert CurrentRoomId(prev, ds[|ds| - 1].0) == Some(id);
    }
  }

  /** A player who joins after a draw with truthy `canvasData` is sent that
      data as `canvasState` in `room_joined`. */
  lemma LateJoinerGetsLastDraw(st: State, drawer: SocketId, joiner: SocketId, d: Payload, j: Payload, colorDraw: ColorDraw)
    requires drawer in st.sessions && joiner in st.sessions && InLiveRoom(st, drawer)
    requires d.Record? && Truthy(Field(d, "canvasData"))
    requires JoinAccepted(OnDraw(st, drawer, d).state, j)
    requires Field(j, "roomId").s == CurrentRoomId(st, drawer).value
    ensures
      var s := OnJoinRoom(OnDraw(st, drawer, d).state, joiner, j, colorDraw);
      && |s.emits| == 2
      && s.emits[1].to == {joiner}
      && s.emits[1].event.RoomJoined?
      && s.emits[1].event.canvasState == Some(Field(d, "canvasData"))
  {
  }

  /** After `clear_canvas` a joining player receives a blank canvas. */
  lemma LateJoinerAfterClearGetsBlank(st: State, clearer: SocketId, joiner: SocketId, c: Payload, j: Payload, colorDraw: ColorDraw)
    requires clearer in st.sessions && joiner in st.sessions && InLiveRoom(st, clearer)
    requires JoinAccepted(OnClearCanvas(st, clearer, c).state, j)
    requires Field(j, "roomId").s == CurrentRoomId(st, clearer).value
    ensures
      var s := OnJoinRoom(OnClearCanvas(st, clearer, c).state, joiner, j, colorDraw);
      s.emits[1].event == RoomJoined(Field(j, "roomId").s, joiner, s.emits[1].event.players, None)
  {
  }

  // ---------------------------------------------------------------------
  // Quirks of the source that the model keeps

  /** Joining a second room does not remove the player from the first; a
      later `leave_room` then removes it from the second room and from the
      global table only, so the first room keeps a player the global table
      no longer knows. */
  lemma SwitchingRoomsLeavesStaleMember(st: State, sid: SocketId, data: Payload, colorDraw: ColorDraw)
    requires Inv(st) && sid in st.sessions && InLiveRoom(st, sid)
    requires Has(Get(st.rooms, CurrentRoomId(st, sid).value).value.players, sid)
    requires JoinAccepted(st, data) && Field(data, "roomId").s != CurrentRoomId(st, sid).value
    ensures
      var first := CurrentRoomId(st, sid).value;
      var s1 := OnJoinRoom(st, sid, data, colorDraw);
      var s2 := OnLeaveRoom(s1.state, sid);
      && Has(s2.state.rooms, first)
      && Has(Get(s2.state.rooms, first).value.players, sid)
      && !Has(s2.state.players, sid)
      && s2.state.sessions[sid].currentRoom == None
  {
    var first := CurrentRoomId(st, sid).value;
    var s1 := OnJoinRoom(st, sid, data, colorDraw);
    assert Get(s1.state.rooms, first) == Get(st.rooms, first);
    var s2 := OnLeaveRoom(s1.state, sid);
    assert Get(s2.state.rooms, first) == Get(s1.state.rooms, first);
  }

  /** A socket that left with `leave_room` is still in the socket.io room,
      so it keeps receiving the room's draw relays. */
  lemma LeftSocketStillReceivesDraws(st: State, leaver: SocketId, drawer: SocketId, d: Payload)
    requires leaver in st.sessions && drawer in st.sessions && leaver != drawer
    requires InLiveRoom(st, leaver) && d.Record?
    requires CurrentRoomId(st, drawer) == CurrentRoomId(st, leaver)
    requires Wired(st) && leaver in st.connected
    ensures
      var s1 := OnLeaveRoom(st, leaver);
      var s2 := OnDraw(s1.state, drawer, d);
      && !Has(s1.state.players, leaver)
      && |s2.emits| == 1
      && leaver in s2.emits[0].to
  {
  }

  /** An id collision on `create_room` replaces the live room: its players
      and its canvas are gone and the creator is its only player, while the
      old players' sessions still name the id. */
  lemma CreateCollisionReplacesRoom(st: State, sid: SocketId, data: Payload, idDraw: IdDraw, colorDraw: ColorDraw, victim: SocketId)
    requires sid in st.sessions && victim in st.sessions && victim != sid
    requires data.Record? && Truthy(Field(data, "username"))
    requires Has(st.rooms, RoomIdOf(idDraw))
    requires Has(Get(st.rooms, RoomIdOf(idDraw)).value.players, victim)
    requires st.sessions[victim].currentRoom == Some(RoomIdOf(idDraw))
    ensures
      var s := OnCreateRoom(st, sid, data, idDraw, colorDraw);
      var room := Get(s.state.rooms, RoomIdOf(idDraw)).value;
      && !Has(room.players, victim)
      && room.canvasState == None
      && s.state.sessions[victim].currentRoom == Some(RoomIdOf(idDraw))
  {
  }
}
