/** The HTTP endpoints of server.js that touch the registry: `POST
    /api/rooms` (a second way to create a room, joining nobody) and the
    read-only `GET /api/rooms/:roomId` and `GET /api/stats`. */
module HttpApi {
  import opened Options
  import opened JsValues
  import opened OrderedMaps
  import opened RoomIds
  import opened Colors
  import opened Registry
  import opened Handlers

  /** The JSON answer of `POST /api/rooms`. */
  datatype CreateResponse =
    | Created(roomId: RoomId)          // 200 { roomId, success: true }
    | BadRequest(error: string)        // 400 { error }

  /** `POST /api/rooms`: with a truthy `username` in the body, register an
      empty room under a fresh id (replacing any room already there) and
      answer with the id; nobody joins and no reaper timer is armed. */
  function PostRooms(st: State, body: map<string, JsValue>, idDraw: IdDraw): (r: (State, CreateResponse))
    ensures !Truthy(Field(Record(body), "username")) ==>
      r.0 == st && r.1 == BadRequest("Username is required")
    ensures Truthy(Field(Record(body), "username")) ==>
      var id := RoomIdOf(idDraw);
      && r.1 == Created(id)
      && Has(r.0.rooms, id) && RoomSize(r.0, id) == 0
      && Get(r.0.rooms, id).value.canvasState == None
      && Get(r.0.rooms, id).value.maxPlayers == MaxPlayers
      && (forall q :: q != id ==> Get(r.0.rooms, q) == Get(st.rooms, q))
      && r.0.players == st.players && r.0.sessions == st.sessions
      && r.0.channels == st.channels && r.0.timers == st.timers
      && r.0.connected == st.connected
  {
    if !Truthy(Field(Record(body), "username")) then (st, BadRequest("Username is required"))
    else
      var id := RoomIdOf(idDraw);
      (st.(rooms := Set(st.rooms, id, NewRoom(id))), Created(id))
  }

  /** Creating a room over HTTP keeps the registry well formed. */
  lemma PostRoomsKeepsInv(st: State, body: map<string, JsValue>, idDraw: IdDraw)
    requires Inv(st)
    ensures Inv(PostRooms(st, body, idDraw).0)
  {
  }

  /** A room created over HTTP is immediately joinable by a socket. */
  lemma PostedRoomIsJoinable(st: State, body: map<string, JsValue>, idDraw: IdDraw)
    requires Truthy(Field(Record(body), "username"))
    ensures
      var r := PostRooms(st, body, idDraw);
      Has(r.0.rooms, r.1.roomId) && RoomSize(r.0, r.1.roomId) < MaxPlayers
  {
  }

  /** The JSON answer of `GET /api/rooms/:roomId`. */
  datatype RoomLookup =
    | Found(players: seq<Player>, roomId: RoomId)   // { exists: true, players, roomId }
    | NotFound                                      // 404 { exists: false }

  function LookupRoom(st: State, roomId: string): (r: RoomLookup)
    ensures r.Found? <==> Has(st.rooms, roomId)
    ensures r.Found? ==>
      && r.roomId == roomId
      && r.players == Values(Get(st.rooms, roomId).value.players)
      && |r.players| == RoomSize(st, roomId)
  {
    match Get(st.rooms, roomId)
    case Some(room) => Found(Values(room.players), roomId)
    case None => NotFound
  }

  /** A room created over HTTP is found by the lookup, with no players. */
  lemma PostThenLookupFindsEmptyRoom(st: State, body: map<string, JsValue>, idDraw: IdDraw)
    requires Truthy(Field(Record(body), "username"))
    ensures LookupRoom(PostRooms(st, body, idDraw).0, RoomIdOf(idDraw)) == Found([], RoomIdOf(idDraw))
  {
    var id := RoomIdOf(idDraw);
    var st' := PostRooms(st, body, idDraw).0;
    assert |Values(Get(st'.rooms, id).value.players)| == 0;
  }

  /** After an accepted `join_room`, the lookup lists the joiner as the last
      player when it was not yet in the room, and otherwise in its old place
      with everyone else where they were. */
  lemma JoinThenLookupListsJoiner(st: State, sid: SocketId, data: Payload, colorDraw: ColorDraw)
    requires Inv(st) && sid in st.sessions && JoinAccepted(st, data)
    ensures
      var id := Field(data, "roomId").s;
      var before := Get(st.rooms, id).value.players;
      var p := NewPlayer(sid, Field(data, "username"), colorDraw);
      var r := LookupRoom(OnJoinRoom(st, sid, data, colorDraw).state, id);
      && r.Found? && r.roomId == id
      && (!Has(before, sid) ==> r.players == Values(before) + [p])
      && (Has(before, sid) ==>
            |r.players| == |before|
            && forall i :: 0 <= i < |before| ==>
                 r.players[i] == (if before[i].0 == sid then p else before[i].1))
  {
    var id := Field(data, "roomId").s;
    var room := Get(st.rooms, id).value;
    var p := NewPlayer(sid, Field(data, "username"), colorDraw);
    var players' := Set(room.players, sid, p);
    assert OnJoinRoom(st, sid, data, colorDraw) == Admit(st, sid, id, p);
    assert Get(Admit(st, sid, id, p).state.rooms, id).value.players == players';
    assert RoomOk(id, room);
    if !Has(room.players, sid) {
      assert Values(players') == Values(room.players) + [p];
    } else {
      SetInPlace(room.players, sid, p);
    }
  }

  /** One entry of `activeRooms`; `createdAt` is a clock reading and is not modelled. */
  datatype RoomSummary = RoomSummary(id: RoomId, players: nat)

  datatype Stats = Stats(totalRooms: nat, totalPlayers: nat, activeRooms: seq<RoomSummary>)

  /** `Array.from(rooms.values()).filter(room => room.players.size > 0)`,
      each mapped to its id and size, in registry order. */
  function ActiveRooms(rooms: OMap<RoomId, Room>): (active: seq<RoomSummary>)
    ensures |active| <= |rooms|
    ensures forall i :: 0 <= i < |active| ==> active[i].players > 0
  {
    if |rooms| == 0 then []
    else
      var room := rooms[0].1;
      (if |room.players| > 0 then [RoomSummary(room.id, |room.players|)] else []) + ActiveRooms(rooms[1..])
  }

  /** An entry is listed exactly when some registered room record has
      players and that entry summarises it. */
  lemma {:induction false} ActiveRoomsMembers(rooms: OMap<RoomId, Room>, s: RoomSummary)
    ensures s in ActiveRooms(rooms) <==>
      exists e :: e in rooms && |e.1.players| > 0 && s == RoomSummary(e.1.id, |e.1.players|)
  {
    if |rooms| > 0 {
      ActiveRoomsMembers(rooms[1..], s);
      var room := rooms[0].1;
      var head: seq<RoomSummary> := if |room.players| > 0 then [RoomSummary(room.id, |room.players|)] else [];
      assert ActiveRooms(rooms) == head + ActiveRooms(rooms[1..]);
      if s in ActiveRooms(rooms) && s !in head {
        var e :| e in rooms[1..] && |e.1.players| > 0 && s == RoomSummary(e.1.id, |e.1.players|);
        assert e in rooms;
      }
      if exists e :: e in rooms && |e.1.players| > 0 && s == RoomSummary(e.1.id, |e.1.players|) {
        var e :| e in rooms && |e.1.players| > 0 && s == RoomSummary(e.1.id, |e.1.players|);
        if e != rooms[0] {
          assert e in rooms[1..];
        }
      }
    }
  }

  /** Every record carries its own key as id. */
  ghost predicate KeyedById(rooms: OMap<RoomId, Room>) {
    forall i :: 0 <= i < |rooms| ==> rooms[i].1.id == rooms[i].0
  }

  lemma KeyedByIdTail(rooms: OMap<RoomId, Room>)
    requires |rooms| > 0 && KeyedById(rooms)
    ensures KeyedById(rooms[1..])
  {
    forall i | 0 <= i < |rooms| - 1 ensures rooms[1..][i].1.id == rooms[1..][i].0 {
      assert rooms[1..][i] == rooms[i + 1];
    }
  }

  /** Each entry of `activeRooms` names a registered room. */
  lemma {:induction false} ActiveRoomsNameKeys(rooms: OMap<RoomId, Room>)
    requires KeyedById(rooms)
    ensures forall i :: 0 <= i < |ActiveRooms(rooms)| ==> Has(rooms, ActiveRooms(rooms)[i].id)
  {
    if |rooms| > 0 {
      KeyedByIdTail(rooms);
      ActiveRoomsNameKeys(rooms[1..]);
      var rest := ActiveRooms(rooms[1..]);
      var active := ActiveRooms(rooms);
      var h := |active| - |rest|;
      assert active[h..] == rest;
      forall i | 0 <= i < |active| ensures Has(rooms, active[i].id) {
        if i >= h {
          assert active[i] == rest[i - h];
          if rest[i - h].id != rooms[0].0 {
            KeyIndexPastHead(rooms, rest[i - h].id);
          }
        }
      }
    }
  }

  /** `activeRooms` keeps the registry's insertion order: when every record
      carries its own key as id, earlier entries name rooms registered
      earlier. */
  lemma {:induction false} ActiveRoomsInOrder(rooms: OMap<RoomId, Room>)
    requires Valid(rooms) && KeyedById(rooms)
    ensures forall i, j :: 0 <= i < j < |ActiveRooms(rooms)| ==>
      KeyIndex(rooms, ActiveRooms(rooms)[i].id) < KeyIndex(rooms, ActiveRooms(rooms)[j].id)
  {
    if |rooms| > 0 {
      var tail := rooms[1..];
      KeyedByIdTail(rooms);
      ActiveRoomsInOrder(tail);
      ActiveRoomsNameKeys(tail);
      var rest := ActiveRooms(tail);
      var active := ActiveRooms(rooms);
      var h := |active| - |rest|;
      assert active[h..] == rest;
      assert h <= 1;
      forall i | 0 <= i < |rest|
        ensures KeyIndex(rooms, rest[i].id) == 1 + KeyIndex(tail, rest[i].id)
      {
        assert Has(tail, rest[i].id);
        KeyIndexPastHead(rooms, rest[i].id);
      }
      forall i, j | 0 <= i < j < |active|
        ensures KeyIndex(rooms, active[i].id) < KeyIndex(rooms, active[j].id)
      {
        assert active[j] == rest[j - h];
        if i >= h {
          assert active[i] == rest[i - h];
        }
      }
    }
  }

  /** In a well-formed registry `activeRooms` lists rooms in registration
      order. */
  lemma ActiveRoomsFollowRegistry(st: State)
    requires Inv(st)
    ensures forall i, j :: 0 <= i < j < |GetStats(st).activeRooms| ==>
      KeyIndex(st.rooms, GetStats(st).activeRooms[i].id) < KeyIndex(st.rooms, GetStats(st).activeRooms[j].id)
  {
    forall i | 0 <= i < |st.rooms| ensures st.rooms[i].1.id == st.rooms[i].0 {
      EntryIsGet(st.rooms, st.rooms[i].0, st.rooms[i].1);
      assert RoomOk(st.rooms[i].0, st.rooms[i].1);
    }
    ActiveRoomsInOrder(st.rooms);
  }

  /** `GET /api/stats`. */
  function GetStats(st: State): (r: Stats)
    ensures r.totalRooms == |st.rooms| && r.totalPlayers == |st.players|
    ensures |r.activeRooms| <= r.totalRooms
  {
    Stats(|st.rooms|, |st.players|, ActiveRooms(st.rooms))
  }

  /** In a well-formed registry, a room id appears among `activeRooms` if and
      only if that room is registered and has at least one player, and its
      entry then carries the room's size. */
  lemma ActiveRoomsAreNonEmptyRooms(st: State, id: RoomId)
    requires Inv(st)
    ensures (exists i :: 0 <= i < |GetStats(st).activeRooms| && GetStats(st).activeRooms[i].id == id)
        <==> Has(st.rooms, id) && RoomSize(st, id) > 0
    ensures Has(st.rooms, id) && RoomSize(st, id) > 0 ==>
      RoomSummary(id, RoomSize(st, id)) in GetStats(st).activeRooms
  {
    var active := GetStats(st).activeRooms;
    if exists i :: 0 <= i < |active| && active[i].id == id {
      var i :| 0 <= i < |active| && active[i].id == id;
      ActiveRoomsMembers(st.rooms, active[i]);
      var e :| e in st.rooms && |e.1.players| > 0 && active[i] == RoomSummary(e.1.id, |e.1.players|);
      EntryIsGet(st.rooms, e.0, e.1);
      assert RoomOk(e.0, e.1);
    }
    if Has(st.rooms, id) && RoomSize(st, id) > 0 {
      var room := Get(st.rooms, id).value;
      GetIsEntry(st.rooms, id);
      var s := RoomSummary(id, |room.players|);
      ActiveRoomsMembers(st.rooms, s);
      assert (id, room) in st.rooms;
      assert s in active;
    }
  }
}
