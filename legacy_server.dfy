/** The older Express and Socket.IO server: a map of rooms holding code, a
    language name and the list of connected socket ids. Rooms are created
    by `POST /api/rooms`, by `GET /api/rooms/:roomId` for an unknown id and
    by `join-room`; no handler ever deletes one. */
module LegacyServer {
  import opened Common

  datatype LegacyRoom = LegacyRoom(
    id: string,
    code: string,
    language: string,
    users: seq<string>,
    createdAt: string)

  type RoomMap = map<string, LegacyRoom>

  /** What a room is created with, wherever it is created. */
  function FreshRoom(roomId: string, now: string): (r: LegacyRoom)
    ensures r.id == roomId && r.code == "" && r.language == "javascript" && r.users == []
  {
    LegacyRoom(roomId, "", "javascript", [], now)
  }

  /** The room map with `roomId` present: an existing room is kept as it
      is, a missing one is created. */
  function EnsureRoom(rooms: RoomMap, roomId: string, now: string): (r: RoomMap)
    ensures roomId in r
    ensures roomId in rooms ==> r == rooms
    ensures roomId !in rooms ==> r == rooms[roomId := FreshRoom(roomId, now)]
  {
    if roomId in rooms then rooms else rooms[roomId := FreshRoom(roomId, now)]
  }

  /** The events a handler sends to the other sockets of a room. */
  datatype Broadcast =
    | CodeUpdate(code: string)
    | LanguageUpdate(language: string)
    | ConsoleOutput(output: string)
    | UserJoined(userId: string, userCount: nat)

  datatype HandlerOutcome = HandlerOutcome(rooms: RoomMap, broadcast: Option<Broadcast>)

  // ---------------------------------------------------------------------
  // REST handlers
  // ---------------------------------------------------------------------

  /** `POST /api/rooms`: a fresh room under a new uuid, which is returned. */
  function PostRoomStep(rooms: RoomMap, roomId: string, now: string): RoomMap
  {
    rooms[roomId := FreshRoom(roomId, now)]
  }

  datatype RoomResponse = RoomResponse(exists_: bool, room: LegacyRoom)

  /** `GET /api/rooms/:roomId`: an unknown id is created first, so the
      answer always says the room exists. */
  function GetRoomStep(rooms: RoomMap, roomId: string, now: string): (RoomMap, RoomResponse)
  {
    var rooms' := EnsureRoom(rooms, roomId, now);
    (rooms', RoomResponse(true, rooms'[roomId]))
  }

  // ---------------------------------------------------------------------
  // Socket handlers
  // ---------------------------------------------------------------------

  /** The `room-state` event the joining socket receives. */
  datatype RoomState = RoomState(code: string, language: string, userCount: nat)

  datatype JoinOutcome = JoinOutcome(rooms: RoomMap, toJoiner: RoomState, toOthers: Broadcast)

  /** `join-room`: create the room when missing, append the socket id to its
      users (also when it is already there), and report the new length. */
  function JoinStep(rooms: RoomMap, roomId: string, socketId: string, now: string): JoinOutcome
  {
    var room := EnsureRoom(rooms, roomId, now)[roomId];
    var joined := room.(users := room.users + [socketId]);
    JoinOutcome(EnsureRoom(rooms, roomId, now)[roomId := joined],
                RoomState(joined.code, joined.language, |joined.users|),
                UserJoined(socketId, |joined.users|))
  }

  /** `code-change`: only for a known room. */
  function CodeChangeStep(rooms: RoomMap, roomId: string, code: string): HandlerOutcome
  {
    if roomId in rooms then HandlerOutcome(rooms[roomId := rooms[roomId].(code := code)], Some(CodeUpdate(code)))
    else HandlerOutcome(rooms, None)
  }

  /** `language-change`: only for a known room; the name is not checked. */
  function LanguageChangeStep(rooms: RoomMap, roomId: string, language: string): HandlerOutcome
  {
    if roomId in rooms then
      HandlerOutcome(rooms[roomId := rooms[roomId].(language := language)], Some(LanguageUpdate(language)))
    else HandlerOutcome(rooms, None)
  }

  /** `console-output`: relayed to the room, stored nowhere. */
  function ConsoleOutputStep(rooms: RoomMap, roomId: string, output: string): HandlerOutcome
  {
    HandlerOutcome(rooms, Some(ConsoleOutput(output)))
  }

  /** `users.splice(users.indexOf(x), 1)` when `x` occurs: the first
      occurrence is removed. */
  function RemoveFirst(users: seq<string>, x: string): (r: seq<string>)
    ensures x !in users ==> r == users
    ensures x in users ==> |r| == |users| - 1
  {
    var i := IndexOf(users, x);
    if i == -1 then users else users[..i] + users[i + 1..]
  }

  /** A room after the disconnect of `socketId`. */
  function WithoutSocket(room: LegacyRoom, socketId: string): LegacyRoom
  {
    room.(users := RemoveFirst(room.users, socketId))
  }

  /** `disconnect`: every room loses one occurrence of the socket id. */
  function DisconnectRooms(rooms: RoomMap, socketId: string): RoomMap
  {
    map k | k in rooms :: WithoutSocket(rooms[k], socketId)
  }

  /** The `user-left` counts `disconnect` reports: one per room that held
      the socket id, with that room's new number of users. */
  function DisconnectReports(rooms: RoomMap, socketId: string): map<string, nat>
  {
    map k | k in rooms && socketId in rooms[k].users :: |rooms[k].users| - 1
  }

  // ---------------------------------------------------------------------
  // Properties
  // ---------------------------------------------------------------------

  /** `POST /api/rooms` stores a room with empty code, "javascript" and no
      users under the new id and leaves every other room alone. */
  lemma PostRoomSpec(rooms: RoomMap, roomId: string, now: string)
    ensures var r := PostRoomStep(rooms, roomId, now);
      && roomId in r
      && r[roomId].code == "" && r[roomId].language == "javascript" && r[roomId].users == []
      && (forall k :: k in rooms && k != roomId ==> k in r && r[k] == rooms[k])
      && r.Keys == rooms.Keys + {roomId}
  {
  }

  /** `GET /api/rooms/:roomId` always answers "exists". An existing room is
      returned and nothing changes; a missing one is created with the
      defaults and returned. */
  lemma GetRoomSpec(rooms: RoomMap, roomId: string, now: string)
    ensures GetRoomStep(rooms, roomId, now).1.exists_
    ensures roomId in rooms ==> GetRoomStep(rooms, roomId, now) == (rooms, RoomResponse(true, rooms[roomId]))
    ensures roomId !in rooms ==>
      var (r, resp) := GetRoomStep(rooms, roomId, now);
      r == rooms[roomId := FreshRoom(roomId, now)] && resp.room == FreshRoom(roomId, now)
  {
  }

  /** `join-room` leaves the room present, appends exactly the socket id
      to its users (to an empty list for a new room), and reports the new
      length to the joiner and to the others. Other rooms are unchanged. */
  lemma JoinSpec(rooms: RoomMap, roomId: string, socketId: string, now: string)
    ensures var o := JoinStep(rooms, roomId, socketId, now);
      var before := if roomId in rooms then rooms[roomId].users else [];
      && roomId in o.rooms
      && o.rooms[roomId].users == before + [socketId]
      && o.toJoiner.userCount == |o.rooms[roomId].users| == |before| + 1
      && o.toOthers == UserJoined(socketId, |o.rooms[roomId].users|)
      && (roomId in rooms ==>
            o.rooms[roomId].code == rooms[roomId].code && o.rooms[roomId].language == rooms[roomId].language)
      && (roomId !in rooms ==> o.toJoiner == RoomState("", "javascript", 1))
      && (forall k :: k in rooms && k != roomId ==> k in o.rooms && o.rooms[k] == rooms[k])
      && o.rooms.Keys == rooms.Keys + {roomId}
  {
  }

  /** A socket that joins the same room twice is listed twice. */
  lemma JoinTwiceListedTwice(rooms: RoomMap, roomId: string, socketId: string, t1: string, t2: string)
    ensures var once := JoinStep(rooms, roomId, socketId, t1);
      var twice := JoinStep(once.rooms, roomId, socketId, t2);
      var before := if roomId in rooms then rooms[roomId].users else [];
      && twice.rooms[roomId].users == before + [socketId, socketId]
      && multiset(twice.rooms[roomId].users)[socketId] == multiset(before)[socketId] + 2
  {
    var once := JoinStep(rooms, roomId, socketId, t1);
    var before := if roomId in rooms then rooms[roomId].users else [];
    JoinSpec(rooms, roomId, socketId, t1);
    JoinSpec(once.rooms, roomId, socketId, t2);
    assert before + [socketId] + [socketId] == before + [socketId, socketId];
  }

  /** `code-change` and `language-change` set only the named field of the
      named room and are ignored, without broadcast, for an unknown room. */
  lemma ChangeSpec(rooms: RoomMap, roomId: string, text: string)
    ensures roomId !in rooms ==>
      CodeChangeStep(rooms, roomId, text) == HandlerOutcome(rooms, None) &&
      LanguageChangeStep(rooms, roomId, text) == HandlerOutcome(rooms, None)
    ensures roomId in rooms ==>
      var c := CodeChangeStep(rooms, roomId, text).rooms;
      var l := LanguageChangeStep(rooms, roomId, text).rooms;
      && c.Keys == rooms.Keys && l.Keys == rooms.Keys
      && c[roomId] == rooms[roomId].(code := text)
      && l[roomId] == rooms[roomId].(language := text)
      && (forall k :: k in rooms && k != roomId ==> c[k] == rooms[k] && l[k] == rooms[k])
  {
  }

  /** `console-output` changes no room and relays the output as given. */
  lemma ConsoleOutputChangesNothing(rooms: RoomMap, roomId: string, output: string)
    ensures ConsoleOutputStep(rooms, roomId, output).rooms == rooms
    ensures ConsoleOutputStep(rooms, roomId, output).broadcast == Some(ConsoleOutput(output))
  {
  }

  /** Removing the first occurrence takes exactly one copy out of the
      multiset of users, keeps the others in order, and is the identity
      when the id is absent. */
  lemma RemoveFirstSpec(users: seq<string>, x: string)
    ensures x in users ==> multiset(RemoveFirst(users, x)) == multiset(users) - multiset{x}
    ensures x !in users ==> multiset(RemoveFirst(users, x)) == multiset(users)
    ensures x in users ==>
      var i := IndexOf(users, x);
      RemoveFirst(users, x) == users[..i] + users[i + 1..] && x !in users[..i]
  {
    var i := IndexOf(users, x);
    if i != -1 {
      assert users == users[..i] + [x] + users[i + 1..];
      assert multiset(users) == multiset(users[..i]) + multiset{x} + multiset(users[i + 1..]);
    }
  }

  /** Appending a socket id that was absent and then removing its first
      occurrence restores the list. */
  lemma RemoveFirstAfterAppend(users: seq<string>, x: string)
    requires x !in users
    ensures RemoveFirst(users + [x], x) == users
  {
    assert IndexOf(users + [x], x) == |users| by {
      assert (users + [x])[..|users|] == users;
    }
  }

  /** `disconnect` deletes no room and adds none; it changes only the
      users of a room, and a room without the socket id not at all. */
  lemma DisconnectKeepsRooms(rooms: RoomMap, socketId: string)
    ensures DisconnectRooms(rooms, socketId).Keys == rooms.Keys
    ensures forall k :: k in rooms ==>
      var after := DisconnectRooms(rooms, socketId)[k];
      && after.id == rooms[k].id && after.code == rooms[k].code && after.language == rooms[k].language
      && (socketId !in rooms[k].users ==> after == rooms[k])
  {
  }

  /** Every room that held the socket id loses exactly one copy of it. */
  lemma DisconnectRemovesOne(rooms: RoomMap, socketId: string, k: string)
    requires k in rooms && socketId in rooms[k].users
    ensures multiset(DisconnectRooms(rooms, socketId)[k].users) == multiset(rooms[k].users) - multiset{socketId}
    ensures |DisconnectRooms(rooms, socketId)[k].users| == |rooms[k].users| - 1
  {
    RemoveFirstSpec(rooms[k].users, socketId);
  }

  /** A `user-left` count is reported exactly for the rooms that held the
      socket id, and it is that room's new number of users. */
  lemma DisconnectReportsSpec(rooms: RoomMap, socketId: string)
    ensures forall k :: k in DisconnectReports(rooms, socketId) <==> k in rooms && socketId in rooms[k].users
    ensures forall k :: k in DisconnectReports(rooms, socketId) ==>
      DisconnectReports(rooms, socketId)[k] == |DisconnectRooms(rooms, socketId)[k].users|
  {
  }

  /** The rooms part-way through the `disconnect` loop: those in `done`
      have lost the socket id, the others are as they were. */
  ghost function Partial(start: RoomMap, done: set<string>, socketId: string): RoomMap
  {
    map k | k in start :: if k in done then WithoutSocket(start[k], socketId) else start[k]
  }

  /** The reports part-way through the `disconnect` loop. */
  ghost function PartialReports(start: RoomMap, done: set<string>, socketId: string): map<string, nat>
  {
    map k | k in start && k in done && socketId in start[k].users :: |start[k].users| - 1
  }

  /** Before the loop nothing has changed. */
  lemma PartialStart(start: RoomMap, socketId: string)
    ensures Partial(start, {}, socketId) == start
    ensures PartialReports(start, {}, socketId) == map[]
  {
  }

  /** After the loop every room is done. */
  lemma PartialDone(start: RoomMap, done: set<string>, socketId: string)
    requires done == start.Keys
    ensures Partial(start, done, socketId) == DisconnectRooms(start, socketId)
    ensures PartialReports(start, done, socketId) == DisconnectReports(start, socketId)
  {
  }

  /** One turn of the `disconnect` loop, for room `k`. */
  lemma PartialStep(start: RoomMap, done: set<string>, socketId: string, k: string)
    requires k in start && k !in done
    ensures Partial(start, done + {k}, socketId) == Partial(start, done, socketId)[k := WithoutSocket(start[k], socketId)]
    ensures socketId in start[k].users ==>
      PartialReports(start, done + {k}, socketId)
        == PartialReports(start, done, socketId)[k := |start[k].users| - 1]
    ensures socketId !in start[k].users ==>
      PartialReports(start, done + {k}, socketId) == PartialReports(start, done, socketId)
  {
    var a := Partial(start, done + {k}, socketId);
    var b := Partial(start, done, socketId)[k := WithoutSocket(start[k], socketId)];
    assert a.Keys == b.Keys;
    forall j | j in a ensures a[j] == b[j] {
    }
  }

  /** A socket that was in no room, joins one and disconnects leaves every
      room's users as they were (the room it joined stays, possibly empty). */
  lemma JoinThenDisconnect(rooms: RoomMap, roomId: string, socketId: string, now: string)
    requires forall k :: k in rooms ==> socketId !in rooms[k].users
    ensures var joined := JoinStep(rooms, roomId, socketId, now).rooms;
      DisconnectRooms(joined, socketId) == EnsureRoom(rooms, roomId, now)
  {
    var ensured := EnsureRoom(rooms, roomId, now);
    assert forall k :: k in ensured ==> socketId !in ensured[k].users;
    DisconnectAfterAppend(ensured, roomId, socketId);
  }

  /** Disconnecting a socket that is in exactly one room, listed last there,
      undoes its append. */
  lemma DisconnectAfterAppend(m: RoomMap, roomId: string, socketId: string)
    requires roomId in m
    requires forall k :: k in m ==> socketId !in m[k].users
    ensures DisconnectRooms(m[roomId := m[roomId].(users := m[roomId].users + [socketId])], socketId) == m
  {
    var joined := m[roomId := m[roomId].(users := m[roomId].users + [socketId])];
    var after := DisconnectRooms(joined, socketId);
    forall k | k in m
      ensures after[k] == m[k]
    {
      if k == roomId {
        RemoveFirstAfterAppend(m[roomId].users, socketId);
      }
    }
  }

  // ---------------------------------------------------------------------
  // The server's `rooms` map, changed in place
  // ---------------------------------------------------------------------

  class LegacyRoomServer {
    var rooms: RoomMap

    constructor ()
      ensures rooms == map[]
    {
      rooms := map[];
    }

    method PostRoom(newUuid: string, now: string) returns (roomId: string)
      modifies this
      ensures roomId == newUuid
      ensures rooms == PostRoomStep(old(rooms), newUuid, now)
    {
      roomId := newUuid;
      rooms := rooms[roomId := LegacyRoom(roomId, "", "javascript", [], now)];
    }

    method GetRoom(roomId: string, now: string) returns (response: RoomResponse)
      modifies this
      ensures (rooms, response) == GetRoomStep(old(rooms), roomId, now)
    {
      if roomId !in rooms {
        rooms := rooms[roomId := LegacyRoom(roomId, "", "javascript", [], now)];
        return RoomResponse(true, rooms[roomId]);
      }
      response := RoomResponse(true, rooms[roomId]);
    }

    method JoinRoom(roomId: string, socketId: string, now: string) returns (state: RoomState, toOthers: Broadcast)
      modifies this
      ensures JoinOutcome(rooms, state, toOthers) == JoinStep(old(rooms), roomId, socketId, now)
    {
      if roomId !in rooms {
        rooms := rooms[roomId := LegacyRoom(roomId, "", "javascript", [], now)];
      }
      var room := rooms[roomId];
      room := room.(users := room.users + [socketId]);
      rooms := rooms[roomId := room];
      state := RoomState(room.code, room.language, |room.users|);
      toOthers := UserJoined(socketId, |room.users|);
    }

    method CodeChange(roomId: string, code: string) returns (broadcast: Option<Broadcast>)
      modifies this
      ensures HandlerOutcome(rooms, broadcast) == CodeChangeStep(old(rooms), roomId, code)
    {
      broadcast := None;
      if roomId in rooms {
        rooms := rooms[roomId := rooms[roomId].(code := code)];
        broadcast := Some(CodeUpdate(code));
      }
    }

    method LanguageChange(roomId: string, language: string) returns (broadcast: Option<Broadcast>)
      modifies this
      ensures HandlerOutcome(rooms, broadcast) == LanguageChangeStep(old(rooms), roomId, language)
    {
      broadcast := None;
      if roomId in rooms {
        rooms := rooms[roomId := rooms[roomId].(language := language)];
        broadcast := Some(LanguageUpdate(language));
      }
    }

    method ConsoleOutputRelay(roomId: string, output: string) returns (broadcast: Option<Broadcast>)
      ensures HandlerOutcome(rooms, broadcast) == ConsoleOutputStep(rooms, roomId, output)
    {
      broadcast := Some(ConsoleOutput(output));
    }

    /** The `rooms.forEach` callback of `disconnect` for one room: splice
        the socket id out if it is there, and report the new count. */
    method LeaveOnDisconnect(roomId: string, socketId: string) returns (count: Option<nat>)
      requires roomId in rooms
      modifies this
      ensures rooms == old(rooms)[roomId := WithoutSocket(old(rooms)[roomId], socketId)]
      ensures count == if socketId in old(rooms)[roomId].users then Some(|old(rooms)[roomId].users| - 1) else None
    {
      var room := rooms[roomId];
      var userIndex := IndexOf(room.users, socketId);
      count := None;
      if userIndex != -1 {
        room := room.(users := room.users[..userIndex] + room.users[userIndex + 1..]);
        rooms := rooms[roomId := room];
        count := Some(|room.users|);
      } else {
        assert rooms == rooms[roomId := WithoutSocket(rooms[roomId], socketId)];
      }
    }

    /** `disconnect`: one pass over the rooms, splicing the socket id out of
        each room that holds it and recording that room's new count. */
    method Disconnect(socketId: string) returns (reports: map<string, nat>)
      modifies this
      ensures rooms == DisconnectRooms(old(rooms), socketId)
      ensures reports == DisconnectReports(old(rooms), socketId)
    {
      ghost var start := rooms;
      var pending := rooms.Keys;
      ghost var done: set<string> := {};
      reports := map[];
      PartialStart(start, socketId);
      while pending != {}
        invariant pending + done == start.Keys && pending !! done
        invariant rooms == Partial(start, done, socketId)
        invariant reports == PartialReports(start, done, socketId)
        decreases pending
      {
        var roomId :| roomId in pending;
        ghost var next := done + {roomId};
        PartialStep(start, done, socketId, roomId);
        assert rooms[roomId] == start[roomId];
        var count := LeaveOnDisconnect(roomId, socketId);
        if count.Some? {
          reports := reports[roomId := count.value];
        }
        assert rooms == Partial(start, next, socketId);
        assert reports == PartialReports(start, next, socketId);
        pending := pending - {roomId};
        done := next;
      }
      assert done == start.Keys;
      PartialDone(start, done, socketId);
    }
  }
}
