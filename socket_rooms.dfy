/** The interview server's room registry and its socket event handlers:
    create, join, code update, language change, console append and clear,
    disconnect and explicit leave. Each handler is a pure step on the room
    map and the connection's current room and user (its specification), and
    a method of `SocketConnection` that performs it in place. Fresh uuids and
    the clock are parameters. */
module SocketRooms {
  import opened Common
  import opened Languages

  /** A version-4 uuid in its 36-character text form. */
  type Uuid = s: string | |s| == 36 witness "00000000-0000-0000-0000-000000000000"

  /** A clock reading. */
  type Instant = int

  datatype MessageType = Output | Error | Info | UserMessage

  datatype ConsoleMessage = ConsoleMessage(
    id: string,
    kind: MessageType,
    content: string,
    timestamp: Instant,
    author: Option<string>)

  /** A console message as a client sends it: no id, no timestamp. */
  datatype IncomingMessage = IncomingMessage(kind: MessageType, content: string, author: Option<string>)

  datatype Participant = Participant(
    id: string,
    name: string,
    isHost: bool,
    joinedAt: Instant,
    socketId: string)

  datatype Room = Room(
    id: string,
    title: string,
    code: string,
    language: Language,
    participants: seq<Participant>,
    consoleMessages: seq<ConsoleMessage>,
    createdAt: Instant)

  type Rooms = map<string, Room>

  /** One connection's view: its socket id and the room and user it last
      created or joined. */
  datatype ConnState = ConnState(socketId: string, currentRoomId: Option<string>, currentUserId: Option<string>)

  datatype After = After(rooms: Rooms, conn: ConnState)

  const DefaultTitle := "Interview Session"

  function InfoMessage(id: string, content: string, now: Instant): ConsoleMessage
  {
    ConsoleMessage(id, Info, content, now, None)
  }

  /** The room the connection currently points at, if it still exists. */
  predicate HasCurrentRoom(rooms: Rooms, conn: ConnState)
  {
    Truthy(conn.currentRoomId) && conn.currentRoomId.value in rooms
  }

  // ---------------------------------------------------------------------
  // The registry invariant
  // ---------------------------------------------------------------------

  /** At most one participant of a list is the host. */
  predicate AtMostOneHost(ps: seq<Participant>)
  {
    forall i, j :: 0 <= i < j < |ps| ==> !(ps[i].isHost && ps[j].isHost)
  }

  /** A well-formed room under key `k`: it carries its own 8-character id,
      has at least one participant, at most one host, a non-empty console
      and a catalogue language. */
  ghost predicate RoomOk(k: string, room: Room)
  {
    && room.id == k
    && |k| == 8
    && |room.participants| >= 1
    && AtMostOneHost(room.participants)
    && |room.consoleMessages| >= 1
    && room.language in Catalogue
  }

  /** Every room of the registry is well formed. */
  ghost predicate RegistryInvariant(rooms: Rooms)
  {
    forall k :: k in rooms ==> RoomOk(k, rooms[k])
  }

  /** Storing a well-formed room, or deleting one, keeps the invariant. */
  lemma StoreKeepsInvariant(rooms: Rooms, k: string, room: Room)
    requires RegistryInvariant(rooms) && RoomOk(k, room)
    ensures RegistryInvariant(rooms[k := room])
    ensures RegistryInvariant(rooms - {k})
  {
  }

  // ---------------------------------------------------------------------
  // Handlers as steps
  // ---------------------------------------------------------------------

  /** The id of the room `room:create` makes: the first 8 characters of a
      fresh uuid. */
  function NewRoomId(roomUuid: Uuid): (id: string)
    ensures |id| == 8 && id == roomUuid[..8]
  {
    roomUuid[..8]
  }

  /** `data.title || 'Interview Session'`. */
  function RoomTitle(title: Option<string>): (t: string)
    ensures t == DefaultTitle <==> !Truthy(title) || title.value == DefaultTitle
    ensures Truthy(title) ==> t == title.value
  {
    if Truthy(title) then title.value else DefaultTitle
  }

  /** `room:create`: a new room with the caller as its only participant and
      host, the default language and its starter code, and one "Machine
      Ready" message, stored under the new id (replacing a room already
      there); the connection now points at the room and the host. */
  function CreateStep(rooms: Rooms, conn: ConnState, hostName: string, title: Option<string>,
                      roomUuid: Uuid, userId: Uuid, messageId: Uuid, now: Instant): After
  {
    var roomId := NewRoomId(roomUuid);
    var lang := DefaultLanguage();
    var host := Participant(userId, hostName, true, now, conn.socketId);
    var room := Room(roomId, RoomTitle(title), lang.defaultCode, lang, [host],
                     [InfoMessage(messageId, "Machine Ready", now)], now);
    After(rooms[roomId := room], conn.(currentRoomId := Some(roomId), currentUserId := Some(userId)))
  }

  /** The callback value of `room:join`. */
  predicate JoinAccepted(rooms: Rooms, roomId: string)
  {
    roomId in rooms
  }

  /** `room:join`: an unknown id changes nothing; otherwise one non-host
      participant and one "<name> joined the session" message are appended
      and the connection points at that room and user. */
  function JoinStep(rooms: Rooms, conn: ConnState, roomId: string, userName: string,
                    userId: Uuid, messageId: Uuid, now: Instant): After
  {
    if roomId !in rooms then After(rooms, conn)
    else
      var room := rooms[roomId];
      var p := Participant(userId, userName, false, now, conn.socketId);
      var m := InfoMessage(messageId, userName + " joined the session", now);
      var room' := room.(participants := room.participants + [p],
                         consoleMessages := room.consoleMessages + [m]);
      After(rooms[roomId := room'], conn.(currentRoomId := Some(roomId), currentUserId := Some(userId)))
  }

  /** `code:update`: replace the current room's code. */
  function CodeUpdateStep(rooms: Rooms, conn: ConnState, code: string): Rooms
  {
    if !HasCurrentRoom(rooms, conn) then rooms
    else
      var id := conn.currentRoomId.value;
      rooms[id := rooms[id].(code := code)]
  }

  /** `language:change`: for a catalogue id, set the language, reset the
      code to its starter code and announce the change. */
  function LanguageChangeStep(rooms: Rooms, conn: ConnState, languageId: string,
                              messageId: Uuid, now: Instant): Rooms
  {
    if !HasCurrentRoom(rooms, conn) then rooms
    else
      var id := conn.currentRoomId.value;
      match GetLanguageById(languageId)
      case None => rooms
      case Some(lang) =>
        var room := rooms[id];
        var m := InfoMessage(messageId, "Language changed to " + lang.name, now);
        rooms[id := room.(language := lang, code := lang.defaultCode,
                          consoleMessages := room.consoleMessages + [m])]
  }

  /** `console:message`: append the message with a fresh id and time. */
  function ConsoleMessageStep(rooms: Rooms, conn: ConnState, msg: IncomingMessage,
                              messageId: Uuid, now: Instant): Rooms
  {
    if !HasCurrentRoom(rooms, conn) then rooms
    else
      var id := conn.currentRoomId.value;
      var m := ConsoleMessage(messageId, msg.kind, msg.content, now, msg.author);
      rooms[id := rooms[id].(consoleMessages := rooms[id].consoleMessages + [m])]
  }

  /** `console:clear`: the console becomes the one message "Console cleared". */
  function ConsoleClearStep(rooms: Rooms, conn: ConnState, messageId: Uuid, now: Instant): Rooms
  {
    if !HasCurrentRoom(rooms, conn) then rooms
    else
      var id := conn.currentRoomId.value;
      rooms[id := rooms[id].(consoleMessages := [InfoMessage(messageId, "Console cleared", now)])]
  }

  /** `participants.filter(p => p.id !== userId)`. */
  function WithoutUser(ps: seq<Participant>, userId: string): (r: seq<Participant>)
    ensures |r| <= |ps|
    ensures forall p :: p in r <==> p in ps && p.id != userId
    ensures (forall p :: p in ps ==> p.id != userId) ==> r == ps
  {
    if ps == [] then []
    else if ps[0].id == userId then WithoutUser(ps[1..], userId)
    else
      assert ps == [ps[0]] + ps[1..];
      [ps[0]] + WithoutUser(ps[1..], userId)
  }

  /** Removing a user from a concatenation removes it from each part: the
      participants kept stay in their order, duplicates included, so the
      removal is exactly `filter`. */
  lemma {:induction false} WithoutUserAppend(a: seq<Participant>, b: seq<Participant>, userId: string)
    ensures WithoutUser(a + b, userId) == WithoutUser(a, userId) + WithoutUser(b, userId)
  {
    if a == [] {
      assert a + b == b;
    } else {
      assert (a + b)[0] == a[0];
      assert (a + b)[1..] == a[1..] + b;
      WithoutUserAppend(a[1..], b, userId);
    }
  }

  /** One participant is kept exactly when it is someone else. */
  lemma WithoutUserSingleton(p: Participant, userId: string)
    ensures WithoutUser([p], userId) == if p.id == userId then [] else [p]
  {
    assert [p][1..] == [];
  }

  /** Removing a user keeps the remaining participants in their order, so a
      list with at most one host keeps that property. */
  lemma {:induction false} WithoutUserKeepsOneHost(ps: seq<Participant>, userId: string)
    requires AtMostOneHost(ps)
    ensures AtMostOneHost(WithoutUser(ps, userId))
  {
    if ps != [] {
      var tail := ps[1..];
      assert AtMostOneHost(tail) by {
        forall i, j | 0 <= i < j < |tail| ensures !(tail[i].isHost && tail[j].isHost) {
          assert tail[i] == ps[i + 1] && tail[j] == ps[j + 1];
        }
      }
      WithoutUserKeepsOneHost(tail, userId);
      if ps[0].id != userId {
        var r := [ps[0]] + WithoutUser(tail, userId);
        forall i, j | 0 <= i < j < |r| ensures !(r[i].isHost && r[j].isHost) {
          if i == 0 && ps[0].isHost {
            assert r[j] in WithoutUser(tail, userId);
            assert r[j] in tail;
            var k :| 0 <= k < |tail| && tail[k] == r[j];
            assert ps[k + 1] == r[j];
          }
        }
      }
    }
  }

  /** What disconnect and `room:leave` do to the room map: drop the current
      user's participant, and delete the room if nobody is left. */
  function RemoveCurrentUser(rooms: Rooms, conn: ConnState): Rooms
  {
    if Truthy(conn.currentRoomId) && Truthy(conn.currentUserId) && conn.currentRoomId.value in rooms then
      var id := conn.currentRoomId.value;
      var ps := WithoutUser(rooms[id].participants, conn.currentUserId.value);
      if |ps| == 0 then rooms - {id} else rooms[id := rooms[id].(participants := ps)]
    else rooms
  }

  /** `disconnect`: the connection goes away after the room map changes. */
  function DisconnectStep(rooms: Rooms, conn: ConnState): Rooms
  {
    RemoveCurrentUser(rooms, conn)
  }

  /** `room:leave`: like disconnect, and the connection forgets its room and
      user; it does nothing unless both are set. */
  function LeaveStep(rooms: Rooms, conn: ConnState): After
  {
    if Truthy(conn.currentRoomId) && Truthy(conn.currentUserId) then
      After(RemoveCurrentUser(rooms, conn), conn.(currentRoomId := None, currentUserId := None))
    else After(rooms, conn)
  }

  // ---------------------------------------------------------------------
  // Properties of the steps
  // ---------------------------------------------------------------------

  /** `room:create` registers, under an 8-character id, a room whose only
      participant is the host, whose code is the default language's starter
      code and whose console holds only "Machine Ready"; an absent or empty
      title becomes "Interview Session". Every other room is kept. */
  lemma CreateSpec(rooms: Rooms, conn: ConnState, hostName: string, title: Option<string>,
                   roomUuid: Uuid, userId: Uuid, messageId: Uuid, now: Instant)
    ensures var a := CreateStep(rooms, conn, hostName, title, roomUuid, userId, messageId, now);
      var id := NewRoomId(roomUuid);
      && |id| == 8
      && id in a.rooms
      && |a.rooms[id].participants| == 1
      && a.rooms[id].participants[0].isHost
      && a.rooms[id].participants[0].id == userId
      && a.rooms[id].participants[0].name == hostName
      && a.rooms[id].language == JavaScript
      && a.rooms[id].code == DefaultLanguage().defaultCode
      && |a.rooms[id].consoleMessages| == 1
      && a.rooms[id].consoleMessages[0].content == "Machine Ready"
      && (!Truthy(title) ==> a.rooms[id].title == "Interview Session")
      && a.rooms.Keys == rooms.Keys + {id}
      && (forall k :: k in rooms && k != id ==> a.rooms[k] == rooms[k])
      && a.conn.currentRoomId == Some(id) && a.conn.currentUserId == Some(userId)
  {
  }

  /** `room:join` of an unknown id is refused and changes nothing. */
  lemma JoinUnknownRefused(rooms: Rooms, conn: ConnState, roomId: string, userName: string,
                           userId: Uuid, messageId: Uuid, now: Instant)
    requires roomId !in rooms
    ensures !JoinAccepted(rooms, roomId)
    ensures JoinStep(rooms, conn, roomId, userName, userId, messageId, now) == After(rooms, conn)
  {
  }

  /** `room:join` of a known id is accepted and appends exactly one
      non-host participant and one "<name> joined the session" message,
      keeping the earlier entries in order and every other room field. */
  lemma JoinKnownAppends(rooms: Rooms, conn: ConnState, roomId: string, userName: string,
                         userId: Uuid, messageId: Uuid, now: Instant)
    requires roomId in rooms
    ensures JoinAccepted(rooms, roomId)
    ensures var a := JoinStep(rooms, conn, roomId, userName, userId, messageId, now);
      var old_ := rooms[roomId];
      && roomId in a.rooms && a.rooms.Keys == rooms.Keys
      && var r := a.rooms[roomId];
         && |r.participants| == |old_.participants| + 1
         && r.participants[..|old_.participants|] == old_.participants
         && !r.participants[|old_.participants|].isHost
         && r.participants[|old_.participants|].name == userName
         && |r.consoleMessages| == |old_.consoleMessages| + 1
         && r.consoleMessages[..|old_.consoleMessages|] == old_.consoleMessages
         && r.consoleMessages[|old_.consoleMessages|].content == userName + " joined the session"
         && r.code == old_.code && r.language == old_.language && r.title == old_.title
         && (forall k :: k in rooms && k != roomId ==> a.rooms[k] == rooms[k])
         && a.conn.currentRoomId == Some(roomId) && a.conn.currentUserId == Some(userId)
  {
    var old_ := rooms[roomId];
    var r := JoinStep(rooms, conn, roomId, userName, userId, messageId, now).rooms[roomId];
    assert r.participants[..|old_.participants|] == old_.participants;
    assert r.consoleMessages[..|old_.consoleMessages|] == old_.consoleMessages;
  }

  /** Without a current room that still exists, the room-editing events do
      nothing. */
  lemma NoCurrentRoomIgnored(rooms: Rooms, conn: ConnState, code: string, languageId: string,
                             msg: IncomingMessage, messageId: Uuid, now: Instant)
    requires !Truthy(conn.currentRoomId) || conn.currentRoomId.value !in rooms
    ensures CodeUpdateStep(rooms, conn, code) == rooms
    ensures LanguageChangeStep(rooms, conn, languageId, messageId, now) == rooms
    ensures ConsoleMessageStep(rooms, conn, msg, messageId, now) == rooms
    ensures ConsoleClearStep(rooms, conn, messageId, now) == rooms
  {
  }

  /** `code:update` replaces only the current room's code. */
  lemma CodeUpdateSpec(rooms: Rooms, conn: ConnState, code: string)
    requires HasCurrentRoom(rooms, conn)
    ensures var id := conn.currentRoomId.value;
      var r := CodeUpdateStep(rooms, conn, code);
      r.Keys == rooms.Keys && r[id] == rooms[id].(code := code)
      && forall k :: k in rooms && k != id ==> r[k] == rooms[k]
  {
  }

  /** `language:change` ignores an id outside the catalogue; otherwise it
      sets that language, resets the code to its starter code and appends
      "Language changed to <name>". */
  lemma LanguageChangeSpec(rooms: Rooms, conn: ConnState, languageId: string, messageId: Uuid, now: Instant)
    requires HasCurrentRoom(rooms, conn)
    ensures languageId !in Ids(Catalogue) ==>
      LanguageChangeStep(rooms, conn, languageId, messageId, now) == rooms
    ensures forall l :: l in Catalogue && l.id == languageId ==>
      var id := conn.currentRoomId.value;
      var r := LanguageChangeStep(rooms, conn, languageId, messageId, now);
      && r.Keys == rooms.Keys
      && r[id].language == l && r[id].code == l.defaultCode
      && r[id].consoleMessages == rooms[id].consoleMessages + [InfoMessage(messageId, "Language changed to " + l.name, now)]
      && r[id].participants == rooms[id].participants
      && r[id] == rooms[id].(language := l, code := l.defaultCode,
           consoleMessages := rooms[id].consoleMessages + [InfoMessage(messageId, "Language changed to " + l.name, now)])
      && (forall k :: k in rooms && k != id ==> r[k] == rooms[k])
  {
    GetLanguageByIdSpec(languageId);
  }

  /** `console:message` appends exactly one message at the end;
      `console:clear` leaves exactly the one "Console cleared" message.
      Either way every other field and every other room is kept. */
  lemma ConsoleSpec(rooms: Rooms, conn: ConnState, msg: IncomingMessage, messageId: Uuid, now: Instant)
    requires HasCurrentRoom(rooms, conn)
    ensures var id := conn.currentRoomId.value;
      var r := ConsoleMessageStep(rooms, conn, msg, messageId, now);
      && r.Keys == rooms.Keys
      && r[id].consoleMessages == rooms[id].consoleMessages + [ConsoleMessage(messageId, msg.kind, msg.content, now, msg.author)]
      && r[id].participants == rooms[id].participants && r[id].code == rooms[id].code
      && r[id] == rooms[id].(consoleMessages := rooms[id].consoleMessages + [ConsoleMessage(messageId, msg.kind, msg.content, now, msg.author)])
      && (forall k :: k in rooms && k != id ==> r[k] == rooms[k])
    ensures var id := conn.currentRoomId.value;
      var r := ConsoleClearStep(rooms, conn, messageId, now);
      && r.Keys == rooms.Keys
      && |r[id].consoleMessages| == 1
      && r[id].consoleMessages[0].content == "Console cleared"
      && r[id].consoleMessages[0].kind == Info
      && r[id] == rooms[id].(consoleMessages := [InfoMessage(messageId, "Console cleared", now)])
      && (forall k :: k in rooms && k != id ==> r[k] == rooms[k])
  {
  }

  /** Disconnect (and leave) removes exactly the current user's
      participants from the current room, and deletes the room exactly when
      nobody is left; every other room is kept. */
  lemma RemoveCurrentUserSpec(rooms: Rooms, conn: ConnState)
    requires Truthy(conn.currentRoomId) && Truthy(conn.currentUserId)
    requires conn.currentRoomId.value in rooms
    ensures var id := conn.currentRoomId.value;
      var user := conn.currentUserId.value;
      var r := RemoveCurrentUser(rooms, conn);
      var left := WithoutUser(rooms[id].participants, user);
      && (id in r <==> |left| > 0)
      && (id in r ==> r[id] == rooms[id].(participants := left))
      && (forall p :: p in left <==> p in rooms[id].participants && p.id != user)
      && r.Keys - {id} == rooms.Keys - {id}
      && (forall k :: k in rooms && k != id ==> r[k] == rooms[k])
  {
  }

  /** `room:leave` resets the connection's room and user; a later
      disconnect then changes nothing. */
  lemma LeaveResetsConnection(rooms: Rooms, conn: ConnState)
    requires Truthy(conn.currentRoomId) && Truthy(conn.currentUserId)
    ensures var a := LeaveStep(rooms, conn);
      && a.conn.currentRoomId.None? && a.conn.currentUserId.None?
      && a.rooms == RemoveCurrentUser(rooms, conn)
      && DisconnectStep(a.rooms, a.conn) == a.rooms
  {
  }

  /** Joining another room without leaving first reassigns the connection
      but leaves the earlier room, and the participant entry there,
      untouched. */
  lemma RejoinKeepsEarlierEntry(rooms: Rooms, conn: ConnState, roomId: string, userName: string,
                                userId: Uuid, messageId: Uuid, now: Instant)
    requires HasCurrentRoom(rooms, conn)
    requires roomId in rooms && roomId != conn.currentRoomId.value
    ensures var earlier := conn.currentRoomId.value;
      var a := JoinStep(rooms, conn, roomId, userName, userId, messageId, now);
      && earlier in a.rooms && a.rooms[earlier] == rooms[earlier]
      && a.conn.currentRoomId == Some(roomId) && a.conn.currentUserId == Some(userId)
  {
  }

  /** Creating a room while in another keeps the earlier room, unless the new
      id collides with it, in which case `rooms.set` replaces it. */
  lemma RecreateKeepsEarlierEntry(rooms: Rooms, conn: ConnState, hostName: string, title: Option<string>,
                                  roomUuid: Uuid, userId: Uuid, messageId: Uuid, now: Instant)
    requires HasCurrentRoom(rooms, conn)
    ensures var earlier := conn.currentRoomId.value;
      var a := CreateStep(rooms, conn, hostName, title, roomUuid, userId, messageId, now);
      && (NewRoomId(roomUuid) != earlier ==> a.rooms[earlier] == rooms[earlier])
      && (NewRoomId(roomUuid) == earlier ==> a.rooms[earlier].participants == [Participant(userId, hostName, true, now, conn.socketId)])
  {
  }

  /** Every handler keeps the registry invariant. */
  lemma CreateKeepsInvariant(rooms: Rooms, conn: ConnState, hostName: string, title: Option<string>,
                             roomUuid: Uuid, userId: Uuid, messageId: Uuid, now: Instant)
    requires RegistryInvariant(rooms)
    ensures RegistryInvariant(CreateStep(rooms, conn, hostName, title, roomUuid, userId, messageId, now).rooms)
  {
    var a := CreateStep(rooms, conn, hostName, title, roomUuid, userId, messageId, now);
    var id := NewRoomId(roomUuid);
    assert DefaultLanguage() in Catalogue;
    StoreKeepsInvariant(rooms, id, a.rooms[id]);
  }

  lemma JoinKeepsInvariant(rooms: Rooms, conn: ConnState, roomId: string, userName: string,
                           userId: Uuid, messageId: Uuid, now: Instant)
    requires RegistryInvariant(rooms)
    ensures RegistryInvariant(JoinStep(rooms, conn, roomId, userName, userId, messageId, now).rooms)
  {
    if roomId in rooms {
      var a := JoinStep(rooms, conn, roomId, userName, userId, messageId, now);
      var ps := rooms[roomId].participants;
      var qs := a.rooms[roomId].participants;
      assert RoomOk(roomId, rooms[roomId]);
      forall i, j | 0 <= i < j < |qs| ensures !(qs[i].isHost && qs[j].isHost) {
        if j < |ps| {
          assert qs[i] == ps[i] && qs[j] == ps[j];
        }
      }
      StoreKeepsInvariant(rooms, roomId, a.rooms[roomId]);
    }
  }

  lemma CodeUpdateKeepsInvariant(rooms: Rooms, conn: ConnState, code: string)
    requires RegistryInvariant(rooms)
    ensures RegistryInvariant(CodeUpdateStep(rooms, conn, code))
  {
    if HasCurrentRoom(rooms, conn) {
      var id := conn.currentRoomId.value;
      assert RoomOk(id, rooms[id]);
      StoreKeepsInvariant(rooms, id, CodeUpdateStep(rooms, conn, code)[id]);
    }
  }

  lemma LanguageChangeKeepsInvariant(rooms: Rooms, conn: ConnState, languageId: string,
                                     messageId: Uuid, now: Instant)
    requires RegistryInvariant(rooms)
    ensures RegistryInvariant(LanguageChangeStep(rooms, conn, languageId, messageId, now))
  {
    if HasCurrentRoom(rooms, conn) && GetLanguageById(languageId).Some? {
      var id := conn.currentRoomId.value;
      assert RoomOk(id, rooms[id]);
      StoreKeepsInvariant(rooms, id, LanguageChangeStep(rooms, conn, languageId, messageId, now)[id]);
    }
  }

  lemma ConsoleMessageKeepsInvariant(rooms: Rooms, conn: ConnState, msg: IncomingMessage,
                                     messageId: Uuid, now: Instant)
    requires RegistryInvariant(rooms)
    ensures RegistryInvariant(ConsoleMessageStep(rooms, conn, msg, messageId, now))
  {
    if HasCurrentRoom(rooms, conn) {
      var id := conn.currentRoomId.value;
      assert RoomOk(id, rooms[id]);
      StoreKeepsInvariant(rooms, id, ConsoleMessageStep(rooms, conn, msg, messageId, now)[id]);
    }
  }

  lemma ConsoleClearKeepsInvariant(rooms: Rooms, conn: ConnState, messageId: Uuid, now: Instant)
    requires RegistryInvariant(rooms)
    ensures RegistryInvariant(ConsoleClearStep(rooms, conn, messageId, now))
  {
    if HasCurrentRoom(rooms, conn) {
      var id := conn.currentRoomId.value;
      assert RoomOk(id, rooms[id]);
      StoreKeepsInvariant(rooms, id, ConsoleClearStep(rooms, conn, messageId, now)[id]);
    }
  }

  lemma LeaveKeepsInvariant(rooms: Rooms, conn: ConnState)
    requires RegistryInvariant(rooms)
    ensures RegistryInvariant(DisconnectStep(rooms, conn))
    ensures RegistryInvariant(LeaveStep(rooms, conn).rooms)
  {
    if Truthy(conn.currentRoomId) && Truthy(conn.currentUserId) && conn.currentRoomId.value in rooms {
      var id := conn.currentRoomId.value;
      var ps := WithoutUser(rooms[id].participants, conn.currentUserId.value);
      assert RoomOk(id, rooms[id]);
      WithoutUserKeepsOneHost(rooms[id].participants, conn.currentUserId.value);
      StoreKeepsInvariant(rooms, id, rooms[id].(participants := if |ps| == 0 then rooms[id].participants else ps));
    }
  }

  // ---------------------------------------------------------------------
  // The registry and a connection, changed in place
  // ---------------------------------------------------------------------

  /** The module-level `rooms` map, shared by every connection. */
  class RoomRegistry {
    var rooms: Rooms

    constructor ()
      ensures rooms == map[]
    {
      rooms := map[];
    }
  }

  /** One socket connection: its handlers close over `currentRoomId` and
      `currentUserId`. */
  class SocketConnection {
    const socketId: string
    const registry: RoomRegistry
    var currentRoomId: Option<string>
    var currentUserId: Option<string>

    function Conn(): ConnState
      reads this
    {
      ConnState(socketId, currentRoomId, currentUserId)
    }

    constructor (socketId: string, registry: RoomRegistry)
      ensures this.socketId == socketId && this.registry == registry
      ensures currentRoomId.None? && currentUserId.None?
    {
      this.socketId := socketId;
      this.registry := registry;
      currentRoomId := None;
      currentUserId := None;
    }

    method RoomCreate(hostName: string, title: Option<string>, roomUuid: Uuid, userId: Uuid,
                      messageId: Uuid, now: Instant) returns (roomId: string)
      requires RegistryInvariant(registry.rooms)
      modifies this, registry
      ensures roomId == NewRoomId(roomUuid)
      ensures After(registry.rooms, Conn())
           == CreateStep(old(registry.rooms), old(Conn()), hostName, title, roomUuid, userId, messageId, now)
      ensures RegistryInvariant(registry.rooms)
    {
      CreateKeepsInvariant(registry.rooms, Conn(), hostName, title, roomUuid, userId, messageId, now);
      roomId := roomUuid[..8];
      var lang := DefaultLanguage();
      var host := Participant(userId, hostName, true, now, socketId);
      var newRoom := Room(roomId, if Truthy(title) then title.value else DefaultTitle,
                          lang.defaultCode, lang, [host],
                          [ConsoleMessage(messageId, Info, "Machine Ready", now, None)], now);
      registry.rooms := registry.rooms[roomId := newRoom];
      currentRoomId := Some(roomId);
      currentUserId := Some(userId);
    }

    method RoomJoin(roomId: string, userName: string, userId: Uuid, messageId: Uuid, now: Instant)
      returns (accepted: bool)
      requires RegistryInvariant(registry.rooms)
      modifies this, registry
      ensures accepted == JoinAccepted(old(registry.rooms), roomId)
      ensures After(registry.rooms, Conn())
           == JoinStep(old(registry.rooms), old(Conn()), roomId, userName, userId, messageId, now)
      ensures RegistryInvariant(registry.rooms)
    {
      JoinKeepsInvariant(registry.rooms, Conn(), roomId, userName, userId, messageId, now);
      if roomId !in registry.rooms {
        return false;
      }
      var room := registry.rooms[roomId];
      var participant := Participant(userId, userName, false, now, socketId);
      room := room.(participants := room.participants + [participant]);
      room := room.(consoleMessages := room.consoleMessages
                                       + [ConsoleMessage(messageId, Info, userName + " joined the session", now, None)]);
      registry.rooms := registry.rooms[roomId := room];
      currentRoomId := Some(roomId);
      currentUserId := Some(userId);
      accepted := true;
    }

    method CodeUpdate(code: string)
      requires RegistryInvariant(registry.rooms)
      modifies registry
      ensures registry.rooms == CodeUpdateStep(old(registry.rooms), Conn(), code)
      ensures RegistryInvariant(registry.rooms)
    {
      CodeUpdateKeepsInvariant(registry.rooms, Conn(), code);
      if !Truthy(currentRoomId) || currentRoomId.value !in registry.rooms {
        return;
      }
      var room := registry.rooms[currentRoomId.value];
      registry.rooms := registry.rooms[currentRoomId.value := room.(code := code)];
    }

    method LanguageChange(languageId: string, messageId: Uuid, now: Instant)
      requires RegistryInvariant(registry.rooms)
      modifies registry
      ensures registry.rooms == LanguageChangeStep(old(registry.rooms), Conn(), languageId, messageId, now)
      ensures RegistryInvariant(registry.rooms)
    {
      LanguageChangeKeepsInvariant(registry.rooms, Conn(), languageId, messageId, now);
      if !Truthy(currentRoomId) || currentRoomId.value !in registry.rooms {
        return;
      }
      var room := registry.rooms[currentRoomId.value];
      var newLang := GetLanguageById(languageId);
      if newLang.None? {
        return;
      }
      room := room.(language := newLang.value);
      room := room.(code := newLang.value.defaultCode);
      room := room.(consoleMessages := room.consoleMessages
                                       + [ConsoleMessage(messageId, Info, "Language changed to " + newLang.value.name, now, None)]);
      registry.rooms := registry.rooms[currentRoomId.value := room];
    }

    method ConsoleAppend(msg: IncomingMessage, messageId: Uuid, now: Instant)
      requires RegistryInvariant(registry.rooms)
      modifies registry
      ensures registry.rooms == ConsoleMessageStep(old(registry.rooms), Conn(), msg, messageId, now)
      ensures RegistryInvariant(registry.rooms)
    {
      ConsoleMessageKeepsInvariant(registry.rooms, Conn(), msg, messageId, now);
      if !Truthy(currentRoomId) || currentRoomId.value !in registry.rooms {
        return;
      }
      var room := registry.rooms[currentRoomId.value];
      var m := ConsoleMessage(messageId, msg.kind, msg.content, now, msg.author);
      registry.rooms := registry.rooms[currentRoomId.value := room.(consoleMessages := room.consoleMessages + [m])];
    }

    method ConsoleClear(messageId: Uuid, now: Instant)
      requires RegistryInvariant(registry.rooms)
      modifies registry
      ensures registry.rooms == ConsoleClearStep(old(registry.rooms), Conn(), messageId, now)
      ensures RegistryInvariant(registry.rooms)
    {
      ConsoleClearKeepsInvariant(registry.rooms, Conn(), messageId, now);
      if !Truthy(currentRoomId) || currentRoomId.value !in registry.rooms {
        return;
      }
      var room := registry.rooms[currentRoomId.value];
      room := room.(consoleMessages := [ConsoleMessage(messageId, Info, "Console cleared", now, None)]);
      registry.rooms := registry.rooms[currentRoomId.value := room];
    }

    /** Drop the current user from the current room, deleting the room if
        it becomes empty. */
    method RemoveUser()
      requires RegistryInvariant(registry.rooms)
      modifies registry
      ensures registry.rooms == RemoveCurrentUser(old(registry.rooms), Conn())
      ensures RegistryInvariant(registry.rooms)
    {
      LeaveKeepsInvariant(registry.rooms, Conn());
      if Truthy(currentRoomId) && Truthy(currentUserId) && currentRoomId.value in registry.rooms {
        var id := currentRoomId.value;
        var room := registry.rooms[id];
        room := room.(participants := WithoutUser(room.participants, currentUserId.value));
        if |room.participants| == 0 {
          registry.rooms := registry.rooms - {id};
        } else {
          registry.rooms := registry.rooms[id := room];
        }
      }
    }

    method Disconnect()
      requires RegistryInvariant(registry.rooms)
      modifies registry
      ensures registry.rooms == DisconnectStep(old(registry.rooms), Conn())
      ensures RegistryInvariant(registry.rooms)
    {
      LeaveKeepsInvariant(registry.rooms, Conn());
      RemoveUser();
    }

    method RoomLeave()
      requires RegistryInvariant(registry.rooms)
      modifies this, registry
      ensures After(registry.rooms, Conn()) == LeaveStep(old(registry.rooms), old(Conn()))
      ensures RegistryInvariant(registry.rooms)
    {
      LeaveKeepsInvariant(registry.rooms, Conn());
      if Truthy(currentRoomId) && Truthy(currentUserId) {
        RemoveUser();
        currentRoomId := None;
        currentUserId := None;
      }
    }
  }
}
