/** The in-browser simulation of an interview room: a module-level map of
    rooms shared by every hook instance, and one hook instance's state (its
    room snapshot, current user, connection and loading flags) with the
    operations create, join, update code, update language, add a console
    message, clear the console and leave. Every operation except join works
    from the hook's own snapshot of the room, not from the shared map. The
    language table the hook imports is not part of this model: its default
    entry and its lookup are parameters of the hook. */
module InterviewHook {
  import opened Common
  import opened Languages
  import opened SocketRooms

  /** A participant as the hook records it (there is no socket). */
  datatype Member = Member(id: string, name: string, isHost: bool, joinedAt: Instant)

  datatype SessionRoom = SessionRoom(
    id: string,
    title: string,
    code: string,
    language: Language,
    participants: seq<Member>,
    consoleMessages: seq<ConsoleMessage>,
    createdAt: Instant)

  type SharedMap = map<string, SessionRoom>

  /** One hook instance's React state. */
  datatype HookState = HookState(
    room: Option<SessionRoom>,
    currentUser: Option<Member>,
    isConnected: bool,
    isLoading: bool)

  const InitialState := HookState(None, None, false, true)

  datatype Effect = Effect(rooms: SharedMap, state: HookState)

  /** `checkRoomExists(roomId)`: membership in the shared map. */
  predicate CheckRoomExists(rooms: SharedMap, roomId: string)
  {
    roomId in rooms
  }

  // ---------------------------------------------------------------------
  // Operations as steps
  // ---------------------------------------------------------------------

  /** `createRoom(hostName, title = 'Interview Session')`: only an omitted
      title takes the default; an empty one is kept. */
  function CreateRoomStep(rooms: SharedMap, defaultLanguage: Language, hostName: string,
                          title: Option<string>, roomUuid: Uuid, hostId: Uuid,
                          messageId: Uuid, now: Instant): Effect
  {
    var roomId := NewRoomId(roomUuid);
    var host := Member(hostId, hostName, true, now);
    var room := SessionRoom(roomId, if title.Some? then title.value else DefaultTitle,
                            defaultLanguage.defaultCode, defaultLanguage, [host],
                            [InfoMessage(messageId, "Machine Ready", now)], now);
    Effect(rooms[roomId := room], HookState(Some(room), Some(host), true, false))
  }

  /** `joinRoom(roomId, userName)`: an unknown id only ends loading; a known
      room gains one non-host participant and one "<name> joined the
      session" message, in the shared map and in the snapshot. */
  function JoinRoomStep(rooms: SharedMap, st: HookState, roomId: string, userName: string,
                        userId: Uuid, messageId: Uuid, now: Instant): Effect
  {
    if roomId !in rooms then Effect(rooms, st.(isLoading := false))
    else
      var existing := rooms[roomId];
      var p := Member(userId, userName, false, now);
      var joined := existing.(participants := existing.participants + [p],
                              consoleMessages := existing.consoleMessages
                                + [InfoMessage(messageId, userName + " joined the session", now)]);
      Effect(rooms[roomId := joined], HookState(Some(joined), Some(p), true, false))
  }

  /** Store `updated` under the snapshot's id, in the map and as the new
      snapshot. */
  function Publish(rooms: SharedMap, st: HookState, updated: SessionRoom): Effect
  {
    Effect(rooms[updated.id := updated], st.(room := Some(updated)))
  }

  /** `updateCode(newCode)`. */
  function UpdateCodeStep(rooms: SharedMap, st: HookState, code: string): Effect
  {
    if st.room.None? then Effect(rooms, st)
    else Publish(rooms, st, st.room.value.(code := code))
  }

  /** `addConsoleMessage` as run from the closure that captured `snapshot`. */
  function AddMessageFrom(rooms: SharedMap, st: HookState, snapshot: Option<SessionRoom>,
                          kind: MessageType, content: string, author: Option<string>,
                          messageId: Uuid, now: Instant): Effect
  {
    if snapshot.None? then Effect(rooms, st)
    else
      var m := ConsoleMessage(messageId, kind, content, now, author);
      Publish(rooms, st, snapshot.value.(consoleMessages := snapshot.value.consoleMessages + [m]))
  }

  /** `addConsoleMessage(type, content, author)`. */
  function AddConsoleMessageStep(rooms: SharedMap, st: HookState, kind: MessageType, content: string,
                                 author: Option<string>, messageId: Uuid, now: Instant): Effect
  {
    AddMessageFrom(rooms, st, st.room, kind, content, author, messageId, now)
  }

  /** `updateLanguage(languageId)` as written: it publishes the room with
      the new language and code, then calls `addConsoleMessage`, which
      rebuilds from the same pre-update snapshot and publishes again. */
  function UpdateLanguageStep(rooms: SharedMap, st: HookState, lookup: string -> Option<Language>,
                              languageId: string, messageId: Uuid, now: Instant): Effect
  {
    if st.room.None? then Effect(rooms, st)
    else
      match lookup(languageId)
      case None => Effect(rooms, st)
      case Some(lang) =>
        var snapshot := st.room;
        var first := Publish(rooms, st, snapshot.value.(language := lang, code := lang.defaultCode));
        AddMessageFrom(first.rooms, first.state, snapshot, Info,
                       "Language changed to " + lang.name, None, messageId, now)
  }

  /** `updateLanguage` as intended: new language, its starter code and the
      announcement, all in one published room. */
  function UpdateLanguageIntended(rooms: SharedMap, st: HookState, lookup: string -> Option<Language>,
                                  languageId: string, messageId: Uuid, now: Instant): Effect
  {
    if st.room.None? then Effect(rooms, st)
    else
      match lookup(languageId)
      case None => Effect(rooms, st)
      case Some(lang) =>
        var r := st.room.value;
        var m := InfoMessage(messageId, "Language changed to " + lang.name, now);
        Publish(rooms, st, r.(language := lang, code := lang.defaultCode,
                              consoleMessages := r.consoleMessages + [m]))
  }

  /** `clearConsole()`. */
  function ClearConsoleStep(rooms: SharedMap, st: HookState, messageId: Uuid, now: Instant): Effect
  {
    if st.room.None? then Effect(rooms, st)
    else Publish(rooms, st, st.room.value.(consoleMessages := [InfoMessage(messageId, "Console cleared", now)]))
  }

  /** `participants.filter(p => p.id !== userId)`. */
  function MembersWithout(ps: seq<Member>, userId: string): (r: seq<Member>)
    ensures |r| <= |ps|
    ensures forall p :: p in r <==> p in ps && p.id != userId
  {
    if ps == [] then []
    else if ps[0].id == userId then MembersWithout(ps[1..], userId)
    else
      assert ps == [ps[0]] + ps[1..];
      [ps[0]] + MembersWithout(ps[1..], userId)
  }

  /** Removing a user from a concatenation removes it from each part: the
      members kept stay in their order, duplicates included, so the removal
      is exactly `filter`. */
  lemma {:induction false} MembersWithoutAppend(a: seq<Member>, b: seq<Member>, userId: string)
    ensures MembersWithout(a + b, userId) == MembersWithout(a, userId) + MembersWithout(b, userId)
  {
    if a == [] {
      assert a + b == b;
    } else {
      assert (a + b)[0] == a[0];
      assert (a + b)[1..] == a[1..] + b;
      MembersWithoutAppend(a[1..], b, userId);
    }
  }

  /** One member is kept exactly when it is someone else. */
  lemma MembersWithoutSingleton(p: Member, userId: string)
    ensures MembersWithout([p], userId) == if p.id == userId then [] else [p]
  {
    assert [p][1..] == [];
  }

  /** `leaveRoom()`: drop the current user from the snapshot's participants,
      delete the room if nobody is left, and disconnect the hook. */
  function LeaveRoomStep(rooms: SharedMap, st: HookState): Effect
  {
    if st.room.None? || st.currentUser.None? then Effect(rooms, st)
    else
      var r := st.room.value;
      var left := MembersWithout(r.participants, st.currentUser.value.id);
      var rooms' := if |left| == 0 then rooms - {r.id} else rooms[r.id := r.(participants := left)];
      Effect(rooms', st.(room := None, currentUser := None, isConnected := false))
  }

  // ---------------------------------------------------------------------
  // Properties of the steps
  // ---------------------------------------------------------------------

  /** `createRoom` stores a room under an 8-character id that it returns;
      the room's only participant is the host, it has the default language
      and its code and one "Machine Ready" message, and the hook is connected
      as the host. The room then exists. */
  lemma CreateRoomSpec(rooms: SharedMap, defaultLanguage: Language, hostName: string, title: Option<string>,
                       roomUuid: Uuid, hostId: Uuid, messageId: Uuid, now: Instant)
    ensures var e := CreateRoomStep(rooms, defaultLanguage, hostName, title, roomUuid, hostId, messageId, now);
      var id := NewRoomId(roomUuid);
      && |id| == 8
      && CheckRoomExists(e.rooms, id)
      && e.state.room == Some(e.rooms[id])
      && e.rooms[id].participants == [Member(hostId, hostName, true, now)]
      && e.rooms[id].language == defaultLanguage
      && e.rooms[id].code == defaultLanguage.defaultCode
      && |e.rooms[id].consoleMessages| == 1 && e.rooms[id].consoleMessages[0].content == "Machine Ready"
      && e.rooms[id].title == (if title.Some? then title.value else "Interview Session")
      && e.state.currentUser == Some(Member(hostId, hostName, true, now))
      && e.state.isConnected && !e.state.isLoading
      && (forall k :: k in rooms && k != id ==> k in e.rooms && e.rooms[k] == rooms[k])
  {
  }

  /** `joinRoom` of an unknown id fails: the map is unchanged, and the hook
      keeps its user and connection (so a fresh hook stays without user and
      disconnected), only loading ends. */
  lemma JoinUnknownFails(rooms: SharedMap, st: HookState, roomId: string, userName: string,
                         userId: Uuid, messageId: Uuid, now: Instant)
    requires !CheckRoomExists(rooms, roomId)
    ensures var e := JoinRoomStep(rooms, st, roomId, userName, userId, messageId, now);
      && e.rooms == rooms
      && e.state == st.(isLoading := false)
      && (st == InitialState ==> e.state.currentUser.None? && !e.state.isConnected)
  {
  }

  /** `joinRoom` of a known id appends one non-host participant and one
      "<name> joined the session" message to the stored room, keeping the
      earlier entries, and connects the hook as that participant. */
  lemma JoinKnownAppends(rooms: SharedMap, st: HookState, roomId: string, userName: string,
                         userId: Uuid, messageId: Uuid, now: Instant)
    requires CheckRoomExists(rooms, roomId)
    ensures var e := JoinRoomStep(rooms, st, roomId, userName, userId, messageId, now);
      var before := rooms[roomId];
      && roomId in e.rooms
      && e.rooms[roomId].participants == before.participants + [Member(userId, userName, false, now)]
      && e.rooms[roomId].consoleMessages[..|before.consoleMessages|] == before.consoleMessages
      && |e.rooms[roomId].consoleMessages| == |before.consoleMessages| + 1
      && e.rooms[roomId].consoleMessages[|before.consoleMessages|].content == userName + " joined the session"
      && e.rooms[roomId] == before.(participants := before.participants + [Member(userId, userName, false, now)],
           consoleMessages := before.consoleMessages + [InfoMessage(messageId, userName + " joined the session", now)])
      && e.rooms.Keys == rooms.Keys
      && (forall k :: k in rooms && k != roomId ==> e.rooms[k] == rooms[k])
      && e.state.room == Some(e.rooms[roomId])
      && e.state.currentUser == Some(Member(userId, userName, false, now))
      && e.state.isConnected
  {
    var e := JoinRoomStep(rooms, st, roomId, userName, userId, messageId, now);
    var before := rooms[roomId];
    assert e.rooms[roomId].consoleMessages[..|before.consoleMessages|] == before.consoleMessages;
  }

  /** With no room in the hook, the editing operations change nothing; an
      unknown language id changes nothing either. */
  lemma NoRoomNoChange(rooms: SharedMap, st: HookState, lookup: string -> Option<Language>, code: string,
                       languageId: string, kind: MessageType, content: string, author: Option<string>,
                       messageId: Uuid, now: Instant)
    ensures st.room.None? ==>
      && UpdateCodeStep(rooms, st, code) == Effect(rooms, st)
      && UpdateLanguageStep(rooms, st, lookup, languageId, messageId, now) == Effect(rooms, st)
      && AddConsoleMessageStep(rooms, st, kind, content, author, messageId, now) == Effect(rooms, st)
      && ClearConsoleStep(rooms, st, messageId, now) == Effect(rooms, st)
    ensures lookup(languageId).None? ==>
      UpdateLanguageStep(rooms, st, lookup, languageId, messageId, now) == Effect(rooms, st)
  {
  }

  /** `updateCode` replaces only the code; `addConsoleMessage` appends
      exactly one message; `clearConsole` leaves exactly one "Console
      cleared" message. Each writes the result to the map under the
      snapshot's id, whether or not the map still holds that room. */
  lemma EditsSpec(rooms: SharedMap, st: HookState, code: string, kind: MessageType, content: string,
                  author: Option<string>, messageId: Uuid, now: Instant)
    requires st.room.Some?
    ensures var r := st.room.value;
      var e := UpdateCodeStep(rooms, st, code);
      e.state.room == Some(r.(code := code)) && e.rooms == rooms[r.id := r.(code := code)]
    ensures var r := st.room.value;
      var e := AddConsoleMessageStep(rooms, st, kind, content, author, messageId, now);
      && e.state.room.Some? && e.rooms == rooms[r.id := e.state.room.value]
      && e.state.room.value.consoleMessages == r.consoleMessages + [ConsoleMessage(messageId, kind, content, now, author)]
      && e.state.room.value.code == r.code && e.state.room.value.participants == r.participants
      && e.state.room == Some(r.(consoleMessages := r.consoleMessages + [ConsoleMessage(messageId, kind, content, now, author)]))
    ensures var r := st.room.value;
      var e := ClearConsoleStep(rooms, st, messageId, now);
      && e.state.room.Some? && e.rooms == rooms[r.id := e.state.room.value]
      && |e.state.room.value.consoleMessages| == 1
      && e.state.room.value.consoleMessages[0].content == "Console cleared"
      && e.state.room == Some(r.(consoleMessages := [InfoMessage(messageId, "Console cleared", now)]))
  {
  }

  /** `leaveRoom` drops exactly the current user from the snapshot's
      participants and deletes the room when nobody is left; afterwards the
      hook has no room, no user and is disconnected. */
  lemma LeaveRoomSpec(rooms: SharedMap, st: HookState)
    requires st.room.Some? && st.currentUser.Some?
    ensures var e := LeaveRoomStep(rooms, st);
      var r := st.room.value;
      var user := st.currentUser.value.id;
      && e.state.room.None? && e.state.currentUser.None? && !e.state.isConnected
      && (CheckRoomExists(e.rooms, r.id) <==> exists p :: p in r.participants && p.id != user)
      && (r.id in e.rooms ==> forall p :: p in e.rooms[r.id].participants <==> p in r.participants && p.id != user)
      && (forall k :: k in rooms && k != r.id ==> k in e.rooms && e.rooms[k] == rooms[k])
  {
    var left := MembersWithout(st.room.value.participants, st.currentUser.value.id);
    if |left| > 0 {
      assert left[0] in left;
    }
  }

  /** As written, `updateLanguage` ends with the old language and code: the
      second publication, built from the pre-update snapshot, overwrites the
      first, so only the announcement survives. */
  lemma UpdateLanguageKeepsOldLanguage(rooms: SharedMap, st: HookState, lookup: string -> Option<Language>,
                                       languageId: string, messageId: Uuid, now: Instant)
    requires st.room.Some? && lookup(languageId).Some?
    ensures var e := UpdateLanguageStep(rooms, st, lookup, languageId, messageId, now);
      var r := st.room.value;
      var lang := lookup(languageId).value;
      && e.state.room.Some?
      && e.state.room.value.language == r.language
      && e.state.room.value.code == r.code
      && e.state.room.value.consoleMessages == r.consoleMessages + [InfoMessage(messageId, "Language changed to " + lang.name, now)]
      && e.rooms == rooms[r.id := e.state.room.value]
  {
  }

  /** The scenario the hook's own test runs: create a room with JavaScript
      as the default, then switch to Python. As written the room is still
      JavaScript, where the test expects Python. */
  lemma UpdateLanguageCounterexample(rooms: SharedMap, lookup: string -> Option<Language>,
                                     roomUuid: Uuid, hostId: Uuid, id1: Uuid, id2: Uuid, now: Instant)
    requires lookup("python") == Some(Python)
    ensures var created := CreateRoomStep(rooms, JavaScript, "Host", Some("Session"), roomUuid, hostId, id1, now);
      var e := UpdateLanguageStep(created.rooms, created.state, lookup, "python", id2, now);
      e.state.room.Some? && e.state.room.value.language.id == "javascript"
      && e.state.room.value.language.id != "python"
  {
    var created := CreateRoomStep(rooms, JavaScript, "Host", Some("Session"), roomUuid, hostId, id1, now);
    UpdateLanguageKeepsOldLanguage(created.rooms, created.state, lookup, "python", id2, now);
    assert JavaScript.id[0] != Python.id[0];
  }

  /** The intended `updateLanguage`: the published room has the new
      language, its starter code and the announcement, and in the same
      scenario the room becomes Python. */
  lemma UpdateLanguageIntendedSpec(rooms: SharedMap, st: HookState, lookup: string -> Option<Language>,
                                   languageId: string, messageId: Uuid, now: Instant)
    requires st.room.Some? && lookup(languageId).Some?
    ensures var e := UpdateLanguageIntended(rooms, st, lookup, languageId, messageId, now);
      var r := st.room.value;
      var lang := lookup(languageId).value;
      && e.state.room.Some?
      && e.state.room.value.language == lang
      && e.state.room.value.code == lang.defaultCode
      && e.state.room.value.consoleMessages == r.consoleMessages + [InfoMessage(messageId, "Language changed to " + lang.name, now)]
      && e.state.room.value.participants == r.participants
      && e.rooms == rooms[r.id := e.state.room.value]
  {
  }

  // ---------------------------------------------------------------------
  // The shared map and a hook instance, changed in place
  // ---------------------------------------------------------------------

  /** The module-level `rooms` map. */
  class SharedRooms {
    var rooms: SharedMap

    constructor ()
      ensures rooms == map[]
    {
      rooms := map[];
    }
  }

  /** One mounted hook: its React state, the shared map, and the language
      table's default entry and lookup. */
  class InterviewRoomHook {
    const shared: SharedRooms
    const defaultLanguage: Language
    const lookupLanguage: string -> Option<Language>
    var room: Option<SessionRoom>
    var currentUser: Option<Member>
    var isConnected: bool
    var isLoading: bool

    function State(): HookState
      reads this
    {
      HookState(room, currentUser, isConnected, isLoading)
    }

    constructor (shared: SharedRooms, defaultLanguage: Language, lookupLanguage: string -> Option<Language>)
      ensures this.shared == shared && this.defaultLanguage == defaultLanguage
      ensures this.lookupLanguage == lookupLanguage
      ensures State() == InitialState
    {
      this.shared := shared;
      this.defaultLanguage := defaultLanguage;
      this.lookupLanguage := lookupLanguage;
      room := None;
      currentUser := None;
      isConnected := false;
      isLoading := true;
    }

    method CreateRoom(hostName: string, title: Option<string>, roomUuid: Uuid, hostId: Uuid,
                      messageId: Uuid, now: Instant) returns (newRoomId: string)
      modifies this, shared
      ensures newRoomId == NewRoomId(roomUuid)
      ensures Effect(shared.rooms, State())
           == CreateRoomStep(old(shared.rooms), defaultLanguage, hostName, title, roomUuid, hostId, messageId, now)
    {
      newRoomId := roomUuid[..8];
      var host := Member(hostId, hostName, true, now);
      var newRoom := SessionRoom(newRoomId, if title.Some? then title.value else DefaultTitle,
                                 defaultLanguage.defaultCode, defaultLanguage, [host],
                                 [ConsoleMessage(messageId, Info, "Machine Ready", now, None)], now);
      shared.rooms := shared.rooms[newRoomId := newRoom];
      room := Some(newRoom);
      currentUser := Some(host);
      isConnected := true;
      isLoading := false;
    }

    method JoinRoom(roomIdToJoin: string, userName: string, userId: Uuid, messageId: Uuid, now: Instant)
      returns (joined: bool)
      modifies this, shared
      ensures joined == CheckRoomExists(old(shared.rooms), roomIdToJoin)
      ensures Effect(shared.rooms, State())
           == JoinRoomStep(old(shared.rooms), old(State()), roomIdToJoin, userName, userId, messageId, now)
    {
      if roomIdToJoin !in shared.rooms {
        isLoading := false;
        return false;
      }
      var existing := shared.rooms[roomIdToJoin];
      var participant := Member(userId, userName, false, now);
      existing := existing.(participants := existing.participants + [participant]);
      existing := existing.(consoleMessages := existing.consoleMessages
                            + [ConsoleMessage(messageId, Info, userName + " joined the session", now, None)]);
      shared.rooms := shared.rooms[roomIdToJoin := existing];
      room := Some(existing);
      currentUser := Some(participant);
      isConnected := true;
      isLoading := false;
      joined := true;
    }

    method UpdateCode(newCode: string)
      modifies this, shared
      ensures Effect(shared.rooms, State()) == UpdateCodeStep(old(shared.rooms), old(State()), newCode)
    {
      if room.None? {
        return;
      }
      var updated := room.value.(code := newCode);
      shared.rooms := shared.rooms[updated.id := updated];
      room := Some(updated);
    }

    /** The body of `addConsoleMessage` in a closure that captured
        `snapshot`. */
    method AddMessageFromSnapshot(snapshot: Option<SessionRoom>, kind: MessageType, content: string,
                                  author: Option<string>, messageId: Uuid, now: Instant)
      modifies this, shared
      ensures Effect(shared.rooms, State())
           == AddMessageFrom(old(shared.rooms), old(State()), snapshot, kind, content, author, messageId, now)
    {
      if snapshot.None? {
        return;
      }
      var message := ConsoleMessage(messageId, kind, content, now, author);
      var updated := snapshot.value.(consoleMessages := snapshot.value.consoleMessages + [message]);
      shared.rooms := shared.rooms[updated.id := updated];
      room := Some(updated);
    }

    method AddConsoleMessage(kind: MessageType, content: string, author: Option<string>,
                             messageId: Uuid, now: Instant)
      modifies this, shared
      ensures Effect(shared.rooms, State())
           == AddConsoleMessageStep(old(shared.rooms), old(State()), kind, content, author, messageId, now)
    {
      AddMessageFromSnapshot(room, kind, content, author, messageId, now);
    }

    /** `updateLanguage`, including its call of `addConsoleMessage` from the
        closure that still holds the pre-update room. */
    method UpdateLanguage(languageId: string, messageId: Uuid, now: Instant)
      modifies this, shared
      ensures Effect(shared.rooms, State())
           == UpdateLanguageStep(old(shared.rooms), old(State()), lookupLanguage, languageId, messageId, now)
    {
      if room.None? {
        return;
      }
      var newLang := lookupLanguage(languageId);
      if newLang.None? {
        return;
      }
      var snapshot := room;
      var updated := snapshot.value.(language := newLang.value, code := newLang.value.defaultCode);
      shared.rooms := shared.rooms[updated.id := updated];
      room := Some(updated);
      AddMessageFromSnapshot(snapshot, Info, "Language changed to " + newLang.value.name, None, messageId, now);
    }

    /** `updateLanguage` with the announcement appended to the room it has
        just published instead of the captured one. */
    method UpdateLanguageCorrected(languageId: string, messageId: Uuid, now: Instant)
      modifies this, shared
      ensures Effect(shared.rooms, State())
           == UpdateLanguageIntended(old(shared.rooms), old(State()), lookupLanguage, languageId, messageId, now)
    {
      if room.None? {
        return;
      }
      var newLang := lookupLanguage(languageId);
      if newLang.None? {
        return;
      }
      var updated := room.value.(language := newLang.value, code := newLang.value.defaultCode);
      shared.rooms := shared.rooms[updated.id := updated];
      room := Some(updated);
      AddMessageFromSnapshot(room, Info, "Language changed to " + newLang.value.name, None, messageId, now);
    }

    method ClearConsole(messageId: Uuid, now: Instant)
      modifies this, shared
      ensures Effect(shared.rooms, State()) == ClearConsoleStep(old(shared.rooms), old(State()), messageId, now)
    {
      if room.None? {
        return;
      }
      var updated := room.value.(consoleMessages := [ConsoleMessage(messageId, Info, "Console cleared", now, None)]);
      shared.rooms := shared.rooms[updated.id := updated];
      room := Some(updated);
    }

    method LeaveRoom()
      modifies this, shared
      ensures Effect(shared.rooms, State()) == LeaveRoomStep(old(shared.rooms), old(State()))
    {
      if room.None? || currentUser.None? {
        return;
      }
      var r := room.value;
      var updatedParticipants := MembersWithout(r.participants, currentUser.value.id);
      if |updatedParticipants| == 0 {
        shared.rooms := shared.rooms - {r.id};
      } else {
        shared.rooms := shared.rooms[r.id := r.(participants := updatedParticipants)];
      }
      room := None;
      currentUser := None;
      isConnected := false;
    }
  }
}
