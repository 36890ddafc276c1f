# Todo list and collaborative coding rooms, modelled in Dafny

This project models the core of two small web applications and proves
properties of the model.

* **A Django to-do list.** The `Todo` record has its defaults, timestamps,
  ordering, string form and overdue rule. `TodoForm` reads four fields and
  validates them. The views list a page of todos with counts, and they
  create, edit, delete and toggle a todo.
* **Real-time interview rooms.** There are three room registries:
  * the Socket.IO server's state machine (`socket.ts`);
  * an older Express server that creates rooms on first use and keeps
    socket ids (`server/index.js`);
  * the in-browser hook `useInterviewRoom`, which simulates the same
    operations over a module-level map.

  The model also covers the language catalogue (`languages.ts`), the room
  page's console-output log and template switch (`Room.jsx`), and the home
  page's room-id extraction from a pasted link (`Home.jsx`).

Modules follow the source files. `Common` holds the shared string routines
(trim, split and join, includes, indexOf). The other modules are
`TodoModels`, `TodoForms`, `TodoViews`, `Languages`, `SocketRooms`,
`InterviewHook`, `LegacyServer`, `RoomPage` and `HomePage`.

Where the source updates state in place, the model is a class. The class
holds the updated fields: the database, the room maps, the socket's current
room, the hook's React state, and the page state. Each method's postcondition
equates the new state with a pure step function of the old state. The
properties are then proved as lemmas about those step functions.

Some inputs are supplied from outside as explicit parameters:

* fresh uuids, the clock and timestamps;
* Django's date parser;
* the URL parser;
* the outcome of the code runner;
* the hook's language lookup.

## Model

| member | source | states |
|---|---|---|
| Common.TrimEmptyIff | homework/howework_2/real_time_coding_platform/client/src/pages/Home.jsx:31 | `s.trim()` is empty exactly when every character of `s` is whitespace, so `!roomId.trim()` tests for a blank input |
| Common.TrimUnchanged | homework/howework_2/real_time_coding_platform/client/src/pages/Home.jsx:37 | a string that neither starts nor ends with whitespace trims to itself |
| Common.Contains | homework/howework_2/real_time_coding_platform/client/src/pages/Home.jsx:39 | `includes` holds exactly when the substring occurs at some index |
| Common.IndexOf | homework/howework_2/real_time_coding_platform/client/src/pages/Home.jsx:42 | `indexOf` is -1 exactly when the element is absent; otherwise it is the first index holding it |
| Common.Split | homework/howework_2/real_time_coding_platform/client/src/pages/Home.jsx:41 | `split('/')` gives at least one piece, no piece contains the separator, and joining the pieces gives back the string |
| Common.SplitJoin | homework/howework_2/real_time_coding_platform/client/src/pages/Home.jsx:41 | splitting a join of separator-free pieces gives back those pieces, so `Split` and `Join` are inverse |
| Common.SplitNoSeparator | homework/howework_2/real_time_coding_platform/client/src/pages/Home.jsx:41 | a string without the separator splits into itself alone |
| TodoModels.Create | homework/homework_1/todos/models.py:8-33 | a new todo carries the given id, fields and title, and both timestamps are the one clock reading `now` passed in |
| TodoModels.CreateDefaults | homework/homework_1/todos/models.py:12-25 | when only a title is given, the todo is unresolved and has no description and no due date |
| TodoModels.Str | homework/homework_1/todos/models.py:40-41 | the string form of a to-do is its title |
| TodoModels.SaveAdvancesUpdatedAt | homework/homework_1/todos/models.py:26-33 | a save stamps `updated_at` with the save instant and leaves id, title, description, due date, status and `created_at` as they were; at a later instant `updated_at` moves past its old value even when nothing else changed |
| TodoModels.ResolvedNeverOverdue | homework/homework_1/todos/models.py:45-46 | a resolved todo is never overdue, whatever its due date |
| TodoModels.NoDueDateNeverOverdue | homework/homework_1/todos/models.py:45-46 | a todo without a due date is never overdue |
| TodoModels.IsOverdue | homework/homework_1/todos/models.py:43-47 | `is_overdue`: false for a resolved to-do or one without a due date, otherwise whether the due date is before today (its meaning is stated by `OverdueIff`) |
| TodoModels.OverdueIff | homework/homework_1/todos/models.py:43-47 | overdue holds exactly when the todo is unresolved and has a due date strictly before today; due today or tomorrow is not overdue |
| TodoModels.NewestFirstCons | homework/homework_1/todos/models.py:36 | prepending a todo created no earlier than all the others keeps newest-first order |
| TodoModels.NewestFirstTail | homework/homework_1/todos/models.py:36 | the tail of a newest-first list is newest-first, and its head is the newest |
| TodoModels.Insert | homework/homework_1/todos/models.py:36 | inserting into a newest-first list keeps the order and adds exactly that todo (a permutation of old plus new) |
| TodoModels.OrderedNewestFirst | homework/homework_1/todos/models.py:36 | the default ordering `-created_at` gives a newest-first permutation of the rows |
| TodoForms.TitleErrors | homework/homework_1/todos/models.py:8-11 | the title is accepted exactly when it is non-empty, at most 200 characters and free of NUL; an empty title gives exactly `required` |
| TodoForms.DescriptionErrors | homework/homework_1/todos/models.py:12-16 | a description is accepted exactly when it has no NUL character |
| TodoForms.CleanDueDate | homework/homework_1/todos/models.py:17-21 | a missing or empty due date is accepted as no date |
| TodoForms.ErrorMap | homework/homework_1/todos/forms.py:10 | the error map has an entry for a field exactly when that field failed; `is_resolved` never fails |
| TodoForms.Errors | homework/homework_1/todos/forms.py:10 | the form's errors are those of title, description and due date, each present exactly when that field fails |
| TodoForms.Validate | homework/homework_1/todos/forms.py:10 | the form is valid exactly when there are no errors; a valid form carries the cleaned title, description, checkbox and parsed date; an invalid one carries its non-empty errors |
| TodoForms.ValidIff | homework/homework_1/todos/forms.py:10 | validity is stated directly on the submitted data: the stripped title is non-empty, at most 200 characters and NUL-free; the description is NUL-free; the date parses or is blank |
| TodoForms.OnlyFormFieldsRead | homework/homework_1/todos/forms.py:10 | two submissions that agree on title, description, due_date and is_resolved validate identically, so timestamps and other keys are never read |
| TodoForms.BlankTitleRejected | homework/homework_1/todos/forms.py:10 | a missing or whitespace-only title makes the form invalid with exactly the `required` error on title |
| TodoForms.BlankOptionalFieldsAccepted | homework/homework_1/todos/forms.py:10 | with a good title, a blank description and a blank due date are accepted, giving the empty description and no date |
| TodoForms.TitleLengthBoundary | homework/homework_1/todos/models.py:8-11 | a 200-character title is accepted; a 201-character one gets the max-length error |
| TodoForms.CleanText | homework/homework_1/todos/forms.py:10 | a submitted title or description is cleaned by stripping surrounding whitespace; a missing one cleans to the empty string (its effect is stated by `ValidIff` and `BlankTitleRejected`) |
| TodoForms.CheckboxValue | homework/homework_1/todos/forms.py:26-28 | the check box reads as unchecked exactly for a missing value, the empty string and "false" in any letter case (readings stated by `CheckboxReadings`) |
| TodoForms.CheckboxReadings | homework/homework_1/todos/forms.py:10 | the checkbox reads "True" and "on" as checked; "False" and an absent value read as unchecked |
| TodoViews.RowsBelow | homework/homework_1/todos/views.py:13-18 | collecting the rows with keys below a bound gives exactly those rows, each once |
| TodoViews.ListingIsStore | homework/homework_1/todos/views.py:13-18 | the queryset listing is newest-first and holds every stored row exactly once |
| TodoViews.NumPages | homework/homework_1/todos/views.py:18 | the page count is at least one and just enough for pages of 10 |
| TodoViews.PageSlice | homework/homework_1/todos/views.py:18 | a page holds at most 10 todos: the consecutive run of the listing that starts at that page's offset |
| TodoViews.PageSliceNewestFirst | homework/homework_1/todos/views.py:18 | every page of a newest-first listing is newest-first |
| TodoViews.CountsAddUp | homework/homework_1/todos/views.py:22-24 | the total count is the completed count plus the pending count |
| TodoViews.ListPageFound | homework/homework_1/todos/views.py:13-25 | listing never changes the store; no page and `last` are always found; the page is not found exactly when it is not a number or lies outside 1..number of pages |
| TodoViews.ListPageContents | homework/homework_1/todos/views.py:13-25 | a found page is the newest-first slice of the listing for its number, and its counts are the store's, with total = completed + pending |
| TodoViews.PageResponse | homework/homework_1/todos/views.py:13-25 | a GET of the list answers either a page or 404 |
| TodoViews.ListStep | homework/homework_1/todos/views.py:13-25 | the list view never changes the store and never redirects; GET and HEAD answer the page, OPTIONS the allowed verbs, other verbs 405 |
| TodoViews.CreateKeepsInvariant | homework/homework_1/todos/views.py:28-38 | creating keeps every row filed under its own id, every id below the next fresh id, and every `created_at` no later than `updated_at` |
| TodoViews.EditKeepsInvariant | homework/homework_1/todos/views.py:41-51 | editing keeps the store invariant, given a clock no earlier than the row's last update |
| TodoViews.DeleteKeepsInvariant | homework/homework_1/todos/views.py:54-64 | deleting keeps the store invariant |
| TodoViews.ToggleKeepsInvariant | homework/homework_1/todos/views.py:67-78 | toggling keeps the store invariant, given a clock no earlier than the row's last update |
| TodoViews.BoundData | homework/homework_1/todos/views.py:28-51 | a submission binds the form to the request body for POST and to nothing for every other verb |
| TodoViews.CreateStep | homework/homework_1/todos/views.py:28-38 | only a saved valid POST or PUT changes the store, it only adds a row, and then the view redirects |
| TodoViews.EditStep | homework/homework_1/todos/views.py:41-51 | the update view never adds or removes a row or moves the id counter; only a saved valid form changes a row, and then it redirects |
| TodoViews.DeleteStep | homework/homework_1/todos/views.py:54-64 | the delete view never adds or changes a row; the store changes only by a removal, and then it redirects |
| TodoViews.ToggleMessage | homework/homework_1/todos/views.py:77 | the message names the new status: "completed" when resolved, "pending" otherwise |
| TodoViews.ToggleStep | homework/homework_1/todos/views.py:67-78 | the toggle never adds or removes a row; the store changes only on success, which answers the JSON report |
| TodoViews.DispatchMatchesAllow | homework/homework_1/todos/views.py:13-64 | each class-based view answers 405 exactly for the verbs outside its `Allow` set (GET, HEAD, OPTIONS for the list; also POST and PUT for create and update; POST and DELETE for delete), whether or not the row exists; OPTIONS answers that set and changes nothing |
| TodoViews.HeadIsGet | homework/homework_1/todos/views.py:13-64 | HEAD is answered exactly as GET by the list, create, update and delete views |
| TodoViews.PutSubmitsNothing | homework/homework_1/todos/views.py:28-51 | PUT reaches the POST handler with an empty form: it is invalid with "required" on the title, nothing is stored, and an update of a missing row is 404 |
| TodoViews.DeleteVerbIsPost | homework/homework_1/todos/views.py:60-64 | an HTTP DELETE on the delete view does exactly what its POST does |
| TodoViews.ValidCreateAddsOne | homework/homework_1/todos/views.py:28-38 | a valid POST adds exactly one new row under a fresh id, holding the cleaned data with both timestamps set to the one clock reading `now`; it leaves every other row unchanged and redirects (302) |
| TodoViews.CreateFromSubmission | homework/homework_1/todos/views.py:28-38 | the created row carries the submission's cleaned title, description and checkbox; "True" marks it resolved |
| TodoViews.InvalidCreateAddsNothing | homework/homework_1/todos/views.py:28-38 | an invalid POST changes nothing and re-renders the form (200) with its errors |
| TodoViews.EditSpec | homework/homework_1/todos/views.py:41-51 | a valid edit replaces the fields of that row only, keeps its id and `created_at`, and sets `updated_at`; an invalid one changes nothing |
| TodoViews.MissingIdNotFound | homework/homework_1/todos/views.py:41-78 | for every verb that reaches a handler (GET, HEAD, POST, PUT on update; GET, HEAD, POST, DELETE on delete; POST on toggle), a missing id answers 404 and changes nothing |
| TodoViews.DeleteRemoves | homework/homework_1/todos/views.py:54-64 | a delete by POST or DELETE removes exactly that row, keeps the others and redirects |
| TodoViews.ToggleRequiresPost | homework/homework_1/todos/views.py:67 | any method other than POST gets 405 and changes nothing |
| TodoViews.ToggleFlips | homework/homework_1/todos/views.py:67-78 | toggling flips `is_resolved` and stamps `updated_at` on that row only; the JSON reports success, the new state and the matching completed or pending message |
| TodoViews.ToggleTwiceRestores | homework/homework_1/todos/views.py:67-78 | toggling twice restores the row except for `updated_at` |
| TodoViews.TodoDatabase.constructor | homework/homework_1/todos/views.py:13-78 | the database starts empty |
| TodoViews.TodoDatabase.List | homework/homework_1/todos/views.py:13-25 | the list view answers as `ListStep` on the unchanged store |
| TodoViews.TodoDatabase.Create | homework/homework_1/todos/views.py:28-38 | the create view binds the body (POST only), validates it and ends with the state and response of `CreateStep`, keeping the store invariant |
| TodoViews.TodoDatabase.CreateFrom | homework/homework_1/todos/views.py:28-38 | the create view on an already validated form ends as `CreateStep` for every verb, keeping the store invariant |
| TodoViews.TodoDatabase.Edit | homework/homework_1/todos/views.py:41-51 | the update view binds the body (POST only), validates it and ends as `EditStep`, keeping the store invariant under a clock that has not run backward |
| TodoViews.TodoDatabase.EditFrom | homework/homework_1/todos/views.py:41-51 | the update view on a validated form ends as `EditStep` for every verb, keeping the store invariant |
| TodoViews.TodoDatabase.Delete | homework/homework_1/todos/views.py:54-64 | the delete view ends as `DeleteStep` for every verb, DELETE included, keeping the store invariant |
| TodoViews.TodoDatabase.Toggle | homework/homework_1/todos/views.py:67-78 | the toggle endpoint ends as `ToggleStep`, keeping the store invariant under a clock that has not run backward |
| Languages.Ids | homework/howework_2/real_time_coding_platform/server/src/languages.ts:3-79 | the id list has one entry per catalogue language, in order |
| Languages.Find | homework/howework_2/real_time_coding_platform/server/src/languages.ts:85-87 | `find` fails exactly when no entry has the id; otherwise it returns an entry of the table with that id |
| Languages.FindIsFirst | homework/howework_2/real_time_coding_platform/server/src/languages.ts:85-87 | the entry found is the first one with that id |
| Languages.FindOwnId | homework/howework_2/real_time_coding_platform/server/src/languages.ts:85-87 | with distinct ids, looking up an entry's own id finds that entry |
| Languages.DefaultLanguage | homework/howework_2/real_time_coding_platform/server/src/languages.ts:81-83 | the default language is the first catalogue entry: JavaScript, which runs in the browser and is what a lookup of id "javascript" finds |
| Languages.CatalogueIds | homework/howework_2/real_time_coding_platform/server/src/languages.ts:3-79 | the catalogue ids are javascript, typescript, python, java, cpp and go, all distinct |
| Languages.GetLanguageById | homework/howework_2/real_time_coding_platform/server/src/languages.ts:85-87 | `getLanguageById` returns only a catalogue entry with the requested id |
| Languages.GetLanguageByIdSpec | homework/howework_2/real_time_coding_platform/server/src/languages.ts:85-87 | the lookup succeeds exactly for the six catalogue ids, and it returns the entry with that id |
| Languages.CatalogueEntriesWellFormed | homework/howework_2/real_time_coding_platform/server/src/languages.ts:3-79 | every entry has non-empty starter code and a Monaco id equal to its own id |
| Languages.BrowserExecutable | homework/howework_2/real_time_coding_platform/server/src/languages.ts:3-79 | only JavaScript and TypeScript run in the browser |
| SocketRooms.StoreKeepsInvariant | homework/howework_2/real_time_coding_platform/server/src/socket.ts:7 | storing a well-formed room under its id, or deleting a room, keeps the registry invariant |
| SocketRooms.NewRoomId | homework/howework_2/real_time_coding_platform/server/src/socket.ts:18 | a room id is the first 8 characters of a fresh uuid |
| SocketRooms.RoomTitle | homework/howework_2/real_time_coding_platform/server/src/socket.ts:32 | the title is the given one when it is truthy, and "Interview Session" otherwise |
| SocketRooms.CreateStep | homework/howework_2/real_time_coding_platform/server/src/socket.ts:17-57 | `room:create` files a new room under the first 8 characters of a uuid, with the caller as host, and makes it the connection's room (stated by `CreateSpec`) |
| SocketRooms.JoinStep | homework/howework_2/real_time_coding_platform/server/src/socket.ts:60-96 | `room:join` refuses an unknown id; a known room gains a guest and a join message (stated by `JoinUnknownRefused` and `JoinKnownAppends`) |
| SocketRooms.CodeUpdateStep | homework/howework_2/real_time_coding_platform/server/src/socket.ts:99-109 | `code:update` sets the code of the current room, if any (stated by `CodeUpdateSpec`) |
| SocketRooms.LanguageChangeStep | homework/howework_2/real_time_coding_platform/server/src/socket.ts:112-132 | `language:change` applies a known language and its starter code to the current room, with an announcement (stated by `LanguageChangeSpec`) |
| SocketRooms.ConsoleMessageStep | homework/howework_2/real_time_coding_platform/server/src/socket.ts:135-151 | `console:message` appends the message to the current room (stated by `ConsoleSpec`) |
| SocketRooms.ConsoleClearStep | homework/howework_2/real_time_coding_platform/server/src/socket.ts:154-171 | `console:clear` replaces the current room's console with "Console cleared" (stated by `ConsoleSpec`) |
| SocketRooms.RemoveCurrentUser | homework/howework_2/real_time_coding_platform/server/src/socket.ts:177-193 | the connection's user leaves its room, which is deleted when nobody is left (stated by `RemoveCurrentUserSpec`) |
| SocketRooms.DisconnectStep | homework/howework_2/real_time_coding_platform/server/src/socket.ts:174-194 | `disconnect` is the removal of the current user |
| SocketRooms.LeaveStep | homework/howework_2/real_time_coding_platform/server/src/socket.ts:197-216 | `room:leave` removes the user and forgets the room and user (stated by `LeaveResetsConnection`) |
| SocketRooms.WithoutUser | homework/howework_2/real_time_coding_platform/server/src/socket.ts:181 | filtering out a user keeps exactly the other participants and never grows the list; a list without the user is kept whole |
| SocketRooms.WithoutUserAppend | homework/howework_2/real_time_coding_platform/server/src/socket.ts:181 | removing a user from a concatenation removes it from each part, so order and duplicates of the others are kept |
| SocketRooms.WithoutUserSingleton | homework/howework_2/real_time_coding_platform/server/src/socket.ts:181 | one participant is kept exactly when it is someone else; with the append rule this makes the removal exactly `filter` |
| SocketRooms.WithoutUserKeepsOneHost | homework/howework_2/real_time_coding_platform/server/src/socket.ts:181 | filtering out a user keeps at most one host |
| SocketRooms.CreateSpec | homework/howework_2/real_time_coding_platform/server/src/socket.ts:17-57 | `room:create` adds one room under an 8-character id, with the caller as its sole host, the default language and code, and one "Machine Ready" message; other rooms are kept and the connection joins the room as that user |
| SocketRooms.JoinUnknownRefused | homework/howework_2/real_time_coding_platform/server/src/socket.ts:60-67 | joining an unknown room is refused and changes nothing |
| SocketRooms.JoinKnownAppends | homework/howework_2/real_time_coding_platform/server/src/socket.ts:60-96 | joining a known room appends one non-host participant and one "<name> joined the session" message, keeps code, language and title, and makes it the connection's room |
| SocketRooms.NoCurrentRoomIgnored | homework/howework_2/real_time_coding_platform/server/src/socket.ts:99-171 | without a current room, or when it is gone, code, language and console events change nothing |
| SocketRooms.CodeUpdateSpec | homework/howework_2/real_time_coding_platform/server/src/socket.ts:99-109 | `code:update` replaces the code of the current room only |
| SocketRooms.LanguageChangeSpec | homework/howework_2/real_time_coding_platform/server/src/socket.ts:112-132 | an unknown language id changes nothing; a known one sets the language and its starter code and appends "Language changed to <name>"; the room's id, title, createdAt and participants are kept, and so is every other room |
| SocketRooms.ConsoleSpec | homework/howework_2/real_time_coding_platform/server/src/socket.ts:135-171 | a console message is appended as given, with fresh id and time; clearing leaves the single info message "Console cleared"; either way the room's other fields and every other room are kept |
| SocketRooms.RemoveCurrentUserSpec | homework/howework_2/real_time_coding_platform/server/src/socket.ts:174-194 | removing the current user keeps the other participants; the room is deleted exactly when none are left; other rooms are kept |
| SocketRooms.LeaveResetsConnection | homework/howework_2/real_time_coding_platform/server/src/socket.ts:197-216 | `room:leave` removes the user like a disconnect, then clears the connection's room and user, so a later disconnect does nothing |
| SocketRooms.RejoinKeepsEarlierEntry | homework/howework_2/real_time_coding_platform/server/src/socket.ts:60-96 | joining another room leaves the user's entry in the earlier room, which is then forgotten by the connection |
| SocketRooms.RecreateKeepsEarlierEntry | homework/howework_2/real_time_coding_platform/server/src/socket.ts:17-57 | creating a room while in one leaves the earlier room as it was, unless the new id collides with it, in which case the room is overwritten |
| SocketRooms.CreateKeepsInvariant | homework/howework_2/real_time_coding_platform/server/src/socket.ts:17-57 | creating keeps the registry invariant: each room is filed under its own id, has at most one host, and has participants |
| SocketRooms.JoinKeepsInvariant | homework/howework_2/real_time_coding_platform/server/src/socket.ts:60-96 | joining keeps the registry invariant |
| SocketRooms.CodeUpdateKeepsInvariant | homework/howework_2/real_time_coding_platform/server/src/socket.ts:99-109 | a code update keeps the registry invariant |
| SocketRooms.LanguageChangeKeepsInvariant | homework/howework_2/real_time_coding_platform/server/src/socket.ts:112-132 | a language change keeps the registry invariant: the new language is a catalogue entry |
| SocketRooms.ConsoleMessageKeepsInvariant | homework/howework_2/real_time_coding_platform/server/src/socket.ts:135-151 | appending a console message keeps the registry invariant |
| SocketRooms.ConsoleClearKeepsInvariant | homework/howework_2/real_time_coding_platform/server/src/socket.ts:154-171 | clearing the console keeps the registry invariant: one message is left |
| SocketRooms.LeaveKeepsInvariant | homework/howework_2/real_time_coding_platform/server/src/socket.ts:174-216 | disconnect and leave keep the registry invariant |
| SocketRooms.RoomRegistry.constructor | homework/howework_2/real_time_coding_platform/server/src/socket.ts:7 | the registry starts empty |
| SocketRooms.SocketConnection.constructor | homework/howework_2/real_time_coding_platform/server/src/socket.ts:13-14 | a new connection has no current room and no current user |
| SocketRooms.SocketConnection.RoomCreate | homework/howework_2/real_time_coding_platform/server/src/socket.ts:17-57 | the handler returns the new room's id and ends as `CreateStep`, keeping the registry invariant |
| SocketRooms.SocketConnection.RoomJoin | homework/howework_2/real_time_coding_platform/server/src/socket.ts:60-96 | the handler answers whether the room exists and ends as `JoinStep`, keeping the registry invariant |
| SocketRooms.SocketConnection.CodeUpdate | homework/howework_2/real_time_coding_platform/server/src/socket.ts:99-109 | the handler ends as `CodeUpdateStep`, keeping the registry invariant |
| SocketRooms.SocketConnection.LanguageChange | homework/howework_2/real_time_coding_platform/server/src/socket.ts:112-132 | the handler ends as `LanguageChangeStep`, keeping the registry invariant |
| SocketRooms.SocketConnection.ConsoleAppend | homework/howework_2/real_time_coding_platform/server/src/socket.ts:135-151 | the handler ends as `ConsoleMessageStep`, keeping the registry invariant |
| SocketRooms.SocketConnection.ConsoleClear | homework/howework_2/real_time_coding_platform/server/src/socket.ts:154-171 | the handler ends as `ConsoleClearStep`, keeping the registry invariant |
| SocketRooms.SocketConnection.RemoveUser | homework/howework_2/real_time_coding_platform/server/src/socket.ts:177-193 | the shared removal ends as `RemoveCurrentUser`, keeping the registry invariant |
| SocketRooms.SocketConnection.Disconnect | homework/howework_2/real_time_coding_platform/server/src/socket.ts:174-194 | the handler ends as `DisconnectStep`, keeping the registry invariant |
| SocketRooms.SocketConnection.RoomLeave | homework/howework_2/real_time_coding_platform/server/src/socket.ts:197-216 | the handler ends as `LeaveStep`, keeping the registry invariant |
| InterviewHook.MembersWithout | homework/howework_2/real_time_coding_platform/src/hooks/useInterviewRoom.ts:175 | filtering out the current user keeps exactly the others and never grows the list |
| InterviewHook.MembersWithoutAppend | homework/howework_2/real_time_coding_platform/src/hooks/useInterviewRoom.ts:175 | removing the user from a concatenation removes it from each part, so order and duplicates of the others are kept |
| InterviewHook.MembersWithoutSingleton | homework/howework_2/real_time_coding_platform/src/hooks/useInterviewRoom.ts:175 | one member is kept exactly when it is someone else; with the append rule this makes the removal exactly `filter` |
| InterviewHook.CheckRoomExists | homework/howework_2/real_time_coding_platform/src/hooks/useInterviewRoom.ts:34-36 | `checkRoomExists` holds exactly when the shared map has the id |
| InterviewHook.CreateRoomStep | homework/howework_2/real_time_coding_platform/src/hooks/useInterviewRoom.ts:45-78 | `createRoom` publishes a new hosted room and shows it (stated by `CreateRoomSpec`) |
| InterviewHook.JoinRoomStep | homework/howework_2/real_time_coding_platform/src/hooks/useInterviewRoom.ts:80-110 | `joinRoom` fails on an unknown id and otherwise adds the guest (stated by `JoinUnknownFails` and `JoinKnownAppends`) |
| InterviewHook.UpdateCodeStep | homework/howework_2/real_time_coding_platform/src/hooks/useInterviewRoom.ts:112-118 | `updateCode` publishes the current room with the new code (stated by `EditsSpec`) |
| InterviewHook.AddMessageFrom | homework/howework_2/real_time_coding_platform/src/hooks/useInterviewRoom.ts:137-154 | `addConsoleMessage` appends to the room its closure captured and publishes that |
| InterviewHook.AddConsoleMessageStep | homework/howework_2/real_time_coding_platform/src/hooks/useInterviewRoom.ts:137-154 | `addConsoleMessage` from the current snapshot (stated by `EditsSpec`) |
| InterviewHook.UpdateLanguageStep | homework/howework_2/real_time_coding_platform/src/hooks/useInterviewRoom.ts:120-135 | `updateLanguage` as written, whose second publish starts from the stale snapshot (stated by `UpdateLanguageKeepsOldLanguage`) |
| InterviewHook.UpdateLanguageIntended | homework/howework_2/real_time_coding_platform/src/hooks/useInterviewRoom.ts:120-135 | the intended `updateLanguage`: one publish with the new language, its code and the announcement (stated by `UpdateLanguageIntendedSpec`) |
| InterviewHook.ClearConsoleStep | homework/howework_2/real_time_coding_platform/src/hooks/useInterviewRoom.ts:156-170 | `clearConsole` leaves the single "Console cleared" message (stated by `EditsSpec`) |
| InterviewHook.LeaveRoomStep | homework/howework_2/real_time_coding_platform/src/hooks/useInterviewRoom.ts:172-187 | `leaveRoom` removes the user, deleting an emptied room, and resets the hook (stated by `LeaveRoomSpec`) |
| InterviewHook.CreateRoomSpec | homework/howework_2/real_time_coding_platform/src/hooks/useInterviewRoom.ts:45-78 | `createRoom` publishes a room under an 8-character id, with the caller as sole host, the default language and code, one "Machine Ready" message and the default title; the hook shows that room as connected; other rooms are kept |
| InterviewHook.JoinUnknownFails | homework/howework_2/real_time_coding_platform/src/hooks/useInterviewRoom.ts:80-86 | joining an unknown id changes no room and only stops loading |
| InterviewHook.JoinKnownAppends | homework/howework_2/real_time_coding_platform/src/hooks/useInterviewRoom.ts:88-109 | joining an existing room appends the new guest and the "<name> joined the session" message and keeps its code, language and title; the map's key set and every other room are kept; the hook shows that room as connected |
| InterviewHook.NoRoomNoChange | homework/howework_2/real_time_coding_platform/src/hooks/useInterviewRoom.ts:112-170 | without a room, code, language and console calls do nothing; an unknown language id does nothing |
| InterviewHook.EditsSpec | homework/howework_2/real_time_coding_platform/src/hooks/useInterviewRoom.ts:112-170 | `updateCode`, `addConsoleMessage` and `clearConsole` rebuild the current room with only the field they name changed, publish it into the map and show it |
| InterviewHook.LeaveRoomSpec | homework/howework_2/real_time_coding_platform/src/hooks/useInterviewRoom.ts:172-187 | leaving clears room, user and connection; the room survives exactly when someone else is in it, and then holds exactly the others; other rooms are kept |
| InterviewHook.UpdateLanguageKeepsOldLanguage | homework/howework_2/real_time_coding_platform/src/hooks/useInterviewRoom.ts:120-135 | as written, the last write of `updateLanguage` has the old language and code plus the announcement |
| InterviewHook.UpdateLanguageCounterexample | homework/howework_2/real_time_coding_platform/src/hooks/useInterviewRoom.ts:120-135 | after creating a JavaScript room, `updateLanguage("python")` leaves the language id "javascript" |
| InterviewHook.UpdateLanguageIntendedSpec | homework/howework_2/real_time_coding_platform/src/hooks/useInterviewRoom.ts:120-135 | the corrected update shows the new language, its starter code and the announcement, and keeps the participants |
| InterviewHook.SharedRooms.constructor | homework/howework_2/real_time_coding_platform/src/hooks/useInterviewRoom.ts:31 | the module-level map starts empty |
| InterviewHook.InterviewRoomHook.constructor | homework/howework_2/real_time_coding_platform/src/hooks/useInterviewRoom.ts:38-42 | the hook starts with no room, no user, not connected, loading |
| InterviewHook.InterviewRoomHook.CreateRoom | homework/howework_2/real_time_coding_platform/src/hooks/useInterviewRoom.ts:45-78 | returns the new id and ends as `CreateRoomStep` |
| InterviewHook.InterviewRoomHook.JoinRoom | homework/howework_2/real_time_coding_platform/src/hooks/useInterviewRoom.ts:80-110 | returns whether the room exists and ends as `JoinRoomStep` |
| InterviewHook.InterviewRoomHook.UpdateCode | homework/howework_2/real_time_coding_platform/src/hooks/useInterviewRoom.ts:112-118 | ends as `UpdateCodeStep` |
| InterviewHook.InterviewRoomHook.AddMessageFromSnapshot | homework/howework_2/real_time_coding_platform/src/hooks/useInterviewRoom.ts:137-154 | the body of `addConsoleMessage` over a captured room ends as `AddMessageFrom` |
| InterviewHook.InterviewRoomHook.AddConsoleMessage | homework/howework_2/real_time_coding_platform/src/hooks/useInterviewRoom.ts:137-154 | ends as `AddConsoleMessageStep` |
| InterviewHook.InterviewRoomHook.UpdateLanguage | homework/howework_2/real_time_coding_platform/src/hooks/useInterviewRoom.ts:120-135 | ends as the as-written `UpdateLanguageStep`, stale snapshot included |
| InterviewHook.InterviewRoomHook.UpdateLanguageCorrected | homework/howework_2/real_time_coding_platform/src/hooks/useInterviewRoom.ts:120-135 | the corrected handler ends as `UpdateLanguageIntended` |
| InterviewHook.InterviewRoomHook.ClearConsole | homework/howework_2/real_time_coding_platform/src/hooks/useInterviewRoom.ts:156-170 | ends as `ClearConsoleStep` |
| InterviewHook.InterviewRoomHook.LeaveRoom | homework/howework_2/real_time_coding_platform/src/hooks/useInterviewRoom.ts:172-187 | ends as `LeaveRoomStep` |
| LegacyServer.FreshRoom | homework/howework_2/real_time_coding_platform/server/index.js:86-94 | a new room has empty code, the javascript language and no users |
| LegacyServer.EnsureRoom | homework/howework_2/real_time_coding_platform/server/index.js:56-64 | a missing room is created fresh; an existing one is kept |
| LegacyServer.RemoveFirst | homework/howework_2/real_time_coding_platform/server/index.js:140-142 | `splice(indexOf(x), 1)` removes one element when `x` is present and nothing otherwise |
| LegacyServer.PostRoomStep | homework/howework_2/real_time_coding_platform/server/index.js:40-50 | `POST /api/rooms` stores a fresh room under the new id (stated by `PostRoomSpec`) |
| LegacyServer.GetRoomStep | homework/howework_2/real_time_coding_platform/server/index.js:52-69 | `GET /api/rooms/:id` creates a missing room and always answers that it exists (stated by `GetRoomSpec`) |
| LegacyServer.JoinStep | homework/howework_2/real_time_coding_platform/server/index.js:82-113 | `join-room` appends the socket and reports the count to the joiner and the others (stated by `JoinSpec`) |
| LegacyServer.CodeChangeStep | homework/howework_2/real_time_coding_platform/server/index.js:115-121 | `code-change` updates and relays for a known room only (stated by `ChangeSpec`) |
| LegacyServer.LanguageChangeStep | homework/howework_2/real_time_coding_platform/server/index.js:123-129 | `language-change` updates and relays for a known room only (stated by `ChangeSpec`) |
| LegacyServer.ConsoleOutputStep | homework/howework_2/real_time_coding_platform/server/index.js:131-133 | `console-output` is relayed and stored nowhere (stated by `ConsoleOutputChangesNothing`) |
| LegacyServer.WithoutSocket | homework/howework_2/real_time_coding_platform/server/index.js:140-142 | one room after the splice of the socket id |
| LegacyServer.DisconnectRooms | homework/howework_2/real_time_coding_platform/server/index.js:135-149 | every room after `disconnect` (stated by `DisconnectKeepsRooms` and `DisconnectRemovesOne`) |
| LegacyServer.DisconnectReports | homework/howework_2/real_time_coding_platform/server/index.js:143-146 | the `user-left` counts of `disconnect` (stated by `DisconnectReportsSpec`) |
| LegacyServer.PostRoomSpec | homework/howework_2/real_time_coding_platform/server/index.js:40-50 | `POST /api/rooms` adds a fresh empty javascript room under the new id and keeps the others |
| LegacyServer.GetRoomSpec | homework/howework_2/real_time_coding_platform/server/index.js:52-69 | `GET /api/rooms/:id` always answers `exists: true`; it returns a known room unchanged, or creates and returns a fresh one |
| LegacyServer.JoinSpec | homework/howework_2/real_time_coding_platform/server/index.js:82-113 | `join-room` creates the room if needed and appends the socket id; the joiner gets its code, language and count (a fresh room gives "", javascript, 1); the others get the same count |
| LegacyServer.JoinTwiceListedTwice | homework/howework_2/real_time_coding_platform/server/index.js:97 | a socket that joins twice is listed twice |
| LegacyServer.ChangeSpec | homework/howework_2/real_time_coding_platform/server/index.js:115-129 | code and language changes update only a known room and broadcast nothing for an unknown one |
| LegacyServer.ConsoleOutputChangesNothing | homework/howework_2/real_time_coding_platform/server/index.js:131-133 | console output is relayed and changes no room |
| LegacyServer.RemoveFirstSpec | homework/howework_2/real_time_coding_platform/server/index.js:140-142 | the splice removes exactly one occurrence, the first (as a multiset: the multiset minus one copy) |
| LegacyServer.RemoveFirstAfterAppend | homework/howework_2/real_time_coding_platform/server/index.js:97-142 | removing an id that was just appended to an id-free list restores that list |
| LegacyServer.DisconnectKeepsRooms | homework/howework_2/real_time_coding_platform/server/index.js:135-149 | disconnect deletes no room and changes only the user lists that held the socket |
| LegacyServer.DisconnectRemovesOne | homework/howework_2/real_time_coding_platform/server/index.js:139-147 | in every room that held the socket, one copy of it is removed |
| LegacyServer.DisconnectReportsSpec | homework/howework_2/real_time_coding_platform/server/index.js:143-146 | `user-left` is sent to exactly the rooms that held the socket, with their new count |
| LegacyServer.JoinThenDisconnect | homework/howework_2/real_time_coding_platform/server/index.js:82-149 | a socket that joined once and then disconnects leaves the rooms as they were, except that the room now exists |
| LegacyServer.DisconnectAfterAppend | homework/howework_2/real_time_coding_platform/server/index.js:97-149 | appending an absent socket id to a room and then disconnecting it restores the map |
| LegacyServer.LegacyRoomServer.constructor | homework/howework_2/real_time_coding_platform/server/index.js:33 | the server starts with no rooms |
| LegacyServer.LegacyRoomServer.PostRoom | homework/howework_2/real_time_coding_platform/server/index.js:40-50 | answers the new id and ends as `PostRoomStep` |
| LegacyServer.LegacyRoomServer.GetRoom | homework/howework_2/real_time_coding_platform/server/index.js:52-69 | ends as `GetRoomStep` |
| LegacyServer.LegacyRoomServer.JoinRoom | homework/howework_2/real_time_coding_platform/server/index.js:82-113 | ends as `JoinStep`, returning both emitted payloads |
| LegacyServer.LegacyRoomServer.CodeChange | homework/howework_2/real_time_coding_platform/server/index.js:115-121 | ends as `CodeChangeStep` |
| LegacyServer.LegacyRoomServer.LanguageChange | homework/howework_2/real_time_coding_platform/server/index.js:123-129 | ends as `LanguageChangeStep` |
| LegacyServer.LegacyRoomServer.ConsoleOutputRelay | homework/howework_2/real_time_coding_platform/server/index.js:131-133 | relays the output and changes nothing |
| LegacyServer.LegacyRoomServer.LeaveOnDisconnect | homework/howework_2/real_time_coding_platform/server/index.js:140-146 | one `forEach` step: splices the socket out of one room and reports its new count when it was there |
| LegacyServer.LegacyRoomServer.Disconnect | homework/howework_2/real_time_coding_platform/server/index.js:135-149 | the loop over all rooms ends with `DisconnectRooms` and reports exactly `DisconnectReports` |
| RoomPage.NonBlank | homework/howework_2/real_time_coding_platform/client/src/pages/Room.jsx:134 | filtering out blank lines never adds lines |
| RoomPage.NonBlankMembers | homework/howework_2/real_time_coding_platform/client/src/pages/Room.jsx:134 | a line survives the filter exactly when it is in the output and does not trim to empty |
| RoomPage.NonBlankAppend | homework/howework_2/real_time_coding_platform/client/src/pages/Room.jsx:134 | filtering a concatenation filters each part, so the kept lines keep their order and duplicates |
| RoomPage.NonBlankSingleton | homework/howework_2/real_time_coding_platform/client/src/pages/Room.jsx:134 | one line is kept exactly when it is not blank; with the append rule this makes the filter exactly `filter(line => line.trim())` |
| RoomPage.DefaultLines | homework/howework_2/real_time_coding_platform/client/src/pages/Room.jsx:139 | each kept line becomes one default-type line with the result timestamp |
| RoomPage.ResultLines | homework/howework_2/real_time_coding_platform/client/src/pages/Room.jsx:129-143 | the lines a resolved result adds (stated by `ResultLinesSpec`) |
| RoomPage.ResultLinesSpec | homework/howework_2/real_time_coding_platform/client/src/pages/Room.jsx:129-143 | an error gives one error line; output without any non-blank line gives the "executed successfully (no output)" line; output with such lines gives one default line each, then "Execution completed"; a missing output throws |
| RoomPage.SingleLineOutput | homework/howework_2/real_time_coding_platform/client/src/pages/Room.jsx:134-142 | single-line output gives that line plus "Execution completed", or the no-output line when it is blank |
| RoomPage.RunAppends | homework/howework_2/real_time_coding_platform/client/src/pages/Room.jsx:105-160 | a run keeps the earlier log and appends the two start lines naming the language, then the result lines; code and language are unchanged |
| RoomPage.LogOnlyGrows | homework/howework_2/real_time_coding_platform/client/src/pages/Room.jsx:32-169 | every event except clearing only appends to the output log; clearing empties it |
| RoomPage.LogOnlyGrowsAcross | homework/howework_2/real_time_coding_platform/client/src/pages/Room.jsx:32-169 | across any sequence of events without a clear, the log only grows |
| RoomPage.PythonTemplateHasPrint | homework/howework_2/real_time_coding_platform/client/src/pages/Room.jsx:86 | the Python template contains "print" |
| RoomPage.JavaScriptTemplateHasConsoleLog | homework/howework_2/real_time_coding_platform/client/src/pages/Room.jsx:88 | the JavaScript template contains "console.log" |
| RoomPage.CodeAfterSwitch | homework/howework_2/real_time_coding_platform/client/src/pages/Room.jsx:84-89 | the code after choosing a language (stated by `CodeAfterSwitchSpec`) |
| RoomPage.CodeAfterSwitchSpec | homework/howework_2/real_time_coding_platform/client/src/pages/Room.jsx:80-90 | switching to python or javascript resets the code to that template exactly when the code lacks the language's marker (or already is the template); other languages keep the code; switching twice equals switching once |
| RoomPage.SocketEventsSpec | homework/howework_2/real_time_coding_platform/client/src/pages/Room.jsx:32-55 | `room-state` sets code and language only when truthy and the count to `userCount \|\| 1`, stopping loading; `user-joined` and `user-left` set the count and append their info line |
| RoomPage.CountOrOne | homework/howework_2/real_time_coding_platform/client/src/pages/Room.jsx:35 | `userCount \|\| 1`: a missing or zero count reads as one |
| RoomPage.Apply | homework/howework_2/real_time_coding_platform/client/src/pages/Room.jsx:27-169 | the page state after each socket event or local action (stated by `SocketEventsSpec`, `RunAppends`, `LogOnlyGrows` and `CodeAfterSwitchSpec`) |
| RoomPage.Outgoing | homework/howework_2/real_time_coding_platform/client/src/pages/Room.jsx:27-156 | the messages each event sends: join on connect, the code on an edit, the language on a switch, and two console-output batches on a run |
| RoomPage.RunBroadcastsItsLines | homework/howework_2/real_time_coding_platform/client/src/pages/Room.jsx:105-157 | a run sends, in two console-output messages for this room, exactly the lines it appends to its own log, in order |
| RoomPage.EditsBroadcastNewState | homework/howework_2/real_time_coding_platform/client/src/pages/Room.jsx:73-94 | an edit sends the code the page now shows and a switch the language it now has, never the starter code, so a peer keeps its own code |
| RoomPage.OnlyLocalActionsSend | homework/howework_2/real_time_coding_platform/client/src/pages/Room.jsx:27-169 | only connecting, editing, switching language and running send anything |
| RoomPage.RoomView.constructor | homework/howework_2/real_time_coding_platform/client/src/pages/Room.jsx:10-18 | the page for the URL's room starts with the JavaScript welcome code, javascript, an empty log, one user, loading |
| RoomPage.RoomView.OnConnect | homework/howework_2/real_time_coding_platform/client/src/pages/Room.jsx:27-30 | the connect handler sends `join-room` for this room and changes no state |
| RoomPage.RoomView.OnRoomState | homework/howework_2/real_time_coding_platform/client/src/pages/Room.jsx:32-37 | ends as `Apply` of the room-state event |
| RoomPage.RoomView.OnCodeUpdate | homework/howework_2/real_time_coding_platform/client/src/pages/Room.jsx:39-41 | ends as `Apply` of the code update |
| RoomPage.RoomView.OnLanguageUpdate | homework/howework_2/real_time_coding_platform/client/src/pages/Room.jsx:43-45 | ends as `Apply` of the language update |
| RoomPage.RoomView.OnUserJoined | homework/howework_2/real_time_coding_platform/client/src/pages/Room.jsx:47-50 | ends as `Apply` of user-joined |
| RoomPage.RoomView.OnUserLeft | homework/howework_2/real_time_coding_platform/client/src/pages/Room.jsx:52-55 | ends as `Apply` of user-left |
| RoomPage.RoomView.OnConsoleOutput | homework/howework_2/real_time_coding_platform/client/src/pages/Room.jsx:57-59 | ends as `Apply` of the relayed output |
| RoomPage.RoomView.OnConnectError | homework/howework_2/real_time_coding_platform/client/src/pages/Room.jsx:61-64 | ends as `Apply` of the connection error |
| RoomPage.RoomView.HandleCodeChange | homework/howework_2/real_time_coding_platform/client/src/pages/Room.jsx:73-78 | ends as `Apply` of the local edit and, with a socket, sends the `Outgoing` code change |
| RoomPage.RoomView.HandleLanguageChange | homework/howework_2/real_time_coding_platform/client/src/pages/Room.jsx:80-94 | ends as `Apply` of the language selection and, with a socket, sends the `Outgoing` language change |
| RoomPage.RoomView.HandleRunCode | homework/howework_2/real_time_coding_platform/client/src/pages/Room.jsx:105-160 | ends as `Apply` of the run and, with a socket, sends the two `Outgoing` console-output batches |
| RoomPage.RoomView.ClearOutput | homework/howework_2/real_time_coding_platform/client/src/pages/Room.jsx:162-164 | ends with an empty log |
| RoomPage.RoomView.CopyRoomLink | homework/howework_2/real_time_coding_platform/client/src/pages/Room.jsx:166-169 | ends as `Apply` of the copy, which appends the "link copied" line |
| HomePage.RoomPath | homework/howework_2/real_time_coding_platform/client/src/pages/Home.jsx:51 | the destination is "/room/" followed by the id |
| HomePage.TargetRoomId | homework/howework_2/real_time_coding_platform/client/src/pages/Home.jsx:37-49 | the id taken from a trimmed input (stated by `PlainInputKept`, `NoRoomSegmentKept` and `LinkSegmentExtracted`) |
| HomePage.JoinTarget | homework/howework_2/real_time_coding_platform/client/src/pages/Home.jsx:29-52 | what joining does with the input (stated by `BlankInputRefused` and `DestinationIsRoomPath`) |
| HomePage.BlankInputRefused | homework/howework_2/real_time_coding_platform/client/src/pages/Home.jsx:31-34 | the input is refused with "Please enter a Room ID or URL" exactly when it is whitespace only; otherwise the page navigates |
| HomePage.DestinationIsRoomPath | homework/howework_2/real_time_coding_platform/client/src/pages/Home.jsx:37-51 | every navigation goes to "/room/" followed by the id extracted from the trimmed input |
| HomePage.PlainInputKept | homework/howework_2/real_time_coding_platform/client/src/pages/Home.jsx:39-49 | input without "/room/", or input that does not parse as a URL, is used as the id unchanged |
| HomePage.NoRoomSegmentKept | homework/howework_2/real_time_coding_platform/client/src/pages/Home.jsx:42-45 | a pathname with no "room" segment, or with "room" as the last segment, keeps the trimmed input |
| HomePage.LinkSegmentExtracted | homework/howework_2/real_time_coding_platform/client/src/pages/Home.jsx:39-45 | for a parsed link, the id is the segment right after the first "room" segment |
| HomePage.RoomLinkId | homework/howework_2/real_time_coding_platform/client/src/pages/Home.jsx:39-45 | the usual link with pathname "/room/<id>" yields that id |
| HomePage.JoinFromRoomLink | homework/howework_2/real_time_coding_platform/client/src/pages/Home.jsx:29-52 | pasting such a link navigates to "/room/<id>"; a link ending in "/room/" navigates to "/room/" |
| HomePage.HomeView.constructor | homework/howework_2/real_time_coding_platform/client/src/pages/Home.jsx:29-34 | the page starts with an empty input and no error |
| HomePage.HomeView.JoinRoom | homework/howework_2/real_time_coding_platform/client/src/pages/Home.jsx:29-52 | a blank input sets the error message and does not navigate; otherwise it navigates to the `JoinTarget` path and leaves the error as it was |

## Left out

- The transports are not modelled: Socket.IO delivery and its `to`
  rooms, HTTP beyond the status and payload of a response, React rendering
  and logging. What the legacy server emits and what the room page sends
  (`Outgoing`) are returned by their methods.
- SocketRooms.SocketConnection: the `room:updated`, `participant:joined`,
  `participant:left` and `error` emits of the Socket.IO server are not
  returned. Each `room:updated` carries the room the handler has just
  stored, which the registry state holds. The acknowledgement callbacks
  are returned.
- The `Allow` header lists of the class-based views are sets, so their
  order is not modelled, and a HEAD response is the GET response; dropping
  the body is the server's business.
- TodoViews.EditKeepsInvariant, ToggleKeepsInvariant and the `Edit`,
  `EditFrom` and `Toggle` methods assume a clock that has not run backward
  since a row was last saved. Without it, `updated_at` could fall before
  `created_at`; Django's clock gives no such guarantee either.
- Django messages (`messages.success`) are left out. Because they are not
  modelled, the create, update and delete flash texts are absent.
- Templates, `ModelForm` widgets and labels are left out, and so is the
  admin.
- Query-string parsing of `?page=` is left out. A page request is already
  one of: absent, a number, `last`, or not a number.
- The hook's 500 ms polling effect (useInterviewRoom.ts:189-205) and its
  mount effect (useInterviewRoom.ts:207-218) are left out. The mount effect
  shows the stored room for the URL's id and ends loading.
- The hook's `@/lib/languages` is not part of this model. The default
  language and the lookup are parameters of the hook class.
- Code execution (`codeRunner.js`) and the Pyodide loader are left out;
  a run's outcome is an input. The `isRunning` and `pyodideLoading`
  spinners are also left out.
- The clipboard write in `copyRoomLink` is left out. Only the log line is
  modelled.
- The await in `handleRunCode` is not modelled. Events that arrive while a
  run is pending are not interleaved: a run is one step that appends its
  start lines and then its result lines.
- The browser's URL parser is not modelled; its pathname result, or a
  failure, is a parameter.
- Home page room creation and navigation are left out; `navigate` is
  returned as a destination.
- JavaScript aliasing is not captured. Rooms are values, so the hook's map
  entry and the hook's `room` snapshot never share mutations.
- `forEach` visits the legacy server's rooms in its own order. The model's
  loop picks rooms in any order and proves the same final state for every
  order.
- Handlers are atomic steps and sockets are not concurrent.
- Django's date parser is a function parameter; its input formats are not
  modelled.
- Timestamps are opaque values (an integer instant or a string); the clock
  is a parameter.
- TodoModels.Create, TodoViews.ValidCreateAddsOne and the room handlers
  read the clock once per operation. Django stamps `created_at` and
  `updated_at` with two separate `timezone.now()` calls, one in each
  field's `pre_save`, so the two can differ slightly. The hook's
  `createRoom`/`joinRoom` and the socket handlers call `new Date()` once
  per field. No proved property depends on this: `created_at <= updated_at`
  holds either way.

## Findings

| source | as written | input that shows it | evidently intended | confidence | as-written member | corrected member |
|---|---|---|---|---|---|---|
| homework/howework_2/real_time_coding_platform/src/hooks/useInterviewRoom.ts:120-135 | `updateLanguage` publishes the room with the new language and code, then calls `addConsoleMessage`. That callback rebuilds from the same pre-update `room`. Its write and `setRoom` replace the first ones, so the room keeps the old language and code. | create a room (JavaScript), then `updateLanguage('python')`: the language id stays "javascript", against `src/__tests__/useInterviewRoom.test.ts:106-111` | the shown room has the new language, its starter code and the "Language changed to" message | medium, not executed | InterviewHook.UpdateLanguageCounterexample | InterviewHook.UpdateLanguageIntendedSpec |
