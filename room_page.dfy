/** The room page of the collaborative editor: its code, language, user
    count and output log, the socket events that update them, and the local
    actions (editing, switching language, running the code, clearing the log
    and copying the room link). Running the code is an external call; its
    outcome is a parameter, as are the clock readings. */
module RoomPage {
  import opened Common

  datatype LineType = InfoLine | ErrorLine | SuccessLine | DefaultLine

  /** One entry of the output log; lines written by the socket handlers and
      by the link copy carry no timestamp. */
  datatype OutputLine = OutputLine(kind: LineType, text: string, timestamp: Option<string>)

  /** The page's React state (the running and loading spinners of the
      Python runtime are not part of it). */
  datatype ViewState = ViewState(
    code: string,
    language: string,
    output: seq<OutputLine>,
    userCount: int,
    isLoading: bool)

  const JavaScriptTemplate := "// Welcome to CodeSync!\n// Start coding here...\n\nconsole.log(\"Hello, World!\");"
  const PythonTemplate := "# Welcome to CodeSync!\n# Start coding here...\n\nprint(\"Hello, World!\")"

  /** The state the page mounts with. */
  const InitialView := ViewState(JavaScriptTemplate, "javascript", [], 1, true)

  // ---------------------------------------------------------------------
  // Formatting a run result
  // ---------------------------------------------------------------------

  /** What the code runner resolves with: an `error` or an `output` field. */
  datatype RunResult = RunResult(error: Option<string>, output: Option<string>)

  /** A line that `line.trim()` leaves empty. */
  predicate Blank(line: string)
  {
    Trim(line, JsWhitespace) == ""
  }

  /** `lines.filter(line => line.trim())`. */
  function NonBlank(lines: seq<string>): (r: seq<string>)
    ensures |r| <= |lines|
  {
    if lines == [] then []
    else if Blank(lines[0]) then NonBlank(lines[1..])
    else [lines[0]] + NonBlank(lines[1..])
  }

  /** The lines kept are exactly the non-blank ones. */
  lemma {:induction false} NonBlankMembers(lines: seq<string>)
    ensures forall x :: x in NonBlank(lines) <==> x in lines && !Blank(x)
  {
    if lines != [] {
      NonBlankMembers(lines[1..]);
      assert lines == [lines[0]] + lines[1..];
    }
  }

  /** Filtering a concatenation filters each part: the lines kept stay in
      their order, duplicates included; with `NonBlankSingleton` this pins
      the result down as exactly `filter(line => line.trim())`. */
  lemma {:induction false} NonBlankAppend(a: seq<string>, b: seq<string>)
    ensures NonBlank(a + b) == NonBlank(a) + NonBlank(b)
  {
    if a == [] {
      assert a + b == b;
    } else {
      assert (a + b)[0] == a[0];
      assert (a + b)[1..] == a[1..] + b;
      NonBlankAppend(a[1..], b);
    }
  }

  /** The output lines, one `default` line per line of text. */
  function DefaultLines(lines: seq<string>, ts: string): (r: seq<OutputLine>)
    ensures |r| == |lines|
    ensures forall k :: 0 <= k < |r| ==> r[k] == OutputLine(DefaultLine, lines[k], Some(ts))
  {
    if lines == [] then [] else [OutputLine(DefaultLine, lines[0], Some(ts))] + DefaultLines(lines[1..], ts)
  }

  const NoOutputText := "✓ Code executed successfully (no output)"
  const CompletedText := "✓ Execution completed"

  /** The log lines for a resolved result, or `None` when building them
      throws because the result has a falsy `error` and no `output`. */
  function ResultLines(result: RunResult, ts: string): Option<seq<OutputLine>>
  {
    if Truthy(result.error) then Some([OutputLine(ErrorLine, result.error.value, Some(ts))])
    else if result.output.None? then None
    else Some(OutputLines(NonBlank(Split(result.output.value, '\n')), ts))
  }

  /** The lines for the non-blank lines of a result's output. */
  function OutputLines(outputLines: seq<string>, ts: string): seq<OutputLine>
  {
    if |outputLines| == 0 then [OutputLine(SuccessLine, NoOutputText, Some(ts))]
    else DefaultLines(outputLines, ts) + [OutputLine(SuccessLine, CompletedText, Some(ts))]
  }

  /** How the awaited run ends: it resolves with a result, or it throws. */
  datatype RunOutcome = Resolved(result: RunResult) | Rejected(message: string)

  /** The clock readings of one run: the start lines, the result lines, the
      error line. `typeErrorMessage` is the message of the exception thrown
      when a result has neither a truthy error nor an output. */
  datatype RunStamps = RunStamps(start: string, result: string, error: string, typeErrorMessage: string)

  function CaughtLine(message: string, ts: string): OutputLine
  {
    OutputLine(ErrorLine, "Error: " + message, Some(ts))
  }

  /** The lines a run adds after its two start lines. */
  function RunResultLines(outcome: RunOutcome, stamps: RunStamps): seq<OutputLine>
  {
    match outcome
    case Rejected(message) => [CaughtLine(message, stamps.error)]
    case Resolved(result) =>
      var lines := ResultLines(result, stamps.result);
      if lines.Some? then lines.value else [CaughtLine(stamps.typeErrorMessage, stamps.error)]
  }

  /** The two lines every run starts with. */
  function StartLines(language: string, ts: string): seq<OutputLine>
  {
    [OutputLine(InfoLine, "\n--- Output from " + language + " execution ---", Some(ts)),
     OutputLine(InfoLine, "▶ Running " + language + "...", Some(ts))]
  }

  // ---------------------------------------------------------------------
  // Switching language
  // ---------------------------------------------------------------------

  /** The code after `handleLanguageChange`: the Python or JavaScript
      starter replaces code that lacks that language's print call; any other
      switch keeps the code. */
  function CodeAfterSwitch(newLang: string, code: string): string
  {
    if newLang == "python" && !Contains(code, "print") then PythonTemplate
    else if newLang == "javascript" && !Contains(code, "console.log") then JavaScriptTemplate
    else code
  }

  // ---------------------------------------------------------------------
  // Events
  // ---------------------------------------------------------------------

  /** The payload of `room-state`; any field may be missing. */
  datatype IncomingRoomState = IncomingRoomState(code: Option<string>, language: Option<string>, userCount: Option<int>)

  /** `state.userCount || 1`. */
  function CountOrOne(c: Option<int>): int
  {
    if c.None? || c.value == 0 then 1 else c.value
  }

  const UserJoinedText := "\U{1F44B} A new user joined the room!"
  const UserLeftText := "\U{1F44B} A user left the room."
  const LinkCopiedText := "\U{1F4CB} Room link copied to clipboard!"

  datatype ViewEvent =
    | RoomStateReceived(state: IncomingRoomState)
    | CodeUpdateReceived(code: string)
    | LanguageUpdateReceived(language: string)
    | UserJoinedReceived(userCount: int)
    | UserLeftReceived(userCount: int)
    | ConsoleOutputReceived(lines: seq<OutputLine>)
    | Connected
    | ConnectionFailed
    | CodeEdited(code: string)
    | LanguageSelected(language: string)
    | CodeRun(outcome: RunOutcome, stamps: RunStamps)
    | OutputCleared
    | RoomLinkCopied

  function Info(text: string): OutputLine
  {
    OutputLine(InfoLine, text, None)
  }

  /** The state after one event, each handler taken as a whole. */
  function Apply(v: ViewState, e: ViewEvent): ViewState
  {
    match e
    case RoomStateReceived(s) =>
      v.(code := if Truthy(s.code) then s.code.value else v.code,
         language := if Truthy(s.language) then s.language.value else v.language,
         userCount := CountOrOne(s.userCount),
         isLoading := false)
    case CodeUpdateReceived(c) => v.(code := c)
    case LanguageUpdateReceived(l) => v.(language := l)
    case UserJoinedReceived(n) => v.(userCount := n, output := v.output + [Info(UserJoinedText)])
    case UserLeftReceived(n) => v.(userCount := n, output := v.output + [Info(UserLeftText)])
    case ConsoleOutputReceived(lines) => v.(output := v.output + lines)
    case Connected => v
    case ConnectionFailed => v.(isLoading := false)
    case CodeEdited(c) => v.(code := c)
    case LanguageSelected(l) => v.(language := l, code := CodeAfterSwitch(l, v.code))
    case CodeRun(outcome, stamps) =>
      v.(output := v.output + StartLines(v.language, stamps.start) + RunResultLines(outcome, stamps))
    case OutputCleared => v.(output := [])
    case RoomLinkCopied => v.(output := v.output + [Info(LinkCopiedText)])
  }

  // ---------------------------------------------------------------------
  // Messages to the server
  // ---------------------------------------------------------------------

  /** What the page sends over its socket; each message names the room. */
  datatype Emit =
    | JoinRoom(roomId: string)
    | CodeChange(roomId: string, code: string)
    | LanguageChange(roomId: string, language: string)
    | ConsoleOutput(roomId: string, output: seq<OutputLine>)

  /** The messages one event makes the page send once it has a socket. The
      connection asks to join the room; an edit sends the new code; a
      language switch sends the language only, not the starter code it may
      put in place; a run sends its two start lines and then its result lines
      (or the caught error) as two console-output messages. Nothing else is
      sent. */
  function Outgoing(v: ViewState, e: ViewEvent, roomId: string): seq<Emit>
  {
    match e
    case Connected => [JoinRoom(roomId)]
    case CodeEdited(c) => [CodeChange(roomId, c)]
    case LanguageSelected(l) => [LanguageChange(roomId, l)]
    case CodeRun(outcome, stamps) =>
      [ConsoleOutput(roomId, StartLines(v.language, stamps.start)),
       ConsoleOutput(roomId, RunResultLines(outcome, stamps))]
    case _ => []
  }

  /** The log lines carried by the console-output messages among `sent`, in
      order. */
  function BroadcastLines(sent: seq<Emit>): seq<OutputLine>
  {
    if sent == [] then []
    else (if sent[0].ConsoleOutput? then sent[0].output else []) + BroadcastLines(sent[1..])
  }

  /** Two console-output messages carry their two batches, in order. */
  lemma BroadcastTwo(roomId: string, first: seq<OutputLine>, second: seq<OutputLine>)
    ensures BroadcastLines([ConsoleOutput(roomId, first), ConsoleOutput(roomId, second)]) == first + second
  {
    var sent := [ConsoleOutput(roomId, first), ConsoleOutput(roomId, second)];
    assert sent[1..] == [ConsoleOutput(roomId, second)];
    assert sent[1..][1..] == [];
    assert BroadcastLines(sent[1..]) == second + [];
  }

  /** A run broadcasts exactly the lines it appends to its own log, in the
      same order, in two messages for this room. */
  lemma RunBroadcastsItsLines(v: ViewState, outcome: RunOutcome, stamps: RunStamps, roomId: string)
    ensures var sent := Outgoing(v, CodeRun(outcome, stamps), roomId);
      && |sent| == 2
      && (forall k :: 0 <= k < |sent| ==> sent[k].ConsoleOutput? && sent[k].roomId == roomId)
      && Apply(v, CodeRun(outcome, stamps)).output == v.output + BroadcastLines(sent)
  {
    var start := StartLines(v.language, stamps.start);
    var rest := RunResultLines(outcome, stamps);
    assert Outgoing(v, CodeRun(outcome, stamps), roomId)
        == [ConsoleOutput(roomId, start), ConsoleOutput(roomId, rest)];
    BroadcastTwo(roomId, start, rest);
    assert v.output + start + rest == v.output + (start + rest);
  }

  /** An edit sends the code the page now shows, so a peer applying the
      relayed update shows the same code; a language switch sends the
      language the page now has, but never the starter code, so a peer keeps
      its own code. */
  lemma EditsBroadcastNewState(v: ViewState, peer: ViewState, c: string, l: string, roomId: string)
    ensures Outgoing(v, CodeEdited(c), roomId) == [CodeChange(roomId, Apply(v, CodeEdited(c)).code)]
    ensures Apply(peer, CodeUpdateReceived(c)).code == Apply(v, CodeEdited(c)).code
    ensures Outgoing(v, LanguageSelected(l), roomId) == [LanguageChange(roomId, Apply(v, LanguageSelected(l)).language)]
    ensures Apply(peer, LanguageUpdateReceived(l)).language == Apply(v, LanguageSelected(l)).language
    ensures Apply(peer, LanguageUpdateReceived(l)).code == peer.code
  {
  }

  /** Only the socket's connection and the three local actions that change
      the shared room (editing, switching language, running) send
      anything. */
  lemma OnlyLocalActionsSend(v: ViewState, e: ViewEvent, roomId: string)
    ensures Outgoing(v, e, roomId) != [] <==> e.Connected? || e.CodeEdited? || e.LanguageSelected? || e.CodeRun?
  {
  }

  // ---------------------------------------------------------------------
  // Properties
  // ---------------------------------------------------------------------

  /** A result with a truthy `error` becomes exactly one error line with
      that text. Otherwise the output is split on newlines and blank lines are
      dropped: with none left, one "no output" success line; else one default
      line per remaining line, in order, then one "completed" success line. */
  lemma ResultLinesSpec(result: RunResult, ts: string)
    ensures Truthy(result.error) ==> ResultLines(result, ts) == Some([OutputLine(ErrorLine, result.error.value, Some(ts))])
    ensures !Truthy(result.error) && result.output.None? ==> ResultLines(result, ts).None?
    ensures !Truthy(result.error) && result.output.Some? ==>
      var kept := NonBlank(Split(result.output.value, '\n'));
      var r := ResultLines(result, ts);
      && r.Some?
      && (kept == [] ==> r.value == [OutputLine(SuccessLine, NoOutputText, Some(ts))])
      && (kept != [] ==>
            && |r.value| == |kept| + 1
            && (forall k :: 0 <= k < |kept| ==> r.value[k] == OutputLine(DefaultLine, kept[k], Some(ts)))
            && r.value[|kept|] == OutputLine(SuccessLine, CompletedText, Some(ts)))
      && (forall x :: x in kept <==> x in Split(result.output.value, '\n') && !Blank(x))
  {
    if result.output.Some? {
      NonBlankMembers(Split(result.output.value, '\n'));
    }
  }

  /** Output of a single line: blank (only whitespace, by `TrimEmptyIff`)
      gives the "no output" line, anything else that line and the
      "completed" line. */
  lemma SingleLineOutput(out: string, ts: string)
    requires '\n' !in out
    ensures Blank(out) ==>
      ResultLines(RunResult(None, Some(out)), ts) == Some([OutputLine(SuccessLine, NoOutputText, Some(ts))])
    ensures !Blank(out) ==>
      ResultLines(RunResult(None, Some(out)), ts)
        == Some([OutputLine(DefaultLine, out, Some(ts)), OutputLine(SuccessLine, CompletedText, Some(ts))])
  {
    SingleLineResult(out, ts);
    NonBlankSingleton(out);
    OutputLinesSingle(out, ts);
  }

  lemma SingleLineResult(out: string, ts: string)
    requires '\n' !in out
    ensures ResultLines(RunResult(None, Some(out)), ts) == Some(OutputLines(NonBlank([out]), ts))
  {
    SplitNoSeparator(out, '\n');
  }

  lemma OutputLinesSingle(x: string, ts: string)
    ensures OutputLines([x], ts) == [OutputLine(DefaultLine, x, Some(ts)), OutputLine(SuccessLine, CompletedText, Some(ts))]
  {
    assert DefaultLines([x], ts) == [OutputLine(DefaultLine, x, Some(ts))];
  }

  lemma NonBlankSingleton(x: string)
    ensures NonBlank([x]) == if Blank(x) then [] else [x]
  {
    assert [x][1..] == [];
  }

  /** A run appends its two start lines, naming the language, and then at
      least one result line; nothing earlier is lost. */
  lemma RunAppends(v: ViewState, outcome: RunOutcome, stamps: RunStamps)
    ensures var w := Apply(v, CodeRun(outcome, stamps));
      && |w.output| >= |v.output| + 3
      && w.output[..|v.output|] == v.output
      && w.output[|v.output|].text == "\n--- Output from " + v.language + " execution ---"
      && w.output[|v.output| + 1].text == "▶ Running " + v.language + "..."
      && w.output[|v.output| + 2..] == RunResultLines(outcome, stamps)
      && w.code == v.code && w.language == v.language
  {
    var w := Apply(v, CodeRun(outcome, stamps));
    match outcome
    case Rejected(_) =>
    case Resolved(result) =>
      ResultLinesSpec(result, stamps.result);
    assert w.output[..|v.output|] == v.output;
    assert w.output == v.output + StartLines(v.language, stamps.start) + RunResultLines(outcome, stamps);
  }

  /** The log only grows: every event but `clearOutput` keeps the earlier
      entries as a prefix, and `clearOutput` empties it. */
  lemma LogOnlyGrows(v: ViewState, e: ViewEvent)
    ensures e != OutputCleared ==> v.output <= Apply(v, e).output
    ensures e == OutputCleared ==> Apply(v, e).output == []
  {
    match e
    case CodeRun(outcome, stamps) => RunAppends(v, outcome, stamps);
    case UserJoinedReceived(_) => assert v.output <= v.output + [Info(UserJoinedText)];
    case UserLeftReceived(_) => assert v.output <= v.output + [Info(UserLeftText)];
    case RoomLinkCopied => assert v.output <= v.output + [Info(LinkCopiedText)];
    case ConsoleOutputReceived(lines) => assert v.output <= v.output + lines;
    case _ =>
  }

  /** Over any sequence of events without `clearOutput`, the starting log
      stays a prefix of the log. */
  lemma {:induction false} LogOnlyGrowsAcross(v: ViewState, es: seq<ViewEvent>)
    requires forall k :: 0 <= k < |es| ==> es[k] != OutputCleared
    ensures v.output <= ApplyAll(v, es).output
    decreases |es|
  {
    if es != [] {
      LogOnlyGrows(v, es[0]);
      LogOnlyGrowsAcross(Apply(v, es[0]), es[1..]);
    }
  }

  function ApplyAll(v: ViewState, es: seq<ViewEvent>): ViewState
    decreases |es|
  {
    if es == [] then v else ApplyAll(Apply(v, es[0]), es[1..])
  }

  lemma PythonTemplateHasPrint()
    ensures Contains(PythonTemplate, "print")
  {
    assert PythonTemplate[47..52] == "print" by {
      assert PythonTemplate[47] == 'p' && PythonTemplate[48] == 'r' && PythonTemplate[49] == 'i';
      assert PythonTemplate[50] == 'n' && PythonTemplate[51] == 't';
    }
    assert OccursAt(PythonTemplate, "print", 47);
  }

  lemma JavaScriptTemplateHasConsoleLog()
    ensures Contains(JavaScriptTemplate, "console.log")
  {
    assert JavaScriptTemplate[49..60] == "console.log" by {
      assert JavaScriptTemplate[49] == 'c' && JavaScriptTemplate[50] == 'o' && JavaScriptTemplate[51] == 'n';
      assert JavaScriptTemplate[52] == 's' && JavaScriptTemplate[53] == 'o' && JavaScriptTemplate[54] == 'l';
      assert JavaScriptTemplate[55] == 'e' && JavaScriptTemplate[56] == '.' && JavaScriptTemplate[57] == 'l';
      assert JavaScriptTemplate[58] == 'o' && JavaScriptTemplate[59] == 'g';
    }
    assert OccursAt(JavaScriptTemplate, "console.log", 49);
  }

  /** Switching to Python installs the Python starter exactly when the
      code lacks "print"; switching to JavaScript installs the JavaScript
      starter exactly when it lacks "console.log"; any other language keeps
      the code. Switching twice to the same language is the same as once. */
  lemma CodeAfterSwitchSpec(newLang: string, code: string)
    ensures newLang == "python" ==>
      (CodeAfterSwitch(newLang, code) == PythonTemplate <==> !Contains(code, "print") || code == PythonTemplate)
    ensures newLang == "python" && Contains(code, "print") ==> CodeAfterSwitch(newLang, code) == code
    ensures newLang == "javascript" ==>
      (CodeAfterSwitch(newLang, code) == JavaScriptTemplate <==> !Contains(code, "console.log") || code == JavaScriptTemplate)
    ensures newLang == "javascript" && Contains(code, "console.log") ==> CodeAfterSwitch(newLang, code) == code
    ensures newLang != "python" && newLang != "javascript" ==> CodeAfterSwitch(newLang, code) == code
    ensures CodeAfterSwitch(newLang, CodeAfterSwitch(newLang, code)) == CodeAfterSwitch(newLang, code)
  {
    PythonTemplateHasPrint();
    JavaScriptTemplateHasConsoleLog();
  }

  /** `room-state` keeps the current code and language when the incoming
      ones are empty or missing, counts a zero or missing user count as 1,
      and ends loading; the log is untouched. `user-joined` and `user-left`
      set the count as given and append exactly one info line. */
  lemma SocketEventsSpec(v: ViewState, s: IncomingRoomState, n: int)
    ensures var w := Apply(v, RoomStateReceived(s));
      && (!Truthy(s.code) ==> w.code == v.code) && (Truthy(s.code) ==> w.code == s.code.value)
      && (!Truthy(s.language) ==> w.language == v.language)
      && (Truthy(s.language) ==> w.language == s.language.value)
      && (s.userCount.None? || s.userCount == Some(0) ==> w.userCount == 1)
      && (s.userCount.Some? && s.userCount.value != 0 ==> w.userCount == s.userCount.value)
      && w.output == v.output && !w.isLoading
    ensures var w := Apply(v, UserJoinedReceived(n));
      w.userCount == n && w.output == v.output + [OutputLine(InfoLine, UserJoinedText, None)]
    ensures var w := Apply(v, UserLeftReceived(n));
      w.userCount == n && w.output == v.output + [OutputLine(InfoLine, UserLeftText, None)]
  {
  }

  // ---------------------------------------------------------------------
  // The page, updated in place
  // ---------------------------------------------------------------------

  class RoomView {
    /** The room id taken from the page's URL. */
    const roomId: string
    var code: string
    var language: string
    var output: seq<OutputLine>
    var userCount: int
    var isLoading: bool

    function State(): ViewState
      reads this
    {
      ViewState(code, language, output, userCount, isLoading)
    }

    constructor (roomId: string)
      ensures State() == InitialView && this.roomId == roomId
    {
      this.roomId := roomId;
      code := JavaScriptTemplate;
      language := "javascript";
      output := [];
      userCount := 1;
      isLoading := true;
    }

    /** The socket's `connect` handler asks to join the room. */
    method OnConnect() returns (sent: seq<Emit>)
      ensures State() == Apply(State(), Connected)
      ensures sent == Outgoing(State(), Connected, roomId)
    {
      sent := [JoinRoom(roomId)];
    }

    method OnRoomState(state: IncomingRoomState)
      modifies this
      ensures State() == Apply(old(State()), RoomStateReceived(state))
    {
      if Truthy(state.code) { code := state.code.value; }
      if Truthy(state.language) { language := state.language.value; }
      userCount := if state.userCount.None? || state.userCount.value == 0 then 1 else state.userCount.value;
      isLoading := false;
    }

    method OnCodeUpdate(newCode: string)
      modifies this
      ensures State() == Apply(old(State()), CodeUpdateReceived(newCode))
    {
      code := newCode;
    }

    method OnLanguageUpdate(newLang: string)
      modifies this
      ensures State() == Apply(old(State()), LanguageUpdateReceived(newLang))
    {
      language := newLang;
    }

    method OnUserJoined(count: int)
      modifies this
      ensures State() == Apply(old(State()), UserJoinedReceived(count))
    {
      userCount := count;
      output := output + [OutputLine(InfoLine, UserJoinedText, None)];
    }

    method OnUserLeft(count: int)
      modifies this
      ensures State() == Apply(old(State()), UserLeftReceived(count))
    {
      userCount := count;
      output := output + [OutputLine(InfoLine, UserLeftText, None)];
    }

    method OnConsoleOutput(remoteOutput: seq<OutputLine>)
      modifies this
      ensures State() == Apply(old(State()), ConsoleOutputReceived(remoteOutput))
    {
      output := output + remoteOutput;
    }

    method OnConnectError()
      modifies this
      ensures State() == Apply(old(State()), ConnectionFailed)
    {
      isLoading := false;
    }

    /** The local handlers send their messages only once the socket is
        known to the page (`connected`). */
    method HandleCodeChange(newCode: string, connected: bool) returns (sent: seq<Emit>)
      modifies this
      ensures State() == Apply(old(State()), CodeEdited(newCode))
      ensures sent == if connected then Outgoing(old(State()), CodeEdited(newCode), roomId) else []
    {
      code := newCode;
      sent := [];
      if connected {
        sent := [CodeChange(roomId, newCode)];
      }
    }

    method HandleLanguageChange(newLang: string, connected: bool) returns (sent: seq<Emit>)
      modifies this
      ensures State() == Apply(old(State()), LanguageSelected(newLang))
      ensures sent == if connected then Outgoing(old(State()), LanguageSelected(newLang), roomId) else []
    {
      var oldCode := code;
      language := newLang;
      if newLang == "python" && !Contains(oldCode, "print") {
        code := PythonTemplate;
      } else if newLang == "javascript" && !Contains(oldCode, "console.log") {
        code := JavaScriptTemplate;
      }
      sent := [];
      if connected {
        sent := [LanguageChange(roomId, newLang)];
      }
    }

    /** `handleRunCode`: the two start lines, then the result lines (or the
        caught error) built up in `newOutput`; each batch is appended to the
        log and sent. */
    method HandleRunCode(outcome: RunOutcome, stamps: RunStamps, connected: bool) returns (sent: seq<Emit>)
      modifies this
      ensures State() == Apply(old(State()), CodeRun(outcome, stamps))
      ensures sent == if connected then Outgoing(old(State()), CodeRun(outcome, stamps), roomId) else []
    {
      var newLog := [OutputLine(InfoLine, "\n--- Output from " + language + " execution ---", Some(stamps.start)),
                     OutputLine(InfoLine, "▶ Running " + language + "...", Some(stamps.start))];
      output := output + newLog;
      sent := [];
      if connected {
        sent := [ConsoleOutput(roomId, newLog)];
      }
      var newOutput: seq<OutputLine> := [];
      if outcome.Rejected? {
        newOutput := [OutputLine(ErrorLine, "Error: " + outcome.message, Some(stamps.error))];
      } else if Truthy(outcome.result.error) {
        newOutput := [OutputLine(ErrorLine, outcome.result.error.value, Some(stamps.result))];
      } else if outcome.result.output.None? {
        newOutput := [OutputLine(ErrorLine, "Error: " + stamps.typeErrorMessage, Some(stamps.error))];
      } else {
        var outputLines := NonBlank(Split(outcome.result.output.value, '\n'));
        if |outputLines| == 0 {
          newOutput := [OutputLine(SuccessLine, NoOutputText, Some(stamps.result))];
        } else {
          newOutput := DefaultLines(outputLines, stamps.result)
            + [OutputLine(SuccessLine, CompletedText, Some(stamps.result))];
        }
      }
      output := output + newOutput;
      if connected {
        sent := sent + [ConsoleOutput(roomId, newOutput)];
      }
    }

    method ClearOutput()
      modifies this
      ensures State() == Apply(old(State()), OutputCleared)
    {
      output := [];
    }

    method CopyRoomLink()
      modifies this
      ensures State() == Apply(old(State()), RoomLinkCopied)
    {
      output := output + [OutputLine(InfoLine, LinkCopiedText, None)];
    }
  }
}
