/**
 * The application's handlers (src/main.cpp): the stream status names, the
 * bus message handler, and the keyboard handler that drives pipe states
 * and the camera LED through the Topology.
 */
module Control {
  import opened Base
  import opened Gst
  import opened RegistrySpec
  import opened RegistryTables
  import opened Registry

  // ------------------------------------------------- stream statuses

  /** The GstStreamStatusType values with a name. */
  const KnownStatuses: set<int> := {0, 1, 2, 3, 8, 9, 10}

  /** gst_stream_status_string */
  function StreamStatusString(status: int): (r: string)
    ensures r == "UNKNOWN" <==> status !in KnownStatuses
  {
    match status
    case 0 => "CREATE"
    case 1 => "ENTER"
    case 2 => "LEAVE"
    case 3 => "DESTROY"
    case 8 => "START"
    case 9 => "PAUSE"
    case 10 => "STOP"
    case _ => "UNKNOWN"
  }

  /** The status a name stands for. */
  function StatusOfName(name: string): Option<int>
  {
    if name == "CREATE" then Some(0)
    else if name == "ENTER" then Some(1)
    else if name == "LEAVE" then Some(2)
    else if name == "DESTROY" then Some(3)
    else if name == "START" then Some(8)
    else if name == "PAUSE" then Some(9)
    else if name == "STOP" then Some(10)
    else None
  }

  /** Every known status has its own name, which reads back as the status;
      every other status is "UNKNOWN", which names none. */
  lemma StreamStatusRoundTrip(status: int)
    ensures StatusOfName(StreamStatusString(status)) ==
              (if status in KnownStatuses then Some(status) else None)
  {
  }

  // ------------------------------------------------- bus messages

  datatype Level = LevelError | LevelWarning | LevelInfo | LevelDebug | LevelLog

  /** The bus messages MessageHandler tells apart. */
  datatype Message =
    | ErrorMsg
    | WarningMsg
    | InfoMsg
    | EosMsg
    | StateChangedMsg(fromPipeline: bool)
    | StreamStatusMsg(status: int)
    | OtherMsg

  /** A log line: its level, its format, and the arguments modelled here
      (element names and GError texts are not). */
  datatype LogLine = LogLine(level: Level, format: string, args: seq<string>)

  /** What the handler logs, and whether the bus watch stays. */
  datatype Handled = Handled(log: Option<LogLine>, keepWatch: bool)

  /** The name of the application's log category. */
  const CategoryName := "GST_APP_MAIN"

  const ReportFormat := "Message received from element %s: %s\nDebugging information: %s"

  /** The level each parsed error, warning and info message is meant to be
      reported at. */
  function MessageLevel(m: Message): Option<Level>
  {
    if m.ErrorMsg? then Some(LevelError)
    else if m.WarningMsg? then Some(LevelWarning)
    else if m.InfoMsg? then Some(LevelInfo)
    else None
  }

  /** The lines logged for the messages that are not reports. */
  function NoticeLine(m: Message): Option<LogLine>
  {
    match m
    case EosMsg => Some(LogLine(LevelError, "End-Of-Stream reached.\n", []))
    case StateChangedMsg(fromPipeline) =>
      if fromPipeline then Some(LogLine(LevelInfo, "%s: %s", []))
      else Some(LogLine(LevelDebug, "State change received from element %s:\n[ %s ]", []))
    case StreamStatusMsg(status) => Some(LogLine(LevelInfo, "Stream[%s]: %s", [StreamStatusString(status)]))
    case _ => None
  }

  /** MessageHandler as written: GST_LOG takes its first argument as the
      format, so a report is logged at the LOG level with the category's
      name as its text, and msg_level is never used. */
  function MessageHandlerAsWritten(m: Message): (h: Handled)
    ensures h.keepWatch
  {
    match m
    case ErrorMsg => Handled(Some(LogLine(LevelLog, CategoryName, [])), true)
    case WarningMsg => Handled(Some(LogLine(LevelLog, CategoryName, [])), true)
    case InfoMsg => Handled(Some(LogLine(LevelLog, CategoryName, [])), true)
    case _ => Handled(NoticeLine(m), true)
  }

  /** MessageHandler as meant: a report is logged at the level its kind
      calls for. The watch always stays. */
  function MessageHandler(m: Message): (h: Handled)
    ensures h.keepWatch
    ensures MessageLevel(m).Some? ==> h.log.Some? && h.log.value.level == MessageLevel(m).value
  {
    match m
    case ErrorMsg => Handled(Some(LogLine(LevelError, ReportFormat, [])), true)
    case WarningMsg => Handled(Some(LogLine(LevelWarning, ReportFormat, [])), true)
    case InfoMsg => Handled(Some(LogLine(LevelInfo, ReportFormat, [])), true)
    case _ => Handled(NoticeLine(m), true)
  }

  /** The finding: as written an error and an info message leave the same
      line, at the LOG level; as meant they are told apart. */
  lemma ReportLevelsCollapsed()
    ensures MessageHandlerAsWritten(ErrorMsg) == MessageHandlerAsWritten(InfoMsg)
    ensures MessageHandlerAsWritten(ErrorMsg).log.value.level == LevelLog
    ensures MessageHandler(ErrorMsg).log != MessageHandler(InfoMsg).log
  {
  }

  /** The two handlers differ only on reports; a stream status is logged
      with its name. */
  lemma HandlersAgreeOnNotices(m: Message)
    requires MessageLevel(m).None?
    ensures MessageHandlerAsWritten(m) == MessageHandler(m)
    ensures m.StreamStatusMsg? ==> MessageHandler(m).log.value.args == [StreamStatusString(m.status)]
  {
  }

  // ------------------------------------------------- keyboard

  /** What a key press asks for. */
  datatype KeyCommand =
    | SetPipeState(pipe: string, state: GstState)
    | Quit
    | ToggleLed
    | Ignore

  /** g_ascii_tolower */
  function AsciiLower(c: char): (r: char)
    ensures 'A' <= c <= 'Z' ==> r as int == c as int + 32
    ensures !('A' <= c <= 'Z') ==> r == c
  {
    if 'A' <= c <= 'Z' then (c as int + 32) as char else c
  }

  /** The key a line stands for: its first character, lowered; an empty
      string has only its terminating NUL. */
  function Key(line: string): char
  {
    AsciiLower(if |line| == 0 then 0 as char else line[0])
  }

  /** The switch of KeyboardHandler. */
  function Dispatch(line: string): KeyCommand
  {
    match Key(line)
    case 'p' => SetPipeState("TestPipe", Playing)
    case '[' => SetPipeState("TestPipe", Paused)
    case ']' => SetPipeState("TestPipe", Ready)
    case 'q' => Quit
    case 'l' => ToggleLed
    case 'w' => SetPipeState("MainPipe", Playing)
    case 'e' => SetPipeState("MainPipe", Paused)
    case 'r' => SetPipeState("MainPipe", Ready)
    case 'a' => SetPipeState("ViewPipe", Playing)
    case 's' => SetPipeState("ViewPipe", Paused)
    case 'd' => SetPipeState("ViewPipe", Ready)
    case _ => Ignore
  }

  /** The pipe keys: key, pipe, state. */
  const KeyTable: seq<(char, string, GstState)> := [
    ('p', "TestPipe", Playing), ('[', "TestPipe", Paused), (']', "TestPipe", Ready),
    ('w', "MainPipe", Playing), ('e', "MainPipe", Paused), ('r', "MainPipe", Ready),
    ('a', "ViewPipe", Playing), ('s', "ViewPipe", Paused), ('d', "ViewPipe", Ready)]

  /** Every key the handler acts on. */
  const CommandKeys: set<char> := {'p', '[', ']', 'q', 'l', 'w', 'e', 'r', 'a', 's', 'd'}

  /** A line sets a pipe's state exactly when its key is in the key table,
      and then it sets the pipe and state the table gives. */
  lemma DispatchFollowsKeyTable(line: string)
    ensures Dispatch(line).SetPipeState? <==> exists i :: 0 <= i < |KeyTable| && KeyTable[i].0 == Key(line)
    ensures forall i :: 0 <= i < |KeyTable| && KeyTable[i].0 == Key(line) ==>
              Dispatch(line) == SetPipeState(KeyTable[i].1, KeyTable[i].2)
  {
    var k := Key(line);
    if k == 'p' { assert KeyTable[0].0 == k; }
    else if k == '[' { assert KeyTable[1].0 == k; }
    else if k == ']' { assert KeyTable[2].0 == k; }
    else if k == 'w' { assert KeyTable[3].0 == k; }
    else if k == 'e' { assert KeyTable[4].0 == k; }
    else if k == 'r' { assert KeyTable[5].0 == k; }
    else if k == 'a' { assert KeyTable[6].0 == k; }
    else if k == 's' { assert KeyTable[7].0 == k; }
    else if k == 'd' { assert KeyTable[8].0 == k; }
  }

  /** Keys are case-insensitive, and a key outside the handler's keys does
      nothing. */
  lemma DispatchIgnoresCase(c: char, rest: string)
    requires 'A' <= c <= 'Z'
    ensures Dispatch([c] + rest) == Dispatch([(c as int + 32) as char] + rest)
    ensures Dispatch([c] + rest) == Ignore <==> AsciiLower(c) !in CommandKeys
  {
  }

  /** The console state the handler works on: the registries and engine,
      the LED flag, and whether Stop has ended the process. */
  datatype Session = Session(w: World, led: bool, exited: bool)

  /** g_object_set of a gboolean, as the engine records it. */
  function BoolValue(b: bool): string
  {
    if b then "TRUE" else "FALSE"
  }

  /** What a key command does: set the state of pipes[pipe], flip the LED
      and set MainSource's "led-power", or stop (tear the topology down
      and exit). */
  function Apply(s: Session, c: KeyCommand): Session
  {
    match c
    case SetPipeState(pipe, state) =>
      var p := Lookup(s.w.pipes, pipe);
      var w1 := s.w.(pipes := Touch(s.w.pipes, pipe));
      s.(w := if p.IsElement() then w1.(states := w1.states[p := state]) else w1)
    case ToggleLed =>
      Session(SetOn(s.w, "MainSource", "led-power", BoolValue(!s.led)), !s.led, s.exited)
    case Quit => Session(Teardown(s.w), s.led, true)
    case Ignore => s
  }

  /** Any line, whatever its case: it is ignored exactly when its key is
      none of the handler's keys, and an ignored line changes nothing. */
  lemma DispatchIgnoresUnknownKeys(s: Session, line: string)
    ensures Dispatch(line) == Ignore <==> Key(line) !in CommandKeys
    ensures Key(line) !in CommandKeys ==> Apply(s, Dispatch(line)) == s
  {
  }

  /** Two presses of 'l' restore the LED flag, and set "led-power" to the
      text of the restored flag. */
  lemma LedTwiceRestores(s: Session)
    ensures Apply(Apply(s, ToggleLed), ToggleLed).led == s.led
    ensures var e := Lookup(s.w.elements, "MainSource");
      e.IsElement() ==> Apply(Apply(s, ToggleLed), ToggleLed).w.props[(e, "led-power")] == BoolValue(s.led)
  {
    RegistryLaws.TouchKeepsLookups(s.w.elements, "MainSource");
  }

  /** A pipe key only looks the pipe up and sets its state; on a name that
      is not a pipe it sets nothing. */
  lemma PipeKeyOnMissingPipe(s: Session, pipe: string, state: GstState)
    requires pipe !in s.w.pipes
    ensures Apply(s, SetPipeState(pipe, state)).w == s.w.(pipes := s.w.pipes[pipe := Null])
  {
  }

  /** On a Topology loaded by LoadJson, no pipe key changes a state and
      'l' sets no property: the names the handler uses are not in the
      tables. */
  lemma KeysIdleAfterLoad(o: Oracle, w0: World, led: bool, line: string)
    requires w0.elements == map[] && w0.pipes == map[]
    ensures var s := Session(Load(o, w0).w, led, false);
      && Apply(s, Dispatch(line)).w.props == s.w.props
      && (!Dispatch(line).Quit? ==> Apply(s, Dispatch(line)).w.states == s.w.states)
  {
    var s := Session(Load(o, w0).w, led, false);
    KeyboardNamesNeverLoaded(o, w0);
    match Dispatch(line)
    case SetPipeState(pipe, state) =>
      assert pipe in {"TestPipe", "MainPipe", "ViewPipe"};
    case _ =>
  }

  /** The handler's global state: the topology, the led flag, and whether
      Stop has ended the process. */
  class Console {
    const topology: Topology
    var led: bool
    var exited: bool

    constructor(topology: Topology)
      ensures this.topology == topology && !led && !exited
    {
      this.topology := topology;
      led := false;
      exited := false;
    }

    function State(): Session
      reads this, topology, topology.engine
    {
      Session(topology.Snapshot(), led, exited)
    }

    /** Stop: deletes the topology (its destructor) and exits. */
    method Stop()
      modifies this, topology.engine
      ensures State() == Apply(old(State()), Quit)
    {
      topology.Destroy();
      exited := true;
    }

    /** KeyboardHandler: a failed read does nothing; otherwise the line's
        key is carried out. The watch is always kept. */
    method KeyboardHandler(line: Option<string>) returns (keep: bool)
      modifies this, topology, topology.engine
      ensures keep
      ensures State() == if line.None? then old(State()) else Apply(old(State()), Dispatch(line.value))
    {
      if line.None? {
        return true;
      }
      match Dispatch(line.value) {
        case SetPipeState(pipe, state) =>
          var p := topology.GetPipe(pipe);
          topology.engine.SetState(p, state);
        case Quit =>
          Stop();
        case ToggleLed =>
          led := !led;
          var e := topology.GetElement("MainSource");
          topology.engine.Set(e, "led-power", BoolValue(led));
        case Ignore =>
      }
      return true;
    }
  }
}
