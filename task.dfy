/**
 * `DownloadTask`: one download, its aria2c child process, its progress
 * fields and its append-only log.
 *
 * The operations are first given as functions on a `TaskState` value, one
 * per method of the source (`StartStep`, `PauseStep`, ...); the class
 * `DownloadTask` at the end updates its fields in place, and each of its
 * methods is proved to leave the state that function prescribes. The child
 * process is an abstract handle; whether it is still running, whether
 * spawning or terminating it fails, whether the output directory can be
 * made, the shell tokenizer and the wall clock all come from the caller.
 */
module Task {
  import opened Wrappers
  import opened Text
  import opened Units
  import opened Progress
  import opened Command

  /** `time.strftime` at the moment the entry with a given index is appended. */
  type Clock = nat -> string

  /** One line of `log_lines`, `[stamp] message`. */
  datatype LogEntry = LogEntry(stamp: string, message: string)

  function Format(e: LogEntry): string { "[" + e.stamp + "] " + e.message }

  /** `log_lines` as the strings the source keeps. */
  function Lines(log: seq<LogEntry>): seq<string>
    decreases |log|
  {
    if log == [] then [] else Lines(log[..|log| - 1]) + [Format(log[|log| - 1])]
  }

  function Messages(log: seq<LogEntry>): seq<string> {
    seq(|log|, i requires 0 <= i < |log| => log[i].message)
  }

  /** What `subprocess.Popen` gave: a handle to the child, or the exception's text. */
  datatype Spawn = Spawned(handle: nat) | SpawnFailed(reason: string)

  /** The fields of a `DownloadTask` (the reader thread and the `Event` object are not modelled). */
  datatype TaskState = TaskState(
    url: string,
    outDir: string,
    outName: string,
    options: Options,
    process: Option<nat>,
    gid: Option<string>,
    progress: nat,
    haveBytes: nat,
    totalBytes: nat,
    dlSpeed: string,
    eta: string,
    connections: nat,
    status: string,
    log: seq<LogEntry>,
    stopFlag: bool)

  /** `DownloadTask(url, out_dir, out_name, options)`, with `cwd` for `os.getcwd()`. */
  function Initial(url: string, outDir: string, outName: string, options: Options, cwd: string): TaskState {
    TaskState(Strip(url), if outDir != "" then outDir else cwd, outName, options,
              None, None, 0, 0, 0, "", "", 0, "Waiting...", [], false)
  }

  /** `log(message)`: one entry appended, stamped by the clock. */
  function Logged(s: TaskState, message: string, clock: Clock): (r: TaskState)
    ensures r.log == s.log + [LogEntry(clock(|s.log|), message)]
    ensures r.(log := s.log) == s
  {
    s.(log := s.log + [LogEntry(clock(|s.log|), message)])
  }

  /** The vector `build_command` gives for the task's current fields. */
  function CommandOf(s: TaskState, aria2: string, tokenize: Tokenizer): seq<string> {
    BuildCommand(aria2, s.url, s.outDir, s.outName, s.options, tokenize)
  }

  /** What the environment decides for a `start`: the directory can be made, and what spawning gives. */
  datatype StartEnv = StartEnv(aria2: string, dirReady: bool, spawn: Spawn, tokenize: Tokenizer)

  /**
   * `os.makedirs` raises inside `build_command`, which `start` calls outside
   * its `try`: the exception leaves `start` before anything is logged.
   */
  predicate StartRaises(s: TaskState, e: StartEnv) { s.process.None? && !e.dirReady }

  /** `start(aria2_path)`. */
  function StartStep(s: TaskState, e: StartEnv, clock: Clock): TaskState {
    if s.process.Some? then Logged(s, "Task is already in progress.", clock)
    else if !e.dirReady then s
    else Launched(s, "Start command: " + Join(" ", CommandOf(s, e.aria2, e.tokenize)), e.spawn, clock)
  }

  /** `pause()`; `alive` is `poll() is None`, `failure` what `terminate()` raised. */
  function PauseStep(s: TaskState, alive: bool, failure: Option<string>, clock: Clock): TaskState {
    if s.process.Some? && alive then
      match failure
      case None => Logged(s, "Download paused", clock).(status := "Paused", stopFlag := true)
      case Some(reason) => Logged(s, "Failed to pause: " + reason, clock)
    else s
  }

  /** `stop()`. */
  function StopStep(s: TaskState, alive: bool, failure: Option<string>, clock: Clock): TaskState {
    var s1 :=
      if s.process.Some? && alive then
        match failure
        case None => Logged(s, "Download stopped", clock).(stopFlag := true)
        case Some(reason) => Logged(s, "Failed to stop: " + reason, clock)
      else s;
    s1.(status := "Stopped")
  }

  /** `resume` refuses: the task is completed, or its process is still running. */
  predicate ResumeRefused(s: TaskState, alive: bool) {
    s.status == "Completed" || (s.process.Some? && alive)
  }

  /** The state `resume` hands to `start`: one log entry, and `continue` switched on. */
  function Resuming(s: TaskState, clock: Clock): TaskState {
    Logged(s, "Resuming download (resume broken download)", clock).(options := s.options.(continueFlag := Some(true)))
  }

  /** `resume(aria2_path)`. */
  function ResumeStep(s: TaskState, alive: bool, e: StartEnv, clock: Clock): TaskState {
    if s.status == "Completed" then Logged(s, "Task already completed, no need to resume", clock)
    else if s.process.Some? && alive then Logged(s, "Task is still running, cannot resume", clock)
    else StartStep(Resuming(s, clock), e, clock)
  }

  /** The assignments of `_parse_progress` for a matched marker, in order, up to the first that raises. */
  function ApplyMarker(s: TaskState, m: Marker, clock: Clock): TaskState
    requires WellFormed(m)
  {
    Sizes(s.(gid := Some(m.gid), progress := DigitsValue(m.percent), connections := DigitsValue(m.connections),
             dlSpeed := m.speed, eta := Strip(m.eta)), m.have, m.total, clock)
  }

  /** The last two assignments: have, then total, through `human_to_bytes`. */
  function Sizes(s: TaskState, have: string, total: string, clock: Clock): TaskState {
    match HumanToBytes(have)
    case Err(msg) => Logged(s, "Failed to parse progress: " + msg, clock)
    case Ok(h) =>
      match HumanToBytes(total)
      case Err(msg) => Logged(s.(haveBytes := h), "Failed to parse progress: " + msg, clock)
      case Ok(n) => s.(haveBytes := h, totalBytes := n)
  }

  /** `_parse_progress(line)`: the marker, if any, then the completion keywords. */
  function ParseStep(s: TaskState, line: string, clock: Clock): TaskState {
    var s1 := match FindMarker(line) case None => s case Some(m) => ApplyMarker(s, m, clock);
    if Completion(line) then s1.(status := "Completed") else s1
  }

  /** One pass of the reader loop: log the line without its trailing newlines, then parse it. */
  function LineStep(s: TaskState, raw: string, clock: Clock): TaskState {
    var line := RStripNewlines(raw);
    ParseStep(Logged(s, line, clock), line, clock)
  }

  /** The reader loop over the child's output lines, leaving it at the first line that finds the stop flag set. */
  function ReadLines(s: TaskState, lines: seq<string>, clock: Clock): TaskState
    decreases |lines|
  {
    if lines == [] || s.stopFlag then s else ReadLines(LineStep(s, lines[0], clock), lines[1..], clock)
  }

  /** The exit-code rule after the loop. */
  function Finish(s: TaskState, exitCode: int, clock: Clock): TaskState {
    if s.status == "Downloading" && !s.stopFlag then
      if exitCode == 0 then Logged(s.(status := "Completed"), "Download completed", clock)
      else Logged(s.(status := "Error"), "Download error, return code: " + IntToString(exitCode), clock)
    else s
  }

  /** `_read_output()` over the lines the child prints and the code it exits with. */
  function ReadStep(s: TaskState, lines: seq<string>, exitCode: int, clock: Clock): TaskState {
    if s.process.None? then s else Finish(ReadLines(s, lines, clock), exitCode, clock)
  }

  // ---------------------------------------------------------------------------
  // Properties of the single operations

  /** Appending to the log never alters the entries already there. */
  lemma LoggedExtends(s: TaskState, message: string, clock: Clock)
    ensures |Logged(s, message, clock).log| == |s.log| + 1
    ensures Logged(s, message, clock).log[..|s.log|] == s.log
    ensures Logged(s, message, clock).log[|s.log|].message == message
  {
    assert Logged(s, message, clock).log[..|s.log|] == s.log;
  }

  /** With a handle already set, `start` only logs that the task is in progress. */
  lemma StartWhileRunning(s: TaskState, e: StartEnv, clock: Clock)
    requires s.process.Some?
    ensures StartStep(s, e, clock).(log := s.log) == s
    ensures Messages(StartStep(s, e, clock).log) == Messages(s.log) + ["Task is already in progress."]
  {
    LoggedMessages(s, "Task is already in progress.", clock);
  }

  lemma LoggedMessages(s: TaskState, message: string, clock: Clock)
    ensures Messages(Logged(s, message, clock).log) == Messages(s.log) + [message]
  {
  }

  /** `log(message)` appends the string `[timestamp] message` to the lines already kept. */
  lemma LoggedLine(s: TaskState, message: string, clock: Clock)
    ensures Lines(Logged(s, message, clock).log) == Lines(s.log) + ["[" + clock(|s.log|) + "] " + message]
  {
    var log := Logged(s, message, clock).log;
    assert log[..|log| - 1] == s.log;
  }

  /** The kept lines are the entries' formatted strings, one per entry, in order. */
  lemma {:induction false} LinesAt(log: seq<LogEntry>)
    ensures |Lines(log)| == |log|
    ensures forall i :: 0 <= i < |log| ==> Lines(log)[i] == "[" + log[i].stamp + "] " + log[i].message
    decreases |log|
  {
    if log != [] {
      LinesAt(log[..|log| - 1]);
    }
  }

  /**
   * A `start` leaves a handle exactly when one was already set, or the
   * directory was made and spawning succeeded; a handle already set is kept.
   */
  lemma StartHandle(s: TaskState, e: StartEnv, clock: Clock)
    ensures StartStep(s, e, clock).process.Some? <==> s.process.Some? || (e.dirReady && e.spawn.Spawned?)
    ensures s.process.Some? ==> StartStep(s, e, clock).process == s.process
    ensures s.process.None? && e.dirReady && e.spawn.Spawned? ==>
              StartStep(s, e, clock).process == Some(e.spawn.handle)
  {
  }

  /**
   * A `start` without a handle logs the command line first; a spawn then
   * marks the task downloading with the stop flag clear, and a failure
   * logs its reason and marks it as an error.
   */
  lemma StartLaunches(s: TaskState, e: StartEnv, clock: Clock)
    requires s.process.None? && e.dirReady
    ensures var r := StartStep(s, e, clock);
      var first := "Start command: " + Join(" ", CommandOf(s, e.aria2, e.tokenize));
      match e.spawn
      case Spawned(h) =>
        r.status == "Downloading..." && !r.stopFlag && Messages(r.log) == Messages(s.log) + [first]
      case SpawnFailed(reason) =>
        r.status == "Error" && r.process.None? && r.stopFlag == s.stopFlag
        && Messages(r.log) == Messages(s.log) + [first, "Failed to start: " + reason]
  {
    var s1 := Logged(s, "Start command: " + Join(" ", CommandOf(s, e.aria2, e.tokenize)), clock);
    LoggedMessages(s, "Start command: " + Join(" ", CommandOf(s, e.aria2, e.tokenize)), clock);
    match e.spawn {
      case Spawned(h) =>
      case SpawnFailed(reason) =>
        LoggedMessages(s1, "Failed to start: " + reason, clock);
    }
  }

  /**
   * `pause` marks the task paused and sets the stop flag exactly when it
   * terminates a live process; it logs the outcome whenever the process is
   * live, and changes nothing else.
   */
  lemma PauseEffect(s: TaskState, alive: bool, failure: Option<string>, clock: Clock)
    ensures var r := PauseStep(s, alive, failure, clock);
      var acts := s.process.Some? && alive && failure.None?;
      (r.status == (if acts then "Paused" else s.status))
      && (r.stopFlag == (acts || s.stopFlag))
      && r.process == s.process && r.options == s.options
    ensures var r := PauseStep(s, alive, failure, clock);
      r.(status := s.status, stopFlag := s.stopFlag, log := s.log) == s
      && Messages(r.log) == Messages(s.log)
         + (if s.process.Some? && alive then [if failure.None? then "Download paused" else "Failed to pause: " + failure.value] else [])
  {
    if s.process.Some? && alive {
      match failure
      case None => LoggedMessages(s, "Download paused", clock);
      case Some(reason) => LoggedMessages(s, "Failed to pause: " + reason, clock);
    }
  }

  /** Without a live process, `pause` leaves every field as it was. */
  lemma PauseIdle(s: TaskState, alive: bool, failure: Option<string>, clock: Clock)
    requires !(s.process.Some? && alive)
    ensures PauseStep(s, alive, failure, clock) == s
  {
  }

  /**
   * `stop` always ends at `Stopped`, keeps the handle, sets the stop flag
   * exactly when it terminates a live process, and logs the outcome only then.
   */
  lemma StopEffect(s: TaskState, alive: bool, failure: Option<string>, clock: Clock)
    ensures var r := StopStep(s, alive, failure, clock);
      r.status == "Stopped" && r.process == s.process && r.options == s.options
      && r.stopFlag == (s.stopFlag || (s.process.Some? && alive && failure.None?))
    ensures var r := StopStep(s, alive, failure, clock);
      r.(status := s.status, stopFlag := s.stopFlag, log := s.log) == s
      && Messages(r.log) == Messages(s.log)
         + (if s.process.Some? && alive then [if failure.None? then "Download stopped" else "Failed to stop: " + failure.value] else [])
  {
    if s.process.Some? && alive {
      match failure
      case None => LoggedMessages(s, "Download stopped", clock);
      case Some(reason) => LoggedMessages(s, "Failed to stop: " + reason, clock);
    }
  }

  /** A second `stop` leaves the status where the first left it. */
  lemma StopIdempotent(s: TaskState, a1: bool, f1: Option<string>, a2: bool, f2: Option<string>, clock: Clock)
    ensures StopStep(StopStep(s, a1, f1, clock), a2, f2, clock).status == StopStep(s, a1, f1, clock).status
  {
  }

  /** A refused `resume` appends one entry and changes nothing else, the options included. */
  lemma ResumeRefusedOnlyLogs(s: TaskState, alive: bool, e: StartEnv, clock: Clock)
    requires ResumeRefused(s, alive)
    ensures ResumeStep(s, alive, e, clock).(log := s.log) == s
    ensures |ResumeStep(s, alive, e, clock).log| == |s.log| + 1
    ensures ResumeStep(s, alive, e, clock).log[..|s.log|] == s.log
  {
    if s.status == "Completed" {
      LoggedExtends(s, "Task already completed, no need to resume", clock);
    } else {
      LoggedExtends(s, "Task is still running, cannot resume", clock);
    }
  }

  /** An accepted `resume` switches `continue` on and runs `start`, which then writes `-c`. */
  lemma ResumeRestarts(s: TaskState, alive: bool, e: StartEnv, clock: Clock)
    requires !ResumeRefused(s, alive)
    ensures var r := ResumeStep(s, alive, e, clock);
      r.options.continueFlag == Some(true)
      && r.options == s.options.(continueFlag := Some(true))
      && |r.log| > |s.log| && r.log[|s.log|].message == "Resuming download (resume broken download)"
    ensures var cmd := CommandOf(Resuming(s, clock), e.aria2, e.tokenize); cmd[1] == "-c"
  {
    var s1 := Resuming(s, clock);
    LoggedExtends(s, "Resuming download (resume broken download)", clock);
    StartLog(s1, e, clock);
  }

  /** `start` only appends to the log. */
  lemma StartLog(s: TaskState, e: StartEnv, clock: Clock)
    ensures |StartStep(s, e, clock).log| >= |s.log|
    ensures StartStep(s, e, clock).log[..|s.log|] == s.log
    ensures StartStep(s, e, clock).options == s.options
  {
    if s.process.Some? {
      LoggedExtends(s, "Task is already in progress.", clock);
    } else if e.dirReady {
      var m := "Start command: " + Join(" ", CommandOf(s, e.aria2, e.tokenize));
      SpawnLog(s, m, e.spawn, clock);
    }
  }

  /** The part of `start` after the command line is known. */
  function Launched(s: TaskState, m: string, spawn: Spawn, clock: Clock): TaskState {
    var s1 := Logged(s, m, clock);
    match spawn
    case Spawned(h) => s1.(process := Some(h), status := "Downloading...", stopFlag := false)
    case SpawnFailed(reason) => Logged(s1, "Failed to start: " + reason, clock).(status := "Error")
  }

  lemma SpawnLog(s: TaskState, m: string, spawn: Spawn, clock: Clock)
    ensures |Launched(s, m, spawn, clock).log| >= |s.log|
    ensures Launched(s, m, spawn, clock).log[..|s.log|] == s.log
    ensures Launched(s, m, spawn, clock).options == s.options
  {
    var s1 := Logged(s, m, clock);
    LoggedExtends(s, m, clock);
    if spawn.SpawnFailed? {
      LoggedExtends(s1, "Failed to start: " + spawn.reason, clock);
      PrefixOfPrefix(s.log, s1.log, Logged(s1, "Failed to start: " + spawn.reason, clock).log);
    }
  }

  lemma PrefixOfPrefix<T>(a: seq<T>, b: seq<T>, c: seq<T>)
    requires |a| <= |b| <= |c| && b[..|a|] == a && c[..|b|] == b
    ensures c[..|a|] == a
  {
    assert c[..|a|] == c[..|b|][..|a|];
  }

  /**
   * Once a process was spawned, `resume` never spawns again: the handle is
   * never cleared, so `start` finds it and only logs that the task is in
   * progress, after the resume message.
   */
  lemma ResumeAfterSpawn(s: TaskState, e: StartEnv, clock: Clock)
    requires s.process.Some? && s.status != "Completed"
    ensures var r := ResumeStep(s, false, e, clock);
      r.process == s.process
      && Messages(r.log) == Messages(s.log) + ["Resuming download (resume broken download)", "Task is already in progress."]
  {
    var m := "Resuming download (resume broken download)";
    var s1 := Resuming(s, clock);
    LoggedMessages(s, m, clock);
    assert Messages(s1.log) == Messages(s.log) + [m];
    LoggedMessages(s1, "Task is already in progress.", clock);
  }

  // ---------------------------------------------------------------------------
  // Properties of parsing and reading

  /** The error, if any, that `human_to_bytes` raises on the marker's have or total, have first. */
  function MarkerFailure(m: Marker): Option<string> {
    match HumanToBytes(m.have)
    case Err(msg) => Some(msg)
    case Ok(_) => match HumanToBytes(m.total) { case Err(msg) => Some(msg) case Ok(_) => None }
  }

  /** The error `_parse_progress` catches on a line, if any. */
  function ParseFailure(line: string): Option<string> {
    match FindMarker(line) case None => None case Some(m) => MarkerFailure(m)
  }

  /** The log message for a caught error. */
  function Note(failure: Option<string>): seq<string> {
    match failure case None => [] case Some(msg) => ["Failed to parse progress: " + msg]
  }

  /**
   * A matched marker sets gid, percent, connections, speed and the stripped
   * eta; have and total are set while `human_to_bytes` succeeds, and the first
   * failure is logged. Nothing else changes but the completion status.
   */
  lemma ParseMarker(s: TaskState, line: string, m: Marker, clock: Clock)
    requires FindMarker(line) == Some(m)
    ensures var r := ParseStep(s, line, clock);
      var have, total := HumanToBytes(m.have), HumanToBytes(m.total);
      r.gid == Some(m.gid) && r.progress == DigitsValue(m.percent) && r.connections == DigitsValue(m.connections)
      && r.dlSpeed == m.speed && r.eta == Strip(m.eta)
      && r.haveBytes == (if have.Ok? then have.value else s.haveBytes)
      && r.totalBytes == (if have.Ok? && total.Ok? then total.value else s.totalBytes)
      && Messages(r.log) == Messages(s.log) + Note(MarkerFailure(m))
      && r.status == (if Completion(line) then "Completed" else s.status)
      && r.process == s.process && r.stopFlag == s.stopFlag && r.options == s.options
  {
    ApplyMarkerEffect(s, m, clock);
  }

  lemma ApplyMarkerEffect(s: TaskState, m: Marker, clock: Clock)
    requires WellFormed(m)
    ensures var r := ApplyMarker(s, m, clock);
      var have, total := HumanToBytes(m.have), HumanToBytes(m.total);
      r.gid == Some(m.gid) && r.progress == DigitsValue(m.percent) && r.connections == DigitsValue(m.connections)
      && r.dlSpeed == m.speed && r.eta == Strip(m.eta)
      && r.haveBytes == (if have.Ok? then have.value else s.haveBytes)
      && r.totalBytes == (if have.Ok? && total.Ok? then total.value else s.totalBytes)
      && Messages(r.log) == Messages(s.log) + Note(MarkerFailure(m)) && Extends(s.log, r.log)
      && r.status == s.status && r.process == s.process && r.stopFlag == s.stopFlag && r.options == s.options
      && r.url == s.url && r.outDir == s.outDir && r.outName == s.outName
  {
    var s1 := s.(gid := Some(m.gid), progress := DigitsValue(m.percent), connections := DigitsValue(m.connections),
                 dlSpeed := m.speed, eta := Strip(m.eta));
    match HumanToBytes(m.have) {
      case Err(msg) =>
        LoggedMessages(s1, "Failed to parse progress: " + msg, clock);
        LoggedExtends(s1, "Failed to parse progress: " + msg, clock);
      case Ok(have) =>
        match HumanToBytes(m.total) {
          case Err(msg) =>
            LoggedMessages(s1.(haveBytes := have), "Failed to parse progress: " + msg, clock);
            LoggedExtends(s1.(haveBytes := have), "Failed to parse progress: " + msg, clock);
          case Ok(total) =>
            assert s.log[..|s.log|] == s.log;
        }
    }
  }

  /** Without a marker the seven progress fields and the log are untouched. */
  lemma ParseNoMarker(s: TaskState, line: string, clock: Clock)
    requires FindMarker(line).None?
    ensures ParseStep(s, line, clock).(status := s.status) == s
    ensures ParseStep(s, line, clock).status == (if Completion(line) then "Completed" else s.status)
  {
  }

  /**
   * A marker in aria2c's layout, after text without a `[`, sets the
   * progress fields to its own groups.
   */
  lemma ParseRendered(s: TaskState, m: Marker, before: string, after: string, clock: Clock)
    requires WellFormed(m)
    requires forall x :: 0 <= x < |before| ==> before[x] != '['
    ensures var r := ParseStep(s, before + Render(m) + after, clock);
      r.gid == Some(m.gid) && r.progress == DigitsValue(m.percent) && r.connections == DigitsValue(m.connections)
      && r.dlSpeed == m.speed && r.eta == Strip(m.eta)
  {
    FindRendered(m, before, after);
    ParseMarker(s, before + Render(m) + after, m, clock);
  }

  /** Parsing a line logs at most one note, and leaves the process, the flag and the options alone. */
  lemma ParseLog(s: TaskState, line: string, clock: Clock)
    ensures var r := ParseStep(s, line, clock);
      Messages(r.log) == Messages(s.log) + Note(ParseFailure(line)) && Extends(s.log, r.log)
      && r.status == (if Completion(line) then "Completed" else s.status)
      && r.process == s.process && r.stopFlag == s.stopFlag && r.options == s.options
      && r.url == s.url && r.outDir == s.outDir && r.outName == s.outName
  {
    match FindMarker(line) {
      case None => assert s.log[..|s.log|] == s.log;
      case Some(m) => ApplyMarkerEffect(s, m, clock);
    }
  }

  /** What the reader writes to the log for `lines`, read to the end: each line, then its note. */
  function Transcript(lines: seq<string>): seq<string>
    decreases |lines|
  {
    if lines == [] then []
    else
      var l := RStripNewlines(lines[0]);
      [l] + Note(ParseFailure(l)) + Transcript(lines[1..])
  }

  /** Some line carries a completion keyword. */
  predicate AnyCompletion(lines: seq<string>) {
    exists i :: 0 <= i < |lines| && Completion(RStripNewlines(lines[i]))
  }

  /**
   * With the stop flag clear the reader takes every line: the log gains the
   * transcript of the lines, in order; the status becomes `Completed` when
   * some line has a completion keyword, and otherwise keeps its value; the
   * flag stays clear.
   */
  lemma {:induction false} ReadLinesTranscript(s: TaskState, lines: seq<string>, clock: Clock)
    requires !s.stopFlag
    ensures var r := ReadLines(s, lines, clock);
      Messages(r.log) == Messages(s.log) + Transcript(lines)
      && r.status == (if AnyCompletion(lines) then "Completed" else s.status)
      && !r.stopFlag && r.process == s.process && r.options == s.options
    decreases |lines|
  {
    if lines != [] {
      var l := RStripNewlines(lines[0]);
      var s1 := Logged(s, l, clock);
      LoggedMessages(s, l, clock);
      ParseLog(s1, l, clock);
      var s2 := LineStep(s, lines[0], clock);
      ReadLinesTranscript(s2, lines[1..], clock);
      AnyCompletionCons(lines);
      assert Messages(ReadLines(s, lines, clock).log)
          == Messages(s.log) + [l] + Note(ParseFailure(l)) + Transcript(lines[1..]);
    }
  }

  lemma AnyCompletionCons(lines: seq<string>)
    requires lines != []
    ensures AnyCompletion(lines) <==> Completion(RStripNewlines(lines[0])) || AnyCompletion(lines[1..])
  {
    if AnyCompletion(lines[1..]) {
      var i :| 0 <= i < |lines[1..]| && Completion(RStripNewlines(lines[1..][i]));
      assert lines[i + 1] == lines[1..][i];
    }
    if AnyCompletion(lines) {
      var i :| 0 <= i < |lines| && Completion(RStripNewlines(lines[i]));
      if i > 0 { assert lines[1..][i - 1] == lines[i]; }
    }
  }

  /** Once the stop flag is set the reader takes no further line. */
  lemma ReadStopsOnFlag(s: TaskState, lines: seq<string>, exitCode: int, clock: Clock)
    requires s.stopFlag
    ensures ReadLines(s, lines, clock) == s
    ensures ReadStep(s, lines, exitCode, clock) == s
  {
  }

  /**
   * The exit-code rule looks for `Downloading`, which no operation ever
   * assigns (`start` writes `Downloading...`): outside that status the
   * reader's outcome does not depend on the exit code.
   */
  lemma ExitCodeIgnored(s: TaskState, lines: seq<string>, c1: int, c2: int, clock: Clock)
    requires s.status != "Downloading"
    ensures ReadStep(s, lines, c1, clock) == ReadStep(s, lines, c2, clock)
    ensures ReadStep(s, lines, c1, clock).status != "Downloading"
  {
    ReadLinesStatus(s, lines, clock);
  }

  /** The reader only ever leaves the status as it was or sets `Completed`. */
  lemma {:induction false} ReadLinesStatus(s: TaskState, lines: seq<string>, clock: Clock)
    ensures ReadLines(s, lines, clock).status in {s.status, "Completed"}
    decreases |lines|
  {
    if lines != [] && !s.stopFlag {
      var s2 := LineStep(s, lines[0], clock);
      ParseLog(Logged(s, RStripNewlines(lines[0]), clock), RStripNewlines(lines[0]), clock);
      ReadLinesStatus(s2, lines[1..], clock);
    }
  }

  /** Were the status `Downloading` with the flag clear, exit code 0 would complete the task and any other code fail it. */
  lemma FinishJudges(s: TaskState, exitCode: int, clock: Clock)
    requires s.status == "Downloading" && !s.stopFlag
    ensures Finish(s, exitCode, clock).status == (if exitCode == 0 then "Completed" else "Error")
    ensures Messages(Finish(s, exitCode, clock).log) == Messages(s.log)
              + [if exitCode == 0 then "Download completed" else "Download error, return code: " + IntToString(exitCode)]
  {
    if exitCode == 0 {
      LoggedMessages(s.(status := "Completed"), "Download completed", clock);
    } else {
      LoggedMessages(s.(status := "Error"), "Download error, return code: " + IntToString(exitCode), clock);
    }
  }

  // ---------------------------------------------------------------------------
  // Runs: the operations in any order, with any outcomes from the environment

  /**
   * One call on a task: a method of the application thread, or one pass of
   * the reader thread (a line, or the end of the output with the exit code).
   */
  datatype Op =
    | StartOp(env: StartEnv)
    | PauseOp(alive: bool, failure: Option<string>)
    | StopOp(alive: bool, failure: Option<string>)
    | ResumeOp(alive: bool, env: StartEnv)
    | LineOp(raw: string)
    | ExitOp(exitCode: int)

  /** One call; the reader takes no line while there is no process, or after it has seen the stop flag. */
  function Apply(s: TaskState, op: Op, clock: Clock): TaskState {
    match op
    case StartOp(e) => StartStep(s, e, clock)
    case PauseOp(alive, failure) => PauseStep(s, alive, failure, clock)
    case StopOp(alive, failure) => StopStep(s, alive, failure, clock)
    case ResumeOp(alive, e) => ResumeStep(s, alive, e, clock)
    case LineOp(raw) => if s.process.None? || s.stopFlag then s else LineStep(s, raw, clock)
    case ExitOp(code) => if s.process.None? then s else Finish(s, code, clock)
  }

  function Run(s: TaskState, ops: seq<Op>, clock: Clock): TaskState
    decreases |ops|
  {
    if ops == [] then s else Run(Apply(s, ops[0], clock), ops[1..], clock)
  }

  /** `b` is `a` with entries appended. */
  predicate Extends(a: seq<LogEntry>, b: seq<LogEntry>) { |a| <= |b| && b[..|a|] == a }

  /**
   * What every call keeps: the log only grows; a handle once set is kept, so
   * no second process is ever spawned; the status never becomes
   * `Downloading`; a stop flag set while there is a handle stays set; the
   * url, directory, file name and every option but `continue` are fixed.
   */
  predicate Follows(s: TaskState, r: TaskState) {
    Extends(s.log, r.log)
    && (s.process.Some? ==> r.process == s.process)
    && (s.status != "Downloading" ==> r.status != "Downloading")
    && (s.process.Some? && s.stopFlag ==> r.stopFlag)
    && r.url == s.url && r.outDir == s.outDir && r.outName == s.outName
    && r.options.(continueFlag := s.options.continueFlag) == s.options
  }

  lemma FollowsTrans(s: TaskState, r: TaskState, q: TaskState)
    requires Follows(s, r) && Follows(r, q)
    ensures Follows(s, q)
  {
    PrefixOfPrefix(s.log, r.log, q.log);
  }

  lemma ParseFollows(s: TaskState, line: string, clock: Clock)
    ensures Follows(s, ParseStep(s, line, clock))
  {
    ParseLog(s, line, clock);
  }

  lemma StartFollows(s: TaskState, e: StartEnv, clock: Clock)
    ensures Follows(s, StartStep(s, e, clock))
  {
    StartLog(s, e, clock);
    StartHandle(s, e, clock);
  }

  lemma PauseFollows(s: TaskState, alive: bool, failure: Option<string>, clock: Clock)
    ensures Follows(s, PauseStep(s, alive, failure, clock))
  {
    if s.process.Some? && alive {
      if failure.None? { LoggedExtends(s, "Download paused", clock); }
      else { LoggedExtends(s, "Failed to pause: " + failure.value, clock); }
    } else {
      assert s.log[..|s.log|] == s.log;
    }
  }

  lemma StopFollows(s: TaskState, alive: bool, failure: Option<string>, clock: Clock)
    ensures Follows(s, StopStep(s, alive, failure, clock))
  {
    if s.process.Some? && alive {
      if failure.None? { LoggedExtends(s, "Download stopped", clock); }
      else { LoggedExtends(s, "Failed to stop: " + failure.value, clock); }
    } else {
      assert s.log[..|s.log|] == s.log;
    }
  }

  lemma ResumeFollows(s: TaskState, alive: bool, e: StartEnv, clock: Clock)
    ensures Follows(s, ResumeStep(s, alive, e, clock))
  {
    if s.status == "Completed" {
      LoggedExtends(s, "Task already completed, no need to resume", clock);
    } else if s.process.Some? && alive {
      LoggedExtends(s, "Task is still running, cannot resume", clock);
    } else {
      var s1 := Resuming(s, clock);
      LoggedExtends(s, "Resuming download (resume broken download)", clock);
      StartFollows(s1, e, clock);
      assert Follows(s, s1);
      FollowsTrans(s, s1, StartStep(s1, e, clock));
    }
  }

  lemma LineFollows(s: TaskState, raw: string, clock: Clock)
    ensures Follows(s, LineStep(s, raw, clock))
  {
    var l := RStripNewlines(raw);
    LoggedExtends(s, l, clock);
    ParseFollows(Logged(s, l, clock), l, clock);
    FollowsTrans(s, Logged(s, l, clock), LineStep(s, raw, clock));
  }

  lemma FinishFollows(s: TaskState, code: int, clock: Clock)
    ensures Follows(s, Finish(s, code, clock))
  {
    if s.status == "Downloading" && !s.stopFlag {
      if code == 0 { LoggedExtends(s.(status := "Completed"), "Download completed", clock); }
      else { LoggedExtends(s.(status := "Error"), "Download error, return code: " + IntToString(code), clock); }
    } else {
      assert s.log[..|s.log|] == s.log;
    }
  }

  /** Every single call keeps what `Follows` names. */
  lemma ApplyFollows(s: TaskState, op: Op, clock: Clock)
    ensures Follows(s, Apply(s, op, clock))
  {
    match op {
      case StartOp(e) => StartFollows(s, e, clock);
      case PauseOp(alive, failure) => PauseFollows(s, alive, failure, clock);
      case StopOp(alive, failure) => StopFollows(s, alive, failure, clock);
      case ResumeOp(alive, e) => ResumeFollows(s, alive, e, clock);
      case LineOp(raw) =>
        if s.process.Some? && !s.stopFlag { LineFollows(s, raw, clock); } else { assert s.log[..|s.log|] == s.log; }
      case ExitOp(code) =>
        if s.process.Some? { FinishFollows(s, code, clock); } else { assert s.log[..|s.log|] == s.log; }
    }
  }

  /** A whole run keeps what `Follows` names. */
  lemma {:induction false} RunFollows(s: TaskState, ops: seq<Op>, clock: Clock)
    ensures Follows(s, Run(s, ops, clock))
    decreases |ops|
  {
    if ops == [] {
      assert s.log[..|s.log|] == s.log;
    } else {
      var s1 := Apply(s, ops[0], clock);
      ApplyFollows(s, ops[0], clock);
      RunFollows(s1, ops[1..], clock);
      FollowsTrans(s, s1, Run(s, ops, clock));
    }
  }

  /**
   * From a new task, whatever happens: the exit-code rule never fires, so
   * the status is never `Downloading` and an exit never changes the task.
   */
  lemma FreshTaskNeverJudgesExit(url: string, outDir: string, outName: string, options: Options, cwd: string,
                                 ops: seq<Op>, code: int, clock: Clock)
    ensures var r := Run(Initial(url, outDir, outName, options, cwd), ops, clock);
      r.status != "Downloading" && Apply(r, ExitOp(code), clock) == r
  {
    RunFollows(Initial(url, outDir, outName, options, cwd), ops, clock);
    ExitInert(Run(Initial(url, outDir, outName, options, cwd), ops, clock), code, clock);
  }

  lemma ExitInert(s: TaskState, code: int, clock: Clock)
    requires s.status != "Downloading"
    ensures Apply(s, ExitOp(code), clock) == s
  {
  }

  /** One line event per output line (its `ensures` is what the proofs about `Run` unfold). */
  function LineOps(lines: seq<string>): (r: seq<Op>)
    ensures |r| == |lines| && forall i :: 0 <= i < |lines| ==> r[i] == LineOp(lines[i])
  {
    seq(|lines|, i requires 0 <= i < |lines| => LineOp(lines[i]))
  }

  lemma {:induction false} RunAppend(s: TaskState, a: seq<Op>, b: seq<Op>, clock: Clock)
    ensures Run(s, a + b, clock) == Run(Run(s, a, clock), b, clock)
    decreases |a|
  {
    if a == [] {
      assert a + b == b;
    } else {
      assert (a + b)[1..] == a[1..] + b;
      RunAppend(Apply(s, a[0], clock), a[1..], b, clock);
    }
  }

  /** The reader loop is the run of its lines, one call per line. */
  lemma {:induction false} ReadLinesAsRun(s: TaskState, lines: seq<string>, clock: Clock)
    requires s.process.Some?
    ensures ReadLines(s, lines, clock) == Run(s, LineOps(lines), clock)
    decreases |lines|
  {
    if lines != [] {
      assert LineOps(lines)[1..] == LineOps(lines[1..]);
      if s.stopFlag {
        ReadLinesAsRun(s, lines[1..], clock);
      } else {
        var s1 := LineStep(s, lines[0], clock);
        ParseLog(Logged(s, RStripNewlines(lines[0]), clock), RStripNewlines(lines[0]), clock);
        ReadLinesAsRun(s1, lines[1..], clock);
      }
    }
  }

  /** `_read_output` is the run of its lines followed by the exit. */
  lemma ReadOutputAsRun(s: TaskState, lines: seq<string>, code: int, clock: Clock)
    requires s.process.Some?
    ensures ReadStep(s, lines, code, clock) == Run(s, LineOps(lines) + [ExitOp(code)], clock)
  {
    var r := ReadLines(s, lines, clock);
    LinesThenExit(s, lines, code, clock);
    ExitApplied(r, code, clock);
  }

  lemma LinesThenExit(s: TaskState, lines: seq<string>, code: int, clock: Clock)
    requires s.process.Some?
    ensures Run(s, LineOps(lines) + [ExitOp(code)], clock) == Run(ReadLines(s, lines, clock), [ExitOp(code)], clock)
    ensures ReadLines(s, lines, clock).process.Some?
  {
    ReadLinesAsRun(s, lines, clock);
    RunAppend(s, LineOps(lines), [ExitOp(code)], clock);
    RunFollows(s, LineOps(lines), clock);
  }

  lemma ExitApplied(r: TaskState, code: int, clock: Clock)
    requires r.process.Some?
    ensures Run(r, [ExitOp(code)], clock) == Finish(r, code, clock)
  {
    RunOne(r, ExitOp(code), clock);
  }

  lemma RunOne(s: TaskState, op: Op, clock: Clock)
    ensures Run(s, [op], clock) == Apply(s, op, clock)
  {
    assert [op][1..] == [];
  }

  // ---------------------------------------------------------------------------
  // The object

  /** A `DownloadTask` object: its fields are updated in place by its methods. */
  class DownloadTask {
    var url: string
    var outDir: string
    var outName: string
    var options: Options
    var process: Option<nat>
    var gid: Option<string>
    var progress: nat
    var haveBytes: nat
    var totalBytes: nat
    var dlSpeed: string
    var eta: string
    var connections: nat
    var status: string
    var logLines: seq<LogEntry>
    var stopFlag: bool

    /** The fields as a value. */
    function State(): TaskState
      reads this
    {
      TaskState(url, outDir, outName, options, process, gid, progress, haveBytes, totalBytes,
                dlSpeed, eta, connections, status, logLines, stopFlag)
    }

    constructor(url0: string, outDir0: string, outName0: string, options0: Options, cwd: string)
      ensures State() == Initial(url0, outDir0, outName0, options0, cwd)
    {
      url := Strip(url0);
      outDir := if outDir0 != "" then outDir0 else cwd;
      outName := outName0;
      options := options0;
      process := None;
      gid := None;
      progress := 0;
      haveBytes := 0;
      totalBytes := 0;
      dlSpeed := "";
      eta := "";
      connections := 0;
      status := "Waiting...";
      logLines := [];
      stopFlag := false;
    }

    method Log(message: string, clock: Clock)
      modifies this
      ensures State() == Logged(old(State()), message, clock)
    {
      logLines := logLines + [LogEntry(clock(|logLines|), message)];
    }

    /** `start`; `raised` is the exception `os.makedirs` lets out, with the fields left as they were. */
    method Start(e: StartEnv, clock: Clock) returns (raised: bool)
      modifies this
      ensures raised == StartRaises(old(State()), e)
      ensures State() == StartStep(old(State()), e, clock)
    {
      raised := false;
      if process.Some? {
        Log("Task is already in progress.", clock);
        return;
      }
      if !e.dirReady {
        raised := true;
        return;
      }
      var cmd := BuildCommand(e.aria2, url, outDir, outName, options, e.tokenize);
      Launch("Start command: " + Join(" ", cmd), e.spawn, clock);
    }

    /** The part of `start` from logging the command line on. */
    method Launch(m: string, spawn: Spawn, clock: Clock)
      modifies this
      ensures State() == Launched(old(State()), m, spawn, clock)
    {
      Log(m, clock);
      match spawn {
        case Spawned(h) =>
          process := Some(h);
          status := "Downloading...";
          stopFlag := false;
        case SpawnFailed(reason) =>
          Log("Failed to start: " + reason, clock);
          status := "Error";
      }
    }

    method Pause(alive: bool, failure: Option<string>, clock: Clock)
      modifies this
      ensures State() == PauseStep(old(State()), alive, failure, clock)
    {
      if process.Some? && alive {
        match failure {
          case None =>
            Log("Download paused", clock);
            status := "Paused";
            stopFlag := true;
          case Some(reason) =>
            Log("Failed to pause: " + reason, clock);
        }
      }
    }

    method Stop(alive: bool, failure: Option<string>, clock: Clock)
      modifies this
      ensures State() == StopStep(old(State()), alive, failure, clock)
    {
      if process.Some? && alive {
        match failure {
          case None =>
            Log("Download stopped", clock);
            stopFlag := true;
          case Some(reason) =>
            Log("Failed to stop: " + reason, clock);
        }
      }
      status := "Stopped";
    }

    /** `resume`; `raised` is what the `start` it calls lets out. */
    method Resume(alive: bool, e: StartEnv, clock: Clock) returns (raised: bool)
      modifies this
      ensures raised == (!ResumeRefused(old(State()), alive) && StartRaises(Resuming(old(State()), clock), e))
      ensures State() == ResumeStep(old(State()), alive, e, clock)
    {
      raised := false;
      if status == "Completed" {
        Log("Task already completed, no need to resume", clock);
        return;
      }
      if process.Some? && alive {
        Log("Task is still running, cannot resume", clock);
        return;
      }
      PrepareResume(clock);
      raised := Start(e, clock);
    }

    /** What `resume` does before it calls `start`. */
    method PrepareResume(clock: Clock)
      modifies this
      ensures State() == Resuming(old(State()), clock)
    {
      Log("Resuming download (resume broken download)", clock);
      options := options.(continueFlag := Some(true));
    }

    method ParseProgress(line: string, clock: Clock)
      modifies this
      ensures State() == ParseStep(old(State()), line, clock)
    {
      var found := FindMarker(line);
      if found.Some? {
        TakeMarker(found.value, clock);
      }
      if Completion(line) {
        status := "Completed";
      }
    }

    /** The assignments for a matched marker, up to the first that raises. */
    method TakeMarker(m: Marker, clock: Clock)
      requires WellFormed(m)
      modifies this
      ensures State() == ApplyMarker(old(State()), m, clock)
    {
      TakeGroups(m.gid, DigitsValue(m.percent), DigitsValue(m.connections), m.speed, Strip(m.eta));
      TakeSizes(m.have, m.total, clock);
    }

    /** The assignments of the five groups that cannot raise. */
    method TakeGroups(g: string, percent: nat, conns: nat, speed: string, eta0: string)
      modifies this
      ensures State() == old(State()).(gid := Some(g), progress := percent, connections := conns,
                                       dlSpeed := speed, eta := eta0)
    {
      gid := Some(g);
      progress := percent;
      connections := conns;
      dlSpeed := speed;
      eta := eta0;
    }

    method TakeSizes(have: string, total: string, clock: Clock)
      modifies this
      ensures State() == Sizes(old(State()), have, total, clock)
    {
      match HumanToBytes(have) {
        case Err(msg) =>
          Log("Failed to parse progress: " + msg, clock);
        case Ok(h) =>
          haveBytes := h;
          match HumanToBytes(total) {
            case Err(msg) =>
              Log("Failed to parse progress: " + msg, clock);
            case Ok(n) =>
              totalBytes := n;
          }
      }
    }

    /** `_read_output` over the lines the child prints and the code it exits with. */
    method ReadOutput(lines: seq<string>, exitCode: int, clock: Clock)
      modifies this
      ensures State() == ReadStep(old(State()), lines, exitCode, clock)
    {
      if process.None? {
        return;
      }
      ghost var s0 := State();
      var i := 0;
      while i < |lines|
        invariant 0 <= i <= |lines|
        invariant ReadLines(State(), lines[i..], clock) == ReadLines(s0, lines, clock)
      {
        if stopFlag {
          break;
        }
        assert lines[i..][1..] == lines[i + 1..];
        var line := RStripNewlines(lines[i]);
        Log(line, clock);
        ParseProgress(line, clock);
        i := i + 1;
      }
      if status == "Downloading" && !stopFlag {
        if exitCode == 0 {
          status := "Completed";
          Log("Download completed", clock);
        } else {
          status := "Error";
          Log("Download error, return code: " + IntToString(exitCode), clock);
        }
      }
    }
  }
}
