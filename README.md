# aria2c task supervisor, modelled in Dafny

This project models the core of `gui_downloader_tkinter.py`, a Tk front end
that runs `aria2c` downloads as tasks. The core covered here has these parts:

- **Size tokens** (`Units`): `human_to_bytes` turns a size token such as
  `2MiB` into a byte count. It finds the first run of digits and dots, reads
  that run with `float`, and scales it by the first of K, M, G or T in the unit
  that `UNIT_RE` captures.
- **Progress markers** (`Pattern`, `Progress`): `PROGRESS_RE` finds aria2c's
  progress marker `[#gid have/total(pct%) CN:n DL:speed ETA:eta]` in an output
  line.
  - `Pattern` is a small regex engine for patterns made of single characters
    and greedy `c+` runs.
  - `Progress` lists `PROGRESS_RE`'s tokens and reads the seven groups.
  - It also has the keyword scan that marks a download complete.
- **The command line** (`Command`): `build_command` as a pure function from
  the task's url, directory, file name and options dictionary to the argument
  vector. Its partner is `ReadCommand`, a reader for vectors in that layout.
  `ReadBuilt` proves that the reader gives back the settings the options
  mean.
- **The task** (`Task`): `DownloadTask` as a value `TaskState` with one pure
  step function per operation:
  - `start`, `pause`, `stop` and `resume`;
  - the reader thread's `_read_output`, which uses `_parse_progress` for each
    line;
  - `log`.

  The class `Task.DownloadTask` has the source's fields except the reader
  thread, with the stop `Event` held as a bool. Each of its methods
  is proved to change them exactly as its step function says.
  `Run` replays any interleaving of whole calls. `RunFollows` gives what every
  interleaving keeps: the log only grows, a process handle stays set once set,
  and the url, directory, file name and every option except `continue` stay
  fixed (`resume` switches `continue` on).
- **The task list** (`Registry`): the application's `_add_task` and
  `_delete_task`.

The environment is passed in as parameters:

- a `Clock` gives each log entry its timestamp;
- a `StartEnv` says whether the output directory can be made and what
  spawning the child gives;
- `alive` and `failure` stand for `poll()` and what `terminate()` raised;
- the child's output lines and exit code are inputs of `_read_output`;
- `shlex.split` is a `Tokenizer` parameter, which fails when it would raise.

### Where the code does not do what its names and docstring say

In each case below the model does what the code does. A lemma shows each one.

- **"1K" is 1 byte, not 1024.** `human_to_bytes` reads the unit with
  `UNIT_RE` (line 41), which takes a unit only when it ends in `B`. Without
  the `B` the unit is empty and the number is not scaled
  (`Units.BareLetterExample`).
- **A task spawns at most one process.** The module docstring (line 17) says
  that resuming continues the download. But `process` is never reset, so the
  test at line 142 makes `start` refuse whenever a handle was ever set. A
  `pause` followed by `resume` logs the resume and then "Task is already in
  progress." and spawns nothing (`Task.ResumeAfterSpawn`, `Task.RunFollows`).
- **The exit code never decides the status.** `start` sets the status to
  `Downloading...` with three dots (line 159), but `_read_output` compares it
  with `Downloading` (line 223). The comparison never holds: the status is
  never `Downloading`, and the exit step changes nothing
  (`Task.FreshTaskNeverJudgesExit`). An exit code 0 therefore does not make a
  task `Completed` unless some line carried a completion keyword.
- **Deleting a task is never refused because of its status.** The test at
  line 567 is the same dead comparison with `Downloading`
  (`Registry.AddedNeverStillDownloading`). `_delete_task` still refuses when
  nothing is selected (`Registry.App.DeleteTask`).
- **A failure to create the directory escapes `start`.** `os.makedirs` is
  called in `build_command` (lines 86-87), before `start`'s `try` at line 149.
  The exception leaves `start` before anything is logged, and the status is
  not set to `Error` (`Task.StartRaises`, `Task.DownloadTask.Start`).
- **A half-applied marker stays applied.** If `total` fails to parse after
  `have` parsed (lines 244-245), `have_bytes` keeps its new value along with
  the other groups (`Task.ParseMarker`).

## Model

| member | source | states |
|---|---|---|
| Units.HumanToBytes | gui_downloader_tkinter.py:43-62 | the definition of `human_to_bytes`: 0 for empty text, the `int(s)` fallback when no run is found, `float`'s error, or the run scaled by the unit; its properties are the `Units` lemmas below |
| Units.ParseFloat | gui_downloader_tkinter.py:52 | the definition of `float` on a run of digits and dots; `ParseFloatAccepts` and `ParseFloatDecimal` state when it succeeds and what it gives |
| Units.UnitAt | gui_downloader_tkinter.py:41 | the definition of `UNIT_RE`'s unit group at the position after the number and its blanks; `UnitExponent` states which power it gives |
| Units.HumanToBytesNoNumber | gui_downloader_tkinter.py:43-51 | empty text, or text with no digit or dot (so `int(s)` fails too), is worth 0 bytes |
| Units.ParseFloatAccepts | gui_downloader_tkinter.py:52 | `float` accepts a run of digits and dots exactly when it has at most one dot and at least one digit |
| Units.HumanToBytesRaises | gui_downloader_tkinter.py:46-52 | for the first run of digits and dots in the text, the call raises exactly when `float` rejects that run, with Python's message quoting the run |
| Units.ParseFloatDecimal | gui_downloader_tkinter.py:52 | `float` reads `a.b` (or bare `a`) as the digits of `a` and `b` over 10^len(b) |
| Units.UnitExponent | gui_downloader_tkinter.py:41-61 | the power of 1024 is the position in KMGT of the unit's leading letter, in either case, when `B` or `iB` follows it; otherwise 0 |
| Units.HumanToBytesAccepted | gui_downloader_tkinter.py:46-62 | when the first run parses, the result is that number scaled by the unit found after the whitespace behind it |
| Units.HumanToBytesValue | gui_downloader_tkinter.py:43-62 | for a first run `a.b` and a unit power k, the result is the decimal `ab / 10^len(b)` scaled by 1024^k |
| Units.ScaledBounds | gui_downloader_tkinter.py:55-62 | the scaled value r is the floor `int(val * 1024**k)`: r·10^e ≤ val·10^e·1024^k < (r+1)·10^e |
| Units.DigitsValueAppend | gui_downloader_tkinter.py:52 | the digits of `a + b` are worth a·10^len(b) + b, the step behind reading a decimal |
| Units.MebibyteExample | gui_downloader_tkinter.py:56-57 | "2MiB" is 2097152 bytes |
| Units.BareLetterExample | gui_downloader_tkinter.py:41 | "1K" is 1 byte, because the unit group needs a `B` |
| Units.TwoDotsExample | gui_downloader_tkinter.py:52 | "1.2.3" raises `could not convert string to float: '1.2.3'` |
| Pattern.Search | gui_downloader_tkinter.py:234 | `search` gives the leftmost position where the pattern matches, with the match there; no match means no position matches |
| Pattern.MatchSound | gui_downloader_tkinter.py:36-39 | a match splits the text at its position into one piece per token, each fitting its token |
| Pattern.MatchComplete | gui_downloader_tkinter.py:36-39 | when every run is stopped by the token after it, any such split of the text is the match found, so the greedy reading is the only one |
| Pattern.SearchFinds | gui_downloader_tkinter.py:234 | a match at p with none before p is what `search` returns |
| Progress.ProgressPattern | gui_downloader_tkinter.py:36-39 | the definition of `PROGRESS_RE` as tokens; `ProgressDeterministic` and `FindRendered` state what it matches |
| Progress.Completion | gui_downloader_tkinter.py:250-251 | the definition of the keyword test; `CompletionKeyword` states that each keyword, in any case and anywhere, passes it |
| Progress.ProgressDeterministic | gui_downloader_tkinter.py:36-39 | every `+` run of `PROGRESS_RE` is ended by the token after it |
| Progress.FindMarker | gui_downloader_tkinter.py:234-243 | the groups of a found marker are non-empty runs of their classes: hex gid, size tokens, decimal percent and connections, eta without `]` |
| Progress.FindRendered | gui_downloader_tkinter.py:36-39 | aria2c's marker for any well-formed groups, after text without `[` and before anything, is found with exactly those groups |
| Progress.NoBracketNoMarker | gui_downloader_tkinter.py:36-39 | a line without `[` has no marker |
| Progress.CompletionKeyword | gui_downloader_tkinter.py:250-252 | any of the three keywords, in any case and anywhere in a line, marks the line as a completion |
| Command.Effective | gui_downloader_tkinter.py:89-120 | the definition of what the options mean, with the builder's defaults; `ReadBuilt` states that the built vector carries exactly this |
| Command.ExtraTokens | gui_downloader_tkinter.py:130-135 | the definition of the extra tokens: `shlex.split`, or `str.split()` when it raises, and none when `extra_args` is empty; `ReadBuilt` states that they are passed through unchanged before the url |
| Command.BuildCommand | gui_downloader_tkinter.py:83-139 | the vector starts with the aria2c path and ends with the url, and has `-c` second exactly when `continue` is missing or true |
| Command.KeptHeaders | gui_downloader_tkinter.py:117-120 | no more headers than lines, each non-empty and without white space at either end |
| Command.KeptHeadersOne | gui_downloader_tkinter.py:117-120 | one line gives its stripped text, or nothing when that is blank |
| Command.KeptHeadersAppend | gui_downloader_tkinter.py:117-120 | the headers of two blocks of lines are those of each block, in order |
| Command.HeadersRead | gui_downloader_tkinter.py:116-120 | the `--header=` arguments written for a list of headers read back as exactly that list, in order, with whatever follows left unread |
| Command.KeyOfSpelling | gui_downloader_tkinter.py:93-120 | every flag name the builder writes is read back as that flag and holds no `=` |
| Command.ParseIntOfString | gui_downloader_tkinter.py:95-99 | the decimal text written for an integer setting reads back as that integer |
| Command.FlagsRead | gui_downloader_tkinter.py:89-120 | the option flags, in the builder's order, read back as the settings they were written from |
| Command.OutputRead | gui_downloader_tkinter.py:122-137 | after the flags: overwrite without renaming, `-d` with the directory, `-o` with the file name only when there is one, the extra tokens, then the url |
| Command.ReadBuilt | gui_downloader_tkinter.py:83-139 | the built vector reads back as the program, the settings the options mean (`continue` on by default, allocation `none`, 4 pieces and as many connections unless set, retries when present, limits, referer and user agent only when non-empty, one header per non-blank line), the directory, the file name if any, the extra tokens and the url |
| Task.Initial | gui_downloader_tkinter.py:65-81 | the definition of a new task's state; `DownloadTask.constructor` is proved to produce it and `FreshTaskNeverJudgesExit` states what follows from it |
| Task.StartStep | gui_downloader_tkinter.py:141-167 | the definition of `start`; its properties are `StartWhileRunning`, `StartHandle`, `StartLaunches`, `StartLog` and `StartFollows` |
| Task.StartRaises | gui_downloader_tkinter.py:86-87 | the definition of when `start` raises: no handle yet and a directory that cannot be made; `DownloadTask.Start` returns exactly this |
| Task.Launched | gui_downloader_tkinter.py:147-167 | the definition of the logged launch and the `try` around `Popen`; `StartLaunches` and `SpawnLog` state its effect |
| Task.PauseStep | gui_downloader_tkinter.py:169-178 | the definition of `pause`; its properties are `PauseEffect`, `PauseIdle` and `PauseFollows` |
| Task.StopStep | gui_downloader_tkinter.py:180-189 | the definition of `stop`; its properties are `StopEffect`, `StopIdempotent` and `StopFollows` |
| Task.Resuming | gui_downloader_tkinter.py:201-202 | the definition of the state `resume` hands to `start`; `ResumeRestarts` states its log entry and options |
| Task.ResumeStep | gui_downloader_tkinter.py:191-203 | the definition of `resume`; its properties are `ResumeRefusedOnlyLogs`, `ResumeRestarts`, `ResumeAfterSpawn` and `ResumeFollows` |
| Task.ApplyMarker | gui_downloader_tkinter.py:236-247 | the definition of the assignments for a matched marker; `ApplyMarkerEffect` states them |
| Task.Sizes | gui_downloader_tkinter.py:244-247 | the definition of the two `human_to_bytes` assignments and the caught error; `ApplyMarkerEffect` states their effect |
| Task.ParseStep | gui_downloader_tkinter.py:232-252 | the definition of `_parse_progress`; its properties are `ParseMarker`, `ParseNoMarker`, `ParseRendered`, `ParseLog` and `ParseFollows` |
| Task.LineStep | gui_downloader_tkinter.py:214-216 | the definition of one pass of the reader loop; `LineFollows` and `ReadLinesTranscript` state its effect |
| Task.ReadLines | gui_downloader_tkinter.py:210-216 | the definition of the reader loop; `ReadLinesTranscript`, `ReadStopsOnFlag`, `ReadLinesStatus` and `ReadLinesAsRun` state its properties |
| Task.Finish | gui_downloader_tkinter.py:218-230 | the definition of the exit step; `FinishJudges`, `ExitCodeIgnored` and `FinishFollows` state its properties |
| Task.ReadStep | gui_downloader_tkinter.py:205-230 | the definition of `_read_output`; `DownloadTask.ReadOutput` is proved to compute it and `ReadOutputAsRun` relates it to single calls |
| Task.Logged | gui_downloader_tkinter.py:254-258 | `log` appends one entry stamped by the clock and changes nothing else |
| Task.LoggedExtends | gui_downloader_tkinter.py:254-258 | logging keeps every earlier entry and adds the message last |
| Task.LoggedLine | gui_downloader_tkinter.py:254-258 | `log` appends the string `[timestamp] message`, with the clock's stamp, after the lines already kept |
| Task.LinesAt | gui_downloader_tkinter.py:257-258 | the kept lines are the entries' `[stamp] message` strings, one per entry, in order |
| Task.DownloadTask.constructor | gui_downloader_tkinter.py:65-81 | a new task is `Waiting...` with a stripped url, the working directory when none is given, no process, no gid, zeroed counters and an empty log |
| Task.DownloadTask.Log | gui_downloader_tkinter.py:254-258 | the method appends the entry `Logged` describes |
| Task.StartWhileRunning | gui_downloader_tkinter.py:141-144 | with a process handle present, `start` only logs "Task is already in progress." |
| Task.StartHandle | gui_downloader_tkinter.py:141-167 | after `start` there is a handle exactly when there was one or the directory was ready and the spawn succeeded; an existing handle is kept |
| Task.StartLaunches | gui_downloader_tkinter.py:146-167 | a launch logs the joined command; a spawn makes the task `Downloading...` with the stop flag cleared, and a failed spawn logs the reason and makes it `Error` with no handle |
| Task.StartLog | gui_downloader_tkinter.py:141-167 | `start` only appends to the log and never changes the options |
| Task.DownloadTask.Start | gui_downloader_tkinter.py:141-167 | the method raises exactly when there is no handle and the directory cannot be made, and it leaves the state `start` describes |
| Task.PauseEffect | gui_downloader_tkinter.py:169-178 | a running process that terminates makes the task `Paused` and sets the stop flag; otherwise the status and flag stay as they were; with a live process one entry is logged, "Download paused" or "Failed to pause: " and the reason; every other field is unchanged |
| Task.PauseIdle | gui_downloader_tkinter.py:171 | with no live process, `pause` changes nothing, not even the log |
| Task.DownloadTask.Launch | gui_downloader_tkinter.py:147-167 | the method logs the command and spawns, leaving the state `Launched` describes |
| Task.DownloadTask.Pause | gui_downloader_tkinter.py:169-178 | the method leaves the state `pause` describes |
| Task.StopEffect | gui_downloader_tkinter.py:180-189 | the task is `Stopped` whatever happened; the stop flag is set when a running process terminated; with a live process one entry is logged, "Download stopped" or "Failed to stop: " and the reason; every other field is unchanged |
| Task.StopIdempotent | gui_downloader_tkinter.py:180-189 | a second `stop` leaves the status the first one set |
| Task.DownloadTask.Stop | gui_downloader_tkinter.py:180-189 | the method leaves the state `stop` describes |
| Task.ResumeRefusedOnlyLogs | gui_downloader_tkinter.py:193-199 | a `Completed` task, or one whose process runs, gets exactly one log entry from `resume` and nothing else changes |
| Task.ResumeRestarts | gui_downloader_tkinter.py:201-203 | otherwise `resume` logs the resume, switches `continue` on and no other option, and the command it starts has `-c` second |
| Task.ResumeAfterSpawn | gui_downloader_tkinter.py:191-203 | after a process was once spawned, `resume` on a dead process logs the resume then "Task is already in progress." and keeps the old handle |
| Task.DownloadTask.PrepareResume | gui_downloader_tkinter.py:201-202 | the method logs the resume and switches `continue` on, leaving the state `Resuming` describes |
| Task.DownloadTask.Resume | gui_downloader_tkinter.py:191-203 | the method raises exactly when `resume` goes through to a `start` that raises, and it leaves the state `resume` describes |
| Task.ParseMarker | gui_downloader_tkinter.py:232-252 | a marker sets gid, percent, connections, speed and the stripped eta; have and total are set while `human_to_bytes` succeeds; the first failure is logged; the status becomes `Completed` only on a keyword |
| Task.ApplyMarkerEffect | gui_downloader_tkinter.py:236-247 | the assignments in order up to the first that raises; the handle, flag, options, url, directory, file name and status are untouched |
| Task.ParseNoMarker | gui_downloader_tkinter.py:234-252 | without a marker only the completion keyword can change anything |
| Task.ParseRendered | gui_downloader_tkinter.py:232-243 | a line holding aria2c's marker after text without `[` sets the marker's groups |
| Task.ParseLog | gui_downloader_tkinter.py:232-252 | a line adds at most the caught error to the log and changes no handle, flag, option, url, directory or file name |
| Task.DownloadTask.ParseProgress | gui_downloader_tkinter.py:232-252 | the method leaves the state `_parse_progress` describes |
| Task.DownloadTask.TakeMarker | gui_downloader_tkinter.py:236-247 | for a well-formed marker the method leaves the state `ApplyMarker` describes |
| Task.DownloadTask.TakeGroups | gui_downloader_tkinter.py:237-243 | the method sets gid, percent, connections, speed and eta to the values `TakeMarker` passes (the converted groups and the stripped eta) and changes nothing else |
| Task.DownloadTask.TakeSizes | gui_downloader_tkinter.py:244-247 | the method sets the byte counts up to the first failing conversion and logs that failure, leaving the state `Sizes` describes |
| Task.ReadLinesTranscript | gui_downloader_tkinter.py:210-216 | with the stop flag clear every line is logged without its trailing newlines, followed by any caught parse error, in order; the task becomes `Completed` when some line carries a keyword, and otherwise keeps its status |
| Task.ReadStopsOnFlag | gui_downloader_tkinter.py:205-230 | with the stop flag set the reader logs nothing and changes nothing, whatever the exit code |
| Task.ReadLinesStatus | gui_downloader_tkinter.py:210-216 | reading lines can only keep the status or make it `Completed` |
| Task.FinishJudges | gui_downloader_tkinter.py:223-230 | a `Downloading` task not stopped becomes `Completed` on exit code 0 and `Error` otherwise, logging which |
| Task.ExitCodeIgnored | gui_downloader_tkinter.py:205-230 | a task that is not `Downloading` ends the same whatever the exit code, and is not `Downloading` afterwards |
| Task.DownloadTask.ReadOutput | gui_downloader_tkinter.py:205-230 | the loop leaves the state of the reader over the given lines and exit code, stopping at the first line that finds the flag set |
| Task.ReadOutputAsRun | gui_downloader_tkinter.py:205-230 | the reader is the same as one line event per output line followed by the exit event |
| Task.RunAppend | gui_downloader_tkinter.py:205-230 | running two sequences of calls is running the first, then the second |
| Task.ApplyFollows | gui_downloader_tkinter.py:141-258 | every single call keeps the log's entries, keeps a handle once set, never reaches `Downloading`, keeps a raised stop flag while there is a process, and keeps the url, directory, file name and options other than `continue` |
| Task.RunFollows | gui_downloader_tkinter.py:141-258 | any sequence of calls keeps all of that |
| Task.FreshTaskNeverJudgesExit | gui_downloader_tkinter.py:159-226 | a new task is never `Downloading` after any calls, so the exit step never changes it |
| Registry.App.constructor | gui_downloader_tkinter.py:268-269 | a new application has no tasks and no selection |
| Registry.FormOptions | gui_downloader_tkinter.py:440-451 | the definition of the options dictionary `_add_task` builds; `FormEffective` and `FormCommand` state what it means |
| Registry.FormTask | gui_downloader_tkinter.py:453 | the definition of the task `_add_task` creates; `App.AddTask` is proved to append it |
| Registry.Removed | gui_downloader_tkinter.py:576 | `pop(i)` keeps the elements before i and shifts those after it down by one |
| Registry.FormEffective | gui_downloader_tkinter.py:440-451 | the options the form builds mean the form's own settings, with limits, referer and user agent stripped and dropped when blank |
| Registry.FormCommand | gui_downloader_tkinter.py:440-454 | the command of a task added from the form reads back as the form's settings, the task's directory and file name, and its url |
| Registry.App.AddTask | gui_downloader_tkinter.py:430-463 | a blank url adds nothing; otherwise exactly one new task, in its initial state, is appended to the list |
| Registry.App.DeleteTask | gui_downloader_tkinter.py:559-582 | no selection, a stale index or a `Downloading` task leaves the list alone; otherwise the selected task is removed and the selection cleared |
| Registry.AddedNeverStillDownloading | gui_downloader_tkinter.py:567 | a task added from the form is never refused deletion, whatever calls were made on it |

## Left out

- The Tk window, the form's widgets, the task tree and its refresh timer,
  the dialogs, `_on_task_select` and the application's own console log are
  not modelled. The form arrives as a value, and the warnings come back as
  outcomes.
- Threads are not modelled. The reader thread runs as one call over the lines
  it would read. `Run` interleaves whole calls, not the statements inside
  them.
- `subprocess.Popen`, `poll`, `terminate` and `wait` are not modelled. The
  model stands for them with an abstract handle, an `alive` bit, an optional
  failure and an exit code.
- `os.path.isdir` and `os.makedirs` are not modelled. A `dirReady` bit stands
  for them.
- `os.getcwd` and `time.strftime` are not modelled. The working directory is
  a parameter, and a `Clock` gives the timestamps.
- `shlex.split` is not modelled. It is a parameter that fails when it would
  raise. The fallback to `str.split()` after such a failure is modelled.
- Units.HumanToBytesValue: the model does not capture float rounding. It
  computes `int(val * 1024**k)` exactly on the decimal, which is what the
  code means. The results differ whenever float rounding crosses an integer,
  in either direction. "9007199254740993" is read as ...992 by `float`, and
  "0.99999999999999999" rounds up to 1.0, so the source gives 1 where the
  model gives 0.
- Units.HumanToBytes: the model does not raise on float overflow. A run too
  long for a float, or a large one times 1024**k, becomes infinity in the
  source. `int` then raises OverflowError, which `_parse_progress` catches and
  logs (lines 246-247). The model returns a finite number and logs nothing.
- Task.ParseMarker: the model does not capture the limit that newer Python
  versions (3.11 on, and the security releases of 3.7 to 3.10) put on
  converting between integers and long decimal strings. The same holds for
  Task.ApplyMarker, Task.ApplyMarkerEffect, Task.ParseRendered and
  Command.BuildCommand.
  - With a percent or connections group of more than 4300 digits, `int()` at
    lines 240-241 raises `ValueError`.
  - `_parse_progress` catches and logs it (lines 246-247). By then gid is set,
    and none of the later fields are.
  - The model reads any digit run and logs nothing.
  - `str()` of such an integer option in `build_command` (lines 98-99, 103
    and 105) would raise in the same way. The model always prints it.
- Text and Pattern are restricted to ASCII. `\w`, `\s`, `str.strip`,
  `str.splitlines`, `str.lower` and `int()` over non-ASCII digits or spaces
  are not modelled.
- Conversion errors of the form's integer variables are not modelled. They
  are raised by Tk, not by the core.
- Command.ReadBuilt: the case with no file name and extra tokens that start
  with `-o` and a value is excluded. aria2c itself would read those tokens as
  the file name.
- `_start_task`, `_pause_task`, `_resume_task` and `_stop_task` are not
  modelled as members of `App`. They only check for a selection, as
  `DeleteTask` does, and then call the task's own method. `start` and
  `resume` run on a thread of their own there.
