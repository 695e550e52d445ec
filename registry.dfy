/**
 * The application's task list: `_add_task` builds a `DownloadTask` from the
 * form and appends it, `_delete_task` pops the selected one unless it is
 * downloading. The widgets are not modelled: the form's entries arrive as a
 * `Form` value, and the warnings the dialogs show are the outcomes returned.
 */
module Registry {
  import opened Wrappers
  import opened Text
  import opened Command
  import opened Task

  /** What the form's variables hold when "Add" is pressed. */
  datatype Form = Form(
    url: string,
    outputDir: string,
    filename: string,
    resume: bool,
    split: int,
    connections: int,
    retries: int,
    dlLimit: string,
    userAgent: string,
    referer: string)

  /**
   * The options dictionary `_add_task` builds: continue, split, connections
   * and tries from the form, no preallocation, the stripped limit, user agent
   * and referer, and empty header and extra arguments; no retry wait and no
   * upload limit.
   */
  function FormOptions(f: Form): Options {
    Options(Some(f.resume), Some("none"), Some(f.split), Some(f.connections), Some(f.retries), None,
            Some(Strip(f.dlLimit)), None, Some(Strip(f.referer)), Some(Strip(f.userAgent)), Some(""), Some(""))
  }

  /** The settings those options mean. */
  function FormSettings(f: Form): Settings {
    Settings(f.resume, "none", f.split, f.connections, Some(f.retries), None,
             IfGiven(Some(Strip(f.dlLimit))), None, IfGiven(Some(Strip(f.referer))), IfGiven(Some(Strip(f.userAgent))), [])
  }

  /** The task `_add_task` creates for a form whose url is not blank. */
  function FormTask(f: Form, cwd: string): TaskState {
    Initial(Strip(f.url), Strip(f.outputDir), Strip(f.filename), FormOptions(f), cwd)
  }

  /** `list.pop(i)`: the list without its element at `i`, the others in order. */
  function Removed<T>(ts: seq<T>, i: nat): (r: seq<T>)
    requires i < |ts|
    ensures |r| == |ts| - 1
    ensures forall j :: 0 <= j < i ==> r[j] == ts[j]
    ensures forall j :: i <= j < |r| ==> r[j] == ts[j + 1]
  {
    ts[..i] + ts[i + 1..]
  }

  /** What `_delete_task` does: a warning, the `IndexError` of a stale index, or the deletion. */
  datatype Deletion = NothingSelected | StillDownloading | NoSuchTask | Deleted

  class App {
    var tasks: seq<DownloadTask>
    var selected: Option<nat>

    constructor()
      ensures tasks == [] && selected.None?
    {
      tasks := [];
      selected := None;
    }

    /** `_add_task`: nothing for a blank url, otherwise one new task at the end of the list. */
    method AddTask(f: Form, cwd: string) returns (added: Option<DownloadTask>)
      modifies this
      ensures Strip(f.url) == "" ==> added.None? && tasks == old(tasks)
      ensures Strip(f.url) != "" ==>
                added.Some? && fresh(added.value) && tasks == old(tasks) + [added.value]
                && added.value.State() == FormTask(f, cwd)
      ensures selected == old(selected)
    {
      var url := Strip(f.url);
      if url == "" {
        return None;
      }
      var task := new DownloadTask(url, Strip(f.outputDir), Strip(f.filename), FormOptions(f), cwd);
      tasks := tasks + [task];
      added := Some(task);
    }

    /** `_delete_task`: refused without a selection or while the selected task is `Downloading`. */
    method DeleteTask() returns (outcome: Deletion)
      modifies this
      ensures old(selected).None? ==> outcome == NothingSelected
      ensures old(selected).Some? && old(selected).value >= |old(tasks)| ==> outcome == NoSuchTask
      ensures old(selected).Some? && old(selected).value < |old(tasks)| ==>
                outcome == (if old(tasks)[old(selected).value].status == "Downloading" then StillDownloading else Deleted)
      ensures outcome == Deleted ==> tasks == Removed(old(tasks), old(selected).value) && selected.None?
      ensures outcome != Deleted ==> tasks == old(tasks) && selected == old(selected)
    {
      if selected.None? {
        return NothingSelected;
      }
      var i := selected.value;
      if i >= |tasks| {
        return NoSuchTask;
      }
      if tasks[i].status == "Downloading" {
        return StillDownloading;
      }
      tasks := Removed(tasks, i);
      selected := None;
      outcome := Deleted;
    }
  }

  // ---------------------------------------------------------------------------
  // Properties

  /**
   * The command of a task added from the form reads back as the form's
   * settings, the task's directory and file name, no extra tokens and its url.
   */
  lemma FormCommand(f: Form, cwd: string, aria2: string, tokenize: Tokenizer)
    ensures var s := FormTask(f, cwd);
      ReadCommand(CommandOf(s, aria2, tokenize))
      == Some(Invocation(aria2, FormSettings(f), s.outDir, if s.outName != "" then Some(s.outName) else None, [], s.url))
  {
    var s, o := FormTask(f, cwd), FormOptions(f);
    assert s.options == o;
    FormEffective(f);
    assert ExtraTokens(o, tokenize) == [];
    ReadBuilt(aria2, s.url, s.outDir, s.outName, o, tokenize);
  }

  /** The options the form builds mean the form's settings. */
  lemma FormEffective(f: Form)
    ensures Effective(FormOptions(f)) == FormSettings(f)
  {
    assert HeaderValues(FormOptions(f)) == [];
  }

  /**
   * A task added from the form is never refused deletion, whatever has been
   * done to it: its status is never `Downloading`.
   */
  lemma AddedNeverStillDownloading(f: Form, cwd: string, ops: seq<Op>, clock: Clock)
    ensures Run(FormTask(f, cwd), ops, clock).status != "Downloading"
  {
    RunFollows(FormTask(f, cwd), ops, clock);
  }
}
