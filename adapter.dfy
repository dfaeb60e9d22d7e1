/** The Perforce source-control adapter as an object: its settings are
    fields that callers assign after construction, and the operations that
    talk to the server go through two injected collaborators, one that
    turns a sub-command into a process description and one that runs a
    process. Every call to a collaborator is recorded, in order, in a ghost
    log, so that what an operation asks of the outside world is part of its
    contract. */
module P4Adapter {
  import opened Wrappers
  import opened Text
  import opened P4Commands
  import Dates

  /** What running a process gives back. */
  datatype ProcessResult = ProcessResult(standardOutput: string, standardError: string, exitCode: int, timedOut: bool)

  /** A process succeeded when it exited with code 0. */
  predicate Succeeded(r: ProcessResult)
  {
    r.exitCode == 0
  }

  /** The collaborator that describes the process for a sub-command of
      the adapter, given the adapter's settings. */
  type Creator = (Config, string) -> ProcessInfo

  /** The collaborator that runs a process. */
  type Executor = ProcessInfo -> ProcessResult

  /** One call the adapter makes on a collaborator. */
  datatype Call =
    | CreateProcessInfo(settings: Config, command: string)
    | Execute(info: ProcessInfo)
    | Initialize(settings: Config, project: string, workingDirectory: string)

  /** Why an operation failed. */
  datatype AdapterError =
    | NumericLabel(name: string)                          // a label made only of digits
    | ToolFailed(info: ProcessInfo, standardError: string)  // a process exited with a non-zero code

  /** The calls an operation makes, in order, and how it ends. */
  datatype Run = Run(calls: seq<Call>, outcome: Outcome<AdapterError>)

  const NoCalls: Run := Run([], Pass)

  /** One server command: have the creator describe the process, attach
      `input` as its standard input when there is one, run it, and fail
      with the captured error output when it exits with a non-zero code. */
  function RunCommand(cfg: Config, create: Creator, execute: Executor, command: string, input: Option<string>): Run
  {
    var created := create(cfg, command);
    var info := if input.Some? then created.(standardInput := input) else created;
    var result := execute(info);
    Run([CreateProcessInfo(cfg, command), Execute(info)],
        if Succeeded(result) then Pass else Fail(ToolFailed(info, result.standardError)))
  }

  /** `second` runs only when `first` passed. */
  function Then(first: Run, second: Run): Run
  {
    if first.outcome.Fail? then first else Run(first.calls + second.calls, second.outcome)
  }

  /** Labelling: nothing at all unless labelling is switched on; then a
      numeric-only label is refused before any call; otherwise the label
      form is submitted with `label -i` and, once that succeeded, the label
      is attached to the client's files with `labelsync -l <label>`. */
  function LabelRun(cfg: Config, create: Creator, execute: Executor, name: string): Run
  {
    if !cfg.applyLabel then NoCalls
    else if IsNumericLabel(name) then Run([], Fail(NumericLabel(name)))
    else Then(RunCommand(cfg, create, execute, LabelSpecCommand, Some(LabelSpec(name, cfg.view))),
              RunCommand(cfg, create, execute, LabelSyncCommand(name), None))
  }

  /** Fetching the source: one `sync` when automatic fetching is on,
      nothing otherwise. */
  function GetSourceRun(cfg: Config, create: Creator, execute: Executor): Run
  {
    if !cfg.autoGetSource then NoCalls
    else RunCommand(cfg, create, execute, SyncCommand, None)
  }

  // ---------------------------------------------------------------------
  // The adapter object

  class P4 {
    var executable: string
    var view: string
    var client: Option<string>
    var user: Option<string>
    var port: Option<string>
    var workingDirectory: Option<string>
    var autoGetSource: bool
    var applyLabel: bool

    const create: Creator
    const execute: Executor

    /** Every collaborator call made so far, oldest first. */
    ghost var calls: seq<Call>

    /** The current settings as one value. */
    function Settings(): Config
      reads this`executable, this`view, this`client, this`user, this`port,
            this`workingDirectory, this`autoGetSource, this`applyLabel
    {
      Config(executable, view, client, user, port, workingDirectory, autoGetSource, applyLabel)
    }

    /** An adapter with the given collaborators and default settings. */
    constructor (execute: Executor, create: Creator)
      ensures Settings() == DefaultConfig()
      ensures this.execute == execute && this.create == create
      ensures calls == []
    {
      executable := DefaultExecutable;
      view := "";
      client, user, port, workingDirectory := None, None, None, None;
      autoGetSource, applyLabel := false, false;
      this.execute := execute;
      this.create := create;
      calls := [];
    }

    /** An adapter whose processes are described from its own settings:
        the executable, the global options, then the sub-command. */
    constructor Standard(execute: Executor)
      ensures Settings() == DefaultConfig()
      ensures this.execute == execute
      ensures StandardCreator(create)
      ensures calls == []
    {
      executable := DefaultExecutable;
      view := "";
      client, user, port, workingDirectory := None, None, None, None;
      autoGetSource, applyLabel := false, false;
      this.execute := execute;
      create := DefaultProcessInfo;
      calls := [];
    }

    /** The process listing the view's submitted change lists between two
        instants, asked of the creator. With the standard creator it runs
        the configured executable with no input, and, when the option values
        and the view have no spaces in them, the tool reads the global
        options and then exactly the four words `changes`, `-s`,
        `submitted` and `<view>@<from>,@<to>`. */
    method CreateChangeListProcess(from: Dates.DateTime, to: Dates.DateTime) returns (info: ProcessInfo)
      modifies this`calls
      ensures calls == old(calls) + [CreateProcessInfo(Settings(), ChangesCommand(view, from, to))]
      ensures info == create(Settings(), ChangesCommand(view, from, to))
      ensures StandardCreator(create) ==> info == ChangeListProcess(Settings(), from, to)
      ensures StandardCreator(create) ==> info.fileName == executable && info.standardInput.None?
      ensures StandardCreator(create) && OptionsAreWords(Settings()) && ' ' !in view ==>
        Words(info.arguments) == CommonWords(Settings()) + ["changes", "-s", "submitted", ChangesRange(view, from, to)]
    {
      var cfg := Settings();
      var command := ChangesCommand(view, from, to);
      info := create(cfg, command);
      calls := calls + [CreateProcessInfo(cfg, command)];
      if StandardCreator(create) && OptionsAreWords(cfg) && ' ' !in view {
        ChangeListWords(cfg, from, to);
      }
    }

    /** The process describing the given change lists, refused before the
        creator is asked when the list is empty or holds anything but
        digits and spaces. */
    method CreateDescribeProcess(changes: string) returns (r: Result<ProcessInfo, CommandError>)
      modifies this`calls
      ensures r.Success? <==> changes != [] && IsChangeListText(changes)
      ensures r == Failure(EmptyChangeList) <==> changes == []
      ensures r.Failure? ==> calls == old(calls)
      ensures r.Success? ==>
        && calls == old(calls) + [CreateProcessInfo(Settings(), "describe -s " + changes)]
        && r.value == create(Settings(), "describe -s " + changes)
      ensures StandardCreator(create) ==> r == DescribeProcess(Settings(), changes)
      ensures StandardCreator(create) && r.Success? && OptionsAreWords(Settings()) ==>
        Words(r.value.arguments) == CommonWords(Settings()) + ["describe", "-s"] + Words(changes)
    {
      var cfg := Settings();
      var checked := DescribeCommand(changes);
      if checked.Failure? {
        r := Failure(checked.error);
      } else {
        r := Success(create(cfg, checked.value));
        calls := calls + [CreateProcessInfo(cfg, checked.value)];
        if StandardCreator(create) && OptionsAreWords(cfg) {
          DescribeWords(cfg, changes);
        }
      }
    }

    /** Runs one server command through the collaborators. */
    method Invoke(command: string, input: Option<string>) returns (outcome: Outcome<AdapterError>)
      modifies this`calls
      ensures var run := RunCommand(Settings(), create, execute, command, input);
        calls == old(calls) + run.calls && outcome == run.outcome
    {
      var cfg := Settings();
      var info := create(cfg, command);
      calls := calls + [CreateProcessInfo(cfg, command)];
      if input.Some? {
        info := info.(standardInput := input);
      }
      var result := execute(info);
      calls := calls + [Execute(info)];
      if result.exitCode == 0 {
        outcome := Pass;
      } else {
        outcome := Fail(ToolFailed(info, result.standardError));
      }
    }

    /** Applies the label `name` to the view, as LabelRun describes. */
    method LabelSourceControl(name: string) returns (outcome: Outcome<AdapterError>)
      modifies this`calls
      ensures var run := LabelRun(Settings(), create, execute, name);
        calls == old(calls) + run.calls && outcome == run.outcome
    {
      if !applyLabel {
        return Pass;
      }
      if IsNumericLabel(name) {
        return Fail(NumericLabel(name));
      }
      outcome := Invoke(LabelSpecCommand, Some(LabelSpec(name, view)));
      if outcome.Pass? {
        outcome := Invoke(LabelSyncCommand(name), None);
      }
    }

    /** Brings the client's files up to date, as GetSourceRun describes. */
    method GetSource() returns (outcome: Outcome<AdapterError>)
      modifies this`calls
      ensures var run := GetSourceRun(Settings(), create, execute);
        calls == old(calls) + run.calls && outcome == run.outcome
    {
      outcome := Pass;
      if autoGetSource {
        outcome := Invoke(SyncCommand, None);
      }
    }

    /** Hands the workspace initializer the adapter, the project name and
        the directory to prepare: the adapter's own working directory when
        it is set and not empty, the project's otherwise. */
    method InitializeDirectory(project: string, projectWorkingDirectory: string)
      modifies this`calls
      ensures calls == old(calls) + [Initialize(Settings(), project, ResolveWorkingDirectory(workingDirectory, projectWorkingDirectory))]
      ensures workingDirectory.Some? && workingDirectory.value != [] ==>
        calls[|calls| - 1].workingDirectory == workingDirectory.value
      ensures workingDirectory.None? || workingDirectory.value == [] ==>
        calls[|calls| - 1].workingDirectory == projectWorkingDirectory
    {
      var dir := ResolveWorkingDirectory(workingDirectory, projectWorkingDirectory);
      calls := calls + [Initialize(Settings(), project, dir)];
    }
  }

  // ---------------------------------------------------------------------
  // What the operations promise

  /** The creator that describes every process from the settings alone:
      the executable, the global options, then the sub-command. */
  ghost predicate StandardCreator(create: Creator)
  {
    forall cfg, command :: create(cfg, command) == DefaultProcessInfo(cfg, command)
  }

  /** Two process descriptions for the same program and arguments. */
  predicate SameProcess(a: ProcessInfo, b: ProcessInfo)
  {
    a.fileName == b.fileName && a.arguments == b.arguments
  }

  /** A call log made of create/execute pairs in which each executed
      process is the one just created (its standard input aside). */
  predicate Paired(calls: seq<Call>, create: Creator)
    decreases |calls|
  {
    || calls == []
    || (&& |calls| >= 2
        && calls[0].CreateProcessInfo?
        && calls[1].Execute?
        && SameProcess(calls[1].info, create(calls[0].settings, calls[0].command))
        && Paired(calls[2..], create))
  }

  /** The sub-commands a log asks the creator for, in order. */
  function Commands(calls: seq<Call>): seq<string>
  {
    if calls == [] then []
    else if calls[0].CreateProcessInfo? then [calls[0].command] + Commands(calls[1..])
    else Commands(calls[1..])
  }

  /** The processes a log runs, in order. */
  function Executed(calls: seq<Call>): seq<ProcessInfo>
  {
    if calls == [] then []
    else if calls[0].Execute? then [calls[0].info] + Executed(calls[1..])
    else Executed(calls[1..])
  }

  /** In a paired log every created process is run: half the calls ask
      for a process and half run one. */
  lemma {:induction false} PairedCounts(calls: seq<Call>, create: Creator)
    requires Paired(calls, create)
    ensures |calls| % 2 == 0
    ensures |Commands(calls)| == |Executed(calls)| == |calls| / 2
    decreases |calls|
  {
    if calls != [] {
      PairedCounts(calls[2..], create);
      assert calls[1..][1..] == calls[2..];
    }
  }

  lemma {:induction false} PairedAppend(a: seq<Call>, b: seq<Call>, create: Creator)
    requires Paired(a, create) && Paired(b, create)
    ensures Paired(a + b, create)
    decreases |a|
  {
    if a == [] {
      assert a + b == b;
    } else {
      PairedAppend(a[2..], b, create);
      assert (a + b)[2..] == a[2..] + b;
    }
  }

  lemma {:induction false} CommandsAppend(a: seq<Call>, b: seq<Call>)
    ensures Commands(a + b) == Commands(a) + Commands(b)
    decreases |a|
  {
    if a == [] {
      assert a + b == b;
    } else {
      CommandsAppend(a[1..], b);
      assert (a + b)[1..] == a[1..] + b;
    }
  }

  lemma {:induction false} ExecutedAppend(a: seq<Call>, b: seq<Call>)
    ensures Executed(a + b) == Executed(a) + Executed(b)
    decreases |a|
  {
    if a == [] {
      assert a + b == b;
    } else {
      ExecutedAppend(a[1..], b);
      assert (a + b)[1..] == a[1..] + b;
    }
  }

  /** A server command asks for exactly its own sub-command and runs
      exactly the process created for it, with the given input attached,
      and passes exactly when that process succeeds. */
  lemma RunCommandShape(cfg: Config, create: Creator, execute: Executor, command: string, input: Option<string>)
    ensures var run := RunCommand(cfg, create, execute, command, input);
      && Paired(run.calls, create)
      && Commands(run.calls) == [command]
      && |Executed(run.calls)| == 1
      && SameProcess(Executed(run.calls)[0], create(cfg, command))
      && Executed(run.calls)[0].standardInput == (if input.Some? then input else create(cfg, command).standardInput)
      && (run.outcome.Pass? <==> Succeeded(execute(Executed(run.calls)[0])))
  {
    var run := RunCommand(cfg, create, execute, command, input);
    assert run.calls[2..] == [];
    assert run.calls[1..][1..] == [];
    assert Executed(run.calls[1..]) == [run.calls[1].info];
    assert Executed(run.calls) == Executed(run.calls[1..]);
    assert Commands(run.calls[1..]) == [];
  }

  lemma ThenShape(first: Run, second: Run, create: Creator)
    requires Paired(first.calls, create) && Paired(second.calls, create)
    ensures Paired(Then(first, second).calls, create)
    ensures Commands(Then(first, second).calls)
         == if first.outcome.Pass? then Commands(first.calls) + Commands(second.calls) else Commands(first.calls)
    ensures Executed(Then(first, second).calls)
         == if first.outcome.Pass? then Executed(first.calls) + Executed(second.calls) else Executed(first.calls)
    ensures Then(first, second).outcome.Pass? <==> first.outcome.Pass? && second.outcome.Pass?
  {
    if first.outcome.Pass? {
      PairedAppend(first.calls, second.calls, create);
      CommandsAppend(first.calls, second.calls);
      ExecutedAppend(first.calls, second.calls);
    }
  }

  /** Labelling only ever makes create/execute pairs that run what was
      created; it makes no call at all exactly when labelling is off or
      the label is numeric-only, and it fails with NumericLabel exactly
      when labelling is on and the label is numeric-only. */
  lemma LabelRunCalls(cfg: Config, create: Creator, execute: Executor, name: string)
    ensures Paired(LabelRun(cfg, create, execute, name).calls, create)
    ensures LabelRun(cfg, create, execute, name).calls == [] <==> !cfg.applyLabel || IsNumericLabel(name)
    ensures LabelRun(cfg, create, execute, name).outcome == Fail(NumericLabel(name))
        <==> cfg.applyLabel && IsNumericLabel(name)
    ensures !cfg.applyLabel ==> LabelRun(cfg, create, execute, name) == NoCalls
  {
    if cfg.applyLabel && !IsNumericLabel(name) {
      var spec := RunCommand(cfg, create, execute, LabelSpecCommand, Some(LabelSpec(name, cfg.view)));
      var sync := RunCommand(cfg, create, execute, LabelSyncCommand(name), None);
      RunCommandShape(cfg, create, execute, LabelSpecCommand, Some(LabelSpec(name, cfg.view)));
      RunCommandShape(cfg, create, execute, LabelSyncCommand(name), None);
      ThenShape(spec, sync, create);
      assert |spec.calls| == 2;
    }
  }

  /** When labelling is on and the label is not numeric-only, the label
      form goes out first, on the standard input of the `label -i`
      process; `labelsync -l <label>` follows, with no input, if and only
      if that process succeeded; and labelling passes if and only if both
      processes succeeded. */
  lemma LabelRunOrder(cfg: Config, create: Creator, execute: Executor, name: string)
    requires cfg.applyLabel && !IsNumericLabel(name)
    ensures var run := LabelRun(cfg, create, execute, name);
      var spec := create(cfg, LabelSpecCommand).(standardInput := Some(LabelSpec(name, cfg.view)));
      var sync := create(cfg, LabelSyncCommand(name));
      && Commands(run.calls) == (if Succeeded(execute(spec)) then ["label -i", "labelsync -l " + name] else ["label -i"])
      && Executed(run.calls) == (if Succeeded(execute(spec)) then [spec, sync] else [spec])
      && (run.outcome.Pass? <==> Succeeded(execute(spec)) && Succeeded(execute(sync)))
  {
    var specRun := RunCommand(cfg, create, execute, LabelSpecCommand, Some(LabelSpec(name, cfg.view)));
    var syncRun := RunCommand(cfg, create, execute, LabelSyncCommand(name), None);
    RunCommandShape(cfg, create, execute, LabelSpecCommand, Some(LabelSpec(name, cfg.view)));
    RunCommandShape(cfg, create, execute, LabelSyncCommand(name), None);
    ThenShape(specRun, syncRun, create);
  }

  /** Labelling asks for as many processes as it runs, and a labelling
      that passes with labelling on has asked for and run exactly two:
      `label -i` and `labelsync`. */
  lemma LabelRunCounts(cfg: Config, create: Creator, execute: Executor, name: string)
    ensures var run := LabelRun(cfg, create, execute, name);
      && |Commands(run.calls)| == |Executed(run.calls)| == |run.calls| / 2
      && (run.outcome.Pass? ==> |run.calls| == (if cfg.applyLabel then 4 else 0))
  {
    var run := LabelRun(cfg, create, execute, name);
    LabelRunCalls(cfg, create, execute, name);
    PairedCounts(run.calls, create);
    if cfg.applyLabel && !IsNumericLabel(name) {
      LabelRunOrder(cfg, create, execute, name);
    }
  }

  /** When labelling is on, the label is not numeric-only and both
      processes succeed, the calls are exactly: create `label -i`, run it
      with the form as its standard input, create `labelsync -l <label>`,
      run it as created. */
  lemma LabelRunSucceeds(cfg: Config, create: Creator, execute: Executor, name: string)
    requires cfg.applyLabel && !IsNumericLabel(name)
    requires Succeeded(execute(create(cfg, LabelSpecCommand).(standardInput := Some(LabelSpec(name, cfg.view)))))
    requires Succeeded(execute(create(cfg, LabelSyncCommand(name))))
    ensures LabelRun(cfg, create, execute, name)
         == Run([CreateProcessInfo(cfg, "label -i"),
                 Execute(create(cfg, "label -i").(standardInput := Some(LabelSpec(name, cfg.view)))),
                 CreateProcessInfo(cfg, "labelsync -l " + name),
                 Execute(create(cfg, "labelsync -l " + name))], Pass)
  {
  }

  /** Fetching makes one create/execute pair for `sync` when it is on and
      no call when it is off, and fails exactly when that `sync` fails. */
  lemma GetSourceRunCalls(cfg: Config, create: Creator, execute: Executor)
    ensures var run := GetSourceRun(cfg, create, execute);
      && Paired(run.calls, create)
      && Commands(run.calls) == (if cfg.autoGetSource then ["sync"] else [])
      && Executed(run.calls) == (if cfg.autoGetSource then [create(cfg, SyncCommand)] else [])
      && (run.outcome.Fail? <==> cfg.autoGetSource && !Succeeded(execute(create(cfg, SyncCommand))))
  {
    if cfg.autoGetSource {
      RunCommandShape(cfg, create, execute, SyncCommand, None);
    }
  }
}
