/** The Perforce adapter's settings and the pure command builders: the
    global option prefix, the `changes` and `describe` invocations with the
    describe injection guard, the label specification text, and the choice
    of working directory. */
module P4Commands {
  import opened Wrappers
  import opened Text
  import Dates

  /** The adapter's settings. An unset optional setting is None, the
      source's null. */
  datatype Config = Config(
    executable: string,
    view: string,
    client: Option<string>,
    user: Option<string>,
    port: Option<string>,
    workingDirectory: Option<string>,
    autoGetSource: bool,
    applyLabel: bool)

  const DefaultExecutable: string := "p4"

  /** The settings of a freshly constructed adapter: executable `p4`,
      nothing else set, no labelling and no automatic sync. The view, which
      configuration loading requires, is left empty until assigned. */
  function DefaultConfig(): (cfg: Config)
    ensures cfg.executable == "p4"
    ensures cfg.client.None? && cfg.user.None? && cfg.port.None? && cfg.workingDirectory.None?
    ensures !cfg.applyLabel && !cfg.autoGetSource
  {
    Config(DefaultExecutable, "", None, None, None, None, false, false)
  }

  /** A process to start: the executable, its argument string and, when
      set, the text fed to its standard input. */
  datatype ProcessInfo = ProcessInfo(fileName: string, arguments: string, standardInput: Option<string>)

  /** `flag value ` when the setting is set, nothing otherwise. */
  function OptionText(flag: string, value: Option<string>): string
  {
    match value
    case None => ""
    case Some(v) => flag + " " + v + " "
  }

  /** The global options that open every server command: `-s` (tagged
      output for scripts), then client, port and user, in that order, for
      those that are set. */
  function CommonOptions(cfg: Config): string
  {
    "-s " + OptionText("-c", cfg.client) + OptionText("-p", cfg.port) + OptionText("-u", cfg.user)
  }

  /** The process for a sub-command: the configured executable, the global
      options, then the sub-command. */
  function DefaultProcessInfo(cfg: Config, command: string): ProcessInfo
  {
    ProcessInfo(cfg.executable, CommonOptions(cfg) + command, None)
  }

  /** `changes -s submitted <view>@<from>,@<to>`: the submitted change lists
      of the view between the two instants. */
  function ChangesCommand(view: string, from: Dates.DateTime, to: Dates.DateTime): string
  {
    "changes -s submitted " + ChangesRange(view, from, to)
  }

  function ChangeListProcess(cfg: Config, from: Dates.DateTime, to: Dates.DateTime): ProcessInfo
  {
    DefaultProcessInfo(cfg, ChangesCommand(cfg.view, from, to))
  }

  /** Why a describe process could not be built. */
  datatype CommandError =
    | EmptyChangeList    // no change numbers at all
    | InvalidChangeList  // a character other than a digit or a space

  /** Only decimal digits and spaces. */
  predicate IsChangeListText(changes: string)
  {
    forall i :: 0 <= i < |changes| ==> IsDigit(changes[i]) || changes[i] == ' '
  }

  /** A change list of spaces only passes the character guard and gives a
      describe with no change number: only the empty string is refused
      as empty. */
  lemma DescribeBlankList(cfg: Config, changes: string)
    requires changes != [] && forall i :: 0 <= i < |changes| ==> changes[i] == ' '
    ensures DescribeProcess(cfg, changes).Success?
    ensures Words(changes) == []
  {
    SplitBlank(changes);
  }

  /** `describe -s <changes>`, refused when the change list is empty or
      holds anything but digits and spaces. */
  function DescribeCommand(changes: string): (r: Result<string, CommandError>)
    ensures r.Success? <==> changes != [] && IsChangeListText(changes)
    ensures r == Failure(EmptyChangeList) <==> changes == []
    ensures r.Success? ==> r.value == "describe -s " + changes
  {
    if changes == [] then Failure(EmptyChangeList)
    else if !IsChangeListText(changes) then Failure(InvalidChangeList)
    else Success("describe -s " + changes)
  }

  /** The describe process of a standard adapter, refused before any
      process exists when the change list is refused. */
  function DescribeProcess(cfg: Config, changes: string): (r: Result<ProcessInfo, CommandError>)
    ensures r.Success? <==> changes != [] && IsChangeListText(changes)
    ensures r == Failure(EmptyChangeList) <==> changes == []
    ensures r.Success? ==> r.value == DefaultProcessInfo(cfg, "describe -s " + changes)
  {
    match DescribeCommand(changes)
    case Failure(e) => Failure(e)
    case Success(command) => Success(DefaultProcessInfo(cfg, command))
  }

  const LabelSpecCommand: string := "label -i"

  function LabelSyncCommand(name: string): string
  {
    "labelsync -l " + name
  }

  const SyncCommand: string := "sync"

  /** The lines of the label form fed to `label -i`: the label's name, a
      fixed description, unlocked, and the configured view as its only view
      line; the last line is empty, so the form ends with a newline. */
  function LabelSpecLines(name: string, view: string): seq<string>
  {
    ["Label:\t" + name, "", "Description:", "\tCreated by CCNet", "",
     "Options:\tunlocked", "", "View:", "\t" + view, ""]
  }

  /** The label form: its lines, each but the last followed by a newline. */
  function LabelSpec(name: string, view: string): string
  {
    Join(LabelSpecLines(name, view), '\n')
  }

  /** A label is refused when it has no character other than a digit. */
  predicate IsNumericLabel(name: string)
  {
    AllDigits(name)
  }

  /** The adapter's own working directory when it is set and not empty,
      otherwise the one the caller supplies. */
  function ResolveWorkingDirectory(configured: Option<string>, fallback: string): (dir: string)
    ensures configured.Some? && configured.value != [] ==> dir == configured.value
    ensures configured.None? || configured.value == [] ==> dir == fallback
  {
    if configured.Some? && configured.value != [] then configured.value else fallback
  }

  // ---------------------------------------------------------------------
  // The words the tool receives

  /** A setting value that stays one word on the command line. */
  predicate IsWord(v: string)
  {
    v != [] && ' ' !in v
  }

  predicate OptionIsWord(value: Option<string>)
  {
    value.Some? ==> IsWord(value.value)
  }

  /** The settings whose values reach the command line are single words. */
  predicate OptionsAreWords(cfg: Config)
  {
    OptionIsWord(cfg.client) && OptionIsWord(cfg.port) && OptionIsWord(cfg.user)
  }

  function OptionWords(flag: string, value: Option<string>): seq<string>
  {
    match value
    case None => []
    case Some(v) => [flag, v]
  }

  /** The global options as the tool reads them, word by word. */
  function CommonWords(cfg: Config): seq<string>
  {
    ["-s"] + OptionWords("-c", cfg.client) + OptionWords("-p", cfg.port) + OptionWords("-u", cfg.user)
  }

  lemma OptionTextWords(flag: string, value: Option<string>, rest: string)
    requires IsWord(flag) && OptionIsWord(value)
    ensures Words(OptionText(flag, value) + rest) == OptionWords(flag, value) + Words(rest)
  {
    if value.None? {
      assert OptionText(flag, value) + rest == rest;
    } else {
      var v := value.value;
      assert OptionText(flag, value) + rest == flag + " " + (v + " " + rest);
      WordsCons(flag, v + " " + rest);
      WordsCons(v, rest);
    }
  }

  /** The option prefix tokenises to `-s`, then each set option as a flag
      word followed by its value word, in the order client, port, user;
      the sub-command's words follow unchanged. */
  lemma CommonOptionsWords(cfg: Config, command: string)
    requires OptionsAreWords(cfg)
    ensures Words(CommonOptions(cfg) + command) == CommonWords(cfg) + Words(command)
  {
    var c := OptionText("-c", cfg.client);
    var p := OptionText("-p", cfg.port);
    var u := OptionText("-u", cfg.user);
    var rest := c + (p + (u + command));
    assert CommonOptions(cfg) + command == "-s" + " " + rest by {
      assert "-s " == "-s" + " ";
      Reassociate("-s ", c, p, u, command);
    }
    WordsCons("-s", rest);
    OptionTextWords("-c", cfg.client, p + (u + command));
    OptionTextWords("-p", cfg.port, u + command);
    OptionTextWords("-u", cfg.user, command);
    var wc, wp, wu := OptionWords("-c", cfg.client), OptionWords("-p", cfg.port), OptionWords("-u", cfg.user);
    assert Words(rest) == wc + (wp + (wu + Words(command)));
    Reassociate(["-s"], wc, wp, wu, Words(command));
  }

  lemma Reassociate<T>(a: seq<T>, b: seq<T>, c: seq<T>, d: seq<T>, e: seq<T>)
    ensures a + b + c + d + e == a + (b + (c + (d + e)))
  {
  }

  /** A literal prefix of three words, each followed by a space. */
  lemma PrefixWords3(prefix: string, w1: string, w2: string, w3: string, rest: string)
    requires IsWord(w1) && IsWord(w2) && IsWord(w3)
    requires prefix == w1 + " " + w2 + " " + w3 + " "
    ensures Words(prefix + rest) == [w1, w2, w3] + Words(rest)
  {
    assert prefix + rest == w1 + " " + w2 + " " + w3 + " " + rest;
    WordsCons3(w1, w2, w3, rest);
  }

  /** The view and date range of a changes command: `<view>@<from>,@<to>`. */
  function ChangesRange(view: string, from: Dates.DateTime, to: Dates.DateTime): (r: string)
    ensures ' ' !in view ==> ' ' !in r
  {
    view + "@" + Dates.Format(from) + ",@" + Dates.Format(to)
  }

  lemma ChangesPrefixWords(rest: string)
    ensures Words("changes -s submitted " + rest) == ["changes", "-s", "submitted"] + Words(rest)
  {
    PrefixWords3("changes -s submitted ", "changes", "-s", "submitted", rest);
  }

  /** With a view free of spaces, the range is one word. */
  lemma ChangesRangeIsWord(view: string, from: Dates.DateTime, to: Dates.DateTime)
    requires ' ' !in view
    ensures IsWord(ChangesRange(view, from, to))
  {
    assert |ChangesRange(view, from, to)| >= |Dates.Format(from)| > 0;
  }

  lemma ChangesCommandWords(view: string, from: Dates.DateTime, to: Dates.DateTime)
    requires ' ' !in view
    ensures Words(ChangesCommand(view, from, to)) == ["changes", "-s", "submitted", ChangesRange(view, from, to)]
  {
    var range := ChangesRange(view, from, to);
    ChangesPrefixWords(range);
    ChangesRangeIsWord(view, from, to);
    WordsSingle(range);
  }

  /** The changes process runs the configured executable on the global
      options followed by exactly four words: `changes`, `-s`, `submitted`
      and the view with its date range. */
  lemma ChangeListWords(cfg: Config, from: Dates.DateTime, to: Dates.DateTime)
    requires OptionsAreWords(cfg) && ' ' !in cfg.view
    ensures ChangeListProcess(cfg, from, to).fileName == cfg.executable
    ensures ChangeListProcess(cfg, from, to).standardInput.None?
    ensures Words(ChangeListProcess(cfg, from, to).arguments)
         == CommonWords(cfg) + ["changes", "-s", "submitted", ChangesRange(cfg.view, from, to)]
  {
    CommonOptionsWords(cfg, ChangesCommand(cfg.view, from, to));
    ChangesCommandWords(cfg.view, from, to);
  }

  /** An accepted describe process runs `describe -s` on the change
      numbers and nothing else: every word after the global options is
      `describe`, `-s` or a run of digits, so no option flag and no shell
      metacharacter can come from the change list. */
  lemma DescribeWords(cfg: Config, changes: string)
    requires OptionsAreWords(cfg)
    requires DescribeProcess(cfg, changes).Success?
    ensures Words(DescribeProcess(cfg, changes).value.arguments)
         == CommonWords(cfg) + ["describe", "-s"] + Words(changes)
    ensures forall w :: w in Words(changes) ==> w != [] && AllDigits(w)
  {
    var command := "describe -s " + changes;
    assert "describe -s " == "describe" + " " + "-s" + " ";
    assert command == "describe" + " " + ("-s" + " " + changes);
    CommonOptionsWords(cfg, command);
    WordsCons("describe", "-s" + " " + changes);
    WordsCons("-s", changes);
    WordsOfDigitList(changes);
  }

  // ---------------------------------------------------------------------
  // The label form, line by line

  /** With a one-line label and view, the form has exactly ten lines (the
      last one empty after the closing newline): the `Label:` field carries
      the label, the `View:` block the view, and the description and
      options lines are fixed. */
  lemma LabelSpecShape(name: string, view: string)
    requires '\n' !in name && '\n' !in view
    ensures Split(LabelSpec(name, view), '\n') == LabelSpecLines(name, view)
  {
    var lines := LabelSpecLines(name, view);
    assert '\n' !in "Label:\t" && '\n' !in "Description:" && '\n' !in "\tCreated by CCNet";
    assert '\n' !in "Options:\tunlocked" && '\n' !in "View:" && '\n' !in "\t";
    assert forall k :: 0 <= k < |lines| ==> '\n' !in lines[k];
    SplitJoin(lines, '\n');
  }

  /** `labelsync -l <label>` reads as three words when the label is one. */
  lemma LabelSyncWords(name: string)
    requires IsWord(name)
    ensures Words(LabelSyncCommand(name)) == ["labelsync", "-l", name]
  {
    assert LabelSyncCommand(name) == "labelsync" + " " + ("-l" + " " + name);
    WordsCons("labelsync", "-l" + " " + name);
    WordsCons("-l", name);
    WordsSingle(name);
  }

  /** `sync` is a single word. */
  lemma SyncWords()
    ensures Words(SyncCommand) == ["sync"]
  {
    WordsSingle(SyncCommand);
  }
}
