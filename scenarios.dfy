/** The examples the adapter's behaviour is pinned to, worked out on the
    model. Expected strings are written as concatenations of short literal
    pieces, cut where a field begins or ends, which keeps every comparison
    of literals small enough for the verifier. */
module P4Scenarios {
  import opened Wrappers
  import opened Text
  import opened Dates
  import opened P4Commands
  import opened P4Adapter

  // ---------------------------------------------------------------------
  // Rendering the example instants

  /** The zero-padded fields of the example instants, evaluated once here
      so that the date lemmas below stay within the verifier's budget. */
  lemma PadExamples()
    ensures Pad(2002, 4) == "2002" && Pad(2003, 4) == "2003" && Pad(2004, 4) == "2004"
    ensures Pad(0, 2) == "00" && Pad(1, 2) == "01" && Pad(2, 2) == "02" && Pad(5, 2) == "05"
    ensures Pad(10, 2) == "10" && Pad(11, 2) == "11" && Pad(20, 2) == "20"
    ensures Pad(31, 2) == "31" && Pad(32, 2) == "32"
  {
    assert Pad(0, 1) == "0" && Pad(1, 1) == "1" && Pad(2, 1) == "2" && Pad(3, 1) == "3";
    assert Pad(20, 2) == "20" && Pad(200, 3) == "200";
  }

  lemma FormatOf(d: DateTime, y: string, mo: string, da: string, h: string, mi: string, s: string)
    requires Pad(d.year, 4) == y && Pad(d.month, 2) == mo && Pad(d.day, 2) == da
    requires Pad(d.hour, 2) == h && Pad(d.minute, 2) == mi && Pad(d.second, 2) == s
    ensures Format(d) == Assemble(y, mo, da, h, mi, s)
  {
  }

  /** Zero-padded fields on the 24-hour clock. */
  lemma Format20021020()
    ensures Format(Instant(2002, 10, 20, 2, 0, 0)) == "2002/10/20:02:00:00"
  {
    PadExamples();
    FormatOf(Instant(2002, 10, 20, 2, 0, 0), "2002", "10", "20", "02", "00", "00");
    assert Assemble("2002", "10", "20", "02", "00", "00") == "2002/10/20:02:00:00";
  }

  lemma Format20021031()
    ensures Format(Instant(2002, 10, 31, 5, 5, 0)) == "2002/10/31:05:05:00"
  {
    PadExamples();
    FormatOf(Instant(2002, 10, 31, 5, 5, 0), "2002", "10", "31", "05", "05", "00");
    assert Assemble("2002", "10", "31", "05", "05", "00") == "2002/10/31:05:05:00";
  }

  lemma Format20031120()
    ensures Format(Instant(2003, 11, 20, 2, 10, 32)) == "2003/11/20:02:10:32"
  {
    PadExamples();
    FormatOf(Instant(2003, 11, 20, 2, 10, 32), "2003", "11", "20", "02", "10", "32");
    assert Assemble("2003", "11", "20", "02", "10", "32") == "2003/11/20:02:10:32";
  }

  lemma Format20041031()
    ensures Format(Instant(2004, 10, 31, 5, 5, 1)) == "2004/10/31:05:05:01"
  {
    PadExamples();
    FormatOf(Instant(2004, 10, 31, 5, 5, 1), "2004", "10", "31", "05", "05", "01");
    assert Assemble("2004", "10", "31", "05", "05", "01") == "2004/10/31:05:05:01";
  }

  // ---------------------------------------------------------------------
  // The changes and describe processes

  /** The changes arguments from the rendered option prefix and instants. */
  lemma ChangeListOf(cfg: Config, from: DateTime, to: DateTime, options: string, f: string, t: string)
    requires CommonOptions(cfg) == options && Format(from) == f && Format(to) == t
    ensures ChangeListProcess(cfg, from, to).arguments
         == options + "changes -s submitted " + cfg.view + "@" + f + ",@" + t
  {
    assert ChangesRange(cfg.view, from, to) == cfg.view + "@" + f + ",@" + t;
    var range := cfg.view + "@" + f + ",@" + t;
    assert options + ("changes -s submitted " + range) == options + "changes -s submitted " + range;
  }

  /** Only the view set: executable `p4` and `-s` alone before `changes`. */
  lemma ChangeListWithDefaults()
    ensures var p := ChangeListProcess(DefaultConfig().(view := "//depot/myproj/..."),
                                       Instant(2002, 10, 20, 2, 0, 0), Instant(2002, 10, 31, 5, 5, 0));
      && p.fileName == "p4"
      && p.arguments == "-s " + "changes -s submitted " + "//depot/myproj/..."
                        + "@" + "2002/10/20:02:00:00" + ",@" + "2002/10/31:05:05:00"
  {
    Format20021020();
    Format20021031();
    ChangeListOf(DefaultConfig().(view := "//depot/myproj/..."),
                 Instant(2002, 10, 20, 2, 0, 0), Instant(2002, 10, 31, 5, 5, 0),
                 "-s ", "2002/10/20:02:00:00", "2002/10/31:05:05:00");
  }

  /** Executable, view, client, user and port configured. */
  function Configured(): Config
  {
    Config("c:\\bin\\p4.exe", "//depot/myproject/...", Some("myclient"), Some("me"), Some("anotherserver:2666"),
           None, false, false)
  }

  /** Client, port and user, in that order, after the leading `-s`. */
  lemma ConfiguredOptions()
    ensures CommonOptions(Configured()) == "-s " + "-c myclient " + "-p anotherserver:2666 " + "-u me "
  {
    ClientOption();
    PortOption();
    UserOption();
  }

  // The option lemmas below evaluate one literal each, which keeps
  // ConfiguredOptions within the verifier's budget.

  lemma OptionTextOf(flag: string, value: string)
    ensures OptionText(flag, Some(value)) == flag + " " + value + " "
  {
  }

  lemma ClientOption() ensures OptionText("-c", Some("myclient")) == "-c myclient " {
    OptionTextOf("-c", "myclient");
  }

  lemma PortOption() ensures OptionText("-p", Some("anotherserver:2666")) == "-p anotherserver:2666 " {
    OptionTextOf("-p", "anotherserver:2666");
    assert "-p" + " " + "anotherserver:2666" + " " == "-p anotherserver:2666 ";
  }

  lemma UserOption() ensures OptionText("-u", Some("me")) == "-u me " {
    OptionTextOf("-u", "me");
  }

  lemma ChangeListWithOptions()
    ensures var p := ChangeListProcess(Configured(), Instant(2003, 11, 20, 2, 10, 32), Instant(2004, 10, 31, 5, 5, 1));
      && p.fileName == "c:\\bin\\p4.exe"
      && p.arguments == "-s " + "-c myclient " + "-p anotherserver:2666 " + "-u me " + "changes -s submitted "
                        + "//depot/myproject/..." + "@" + "2003/11/20:02:10:32" + ",@" + "2004/10/31:05:05:01"
  {
    ConfiguredOptions();
    Format20031120();
    Format20041031();
    ChangeListOf(Configured(), Instant(2003, 11, 20, 2, 10, 32), Instant(2004, 10, 31, 5, 5, 1),
                 "-s " + "-c myclient " + "-p anotherserver:2666 " + "-u me ", "2003/11/20:02:10:32", "2004/10/31:05:05:01");
  }

  /** A run of digits, then a space and more digits and spaces, is
      change-list text. */
  lemma DigitsThen(a: string, b: string)
    requires AllDigits(a) && IsChangeListText(b)
    ensures IsChangeListText(a + " " + b)
  {
  }

  /** The change numbers of the describe examples are digits and spaces. */
  lemma ChangeNumbersText()
    ensures IsChangeListText("3327 3328 332")
  {
    assert Pad(3, 1) == "3";
    assert Pad(33, 2) == "33";
    assert Pad(332, 3) == "332";
    assert Pad(3327, 4) == "3327";
    assert Pad(3328, 4) == "3328";
    assert "3327 3328 332" == "3327" + " " + ("3328" + " " + "332");
    DigitsThen("3328", "332");
    DigitsThen("3327", "3328 332");
  }

  /** The describe process from the rendered option prefix. */
  lemma DescribeOf(cfg: Config, changes: string, options: string)
    requires CommonOptions(cfg) == options && changes != [] && IsChangeListText(changes)
    ensures DescribeProcess(cfg, changes) == Success(ProcessInfo(cfg.executable, options + "describe -s " + changes, None))
  {
    assert options + "describe -s " + changes == options + ("describe -s " + changes);
  }

  lemma DescribeWithDefaults()
    ensures DescribeProcess(DefaultConfig(), "3327 3328 332")
         == Success(ProcessInfo("p4", "-s describe -s " + "3327 3328 332", None))
  {
    ChangeNumbersText();
    assert "-s describe -s " == "-s " + "describe -s ";
    DescribeOf(DefaultConfig(), "3327 3328 332", "-s ");
  }

  lemma DescribeWithOptions()
    ensures DescribeProcess(Configured(), "3327 3328 332")
         == Success(ProcessInfo("c:\\bin\\p4.exe",
                                "-s " + "-c myclient " + "-p anotherserver:2666 " + "-u me " + "describe -s " + "3327 3328 332", None))
  {
    ConfiguredOptions();
    ChangeNumbersText();
    DescribeOf(Configured(), "3327 3328 332", "-s " + "-c myclient " + "-p anotherserver:2666 " + "-u me ");
  }

  /** A shell command after the numbers is refused. */
  lemma DescribeRefusesShellText()
    ensures DescribeProcess(DefaultConfig(), "3327 3328 332; echo 'rm -rf /'") == Failure(InvalidChangeList)
  {
    var s := "3327 3328 332; echo 'rm -rf /'";
    assert s[13] == ';';
  }

  lemma DescribeRefusesEmpty()
    ensures DescribeProcess(DefaultConfig(), "") == Failure(EmptyChangeList)
  {
  }

  // ---------------------------------------------------------------------
  // Labelling, fetching and initializing

  /** Labelling settings of the examples: a view and labelling on. */
  function Labelling(): Config
  {
    DefaultConfig().(view := "//depot/myproject/...", applyLabel := true)
  }

  /** The stand-in creator of the labelling example: `spec` for the form,
      `sync` for the labelsync, both without arguments. */
  function LabelCreator(cfg: Config, command: string): ProcessInfo
  {
    if command == "label -i" then ProcessInfo("spec", "", None) else ProcessInfo("sync", "", None)
  }

  /** An executor under which every process succeeds with no output. */
  function Succeeding(info: ProcessInfo): ProcessResult
  {
    ProcessResult("", "", 0, false)
  }

  lemma LabelExampleParts()
    ensures !IsNumericLabel("foo-123")
    ensures LabelSyncCommand("foo-123") == "labelsync -l foo-123"
    ensures LabelCreator(Labelling(), "label -i") == ProcessInfo("spec", "", None)
    ensures LabelCreator(Labelling(), "labelsync -l foo-123") == ProcessInfo("sync", "", None)
  {
    assert !IsDigit("foo-123"[0]);
    assert |"labelsync -l foo-123"| != |"label -i"|;
  }

  /** Labelling `foo-123`: the `spec` process with the form on its standard
      input, then the `sync` process as created, both succeeding. */
  lemma LabelExample()
    ensures LabelRun(Labelling(), LabelCreator, Succeeding, "foo-123")
         == Run([CreateProcessInfo(Labelling(), "label -i"),
                 Execute(ProcessInfo("spec", "", Some(LabelSpec("foo-123", "//depot/myproject/...")))),
                 CreateProcessInfo(Labelling(), "labelsync -l foo-123"),
                 Execute(ProcessInfo("sync", "", None))], Pass)
  {
    LabelExampleParts();
    LabelRunSucceeds(Labelling(), LabelCreator, Succeeding, "foo-123");
  }

  /** The form of the example, line by line: the label, the fixed
      description and options, and the view. */
  lemma LabelFormExample()
    ensures Split(LabelSpec("foo-123", "//depot/myproject/..."), '\n')
         == ["Label:\tfoo-123", "", "Description:", "\tCreated by CCNet", "",
             "Options:\tunlocked", "", "View:", "\t//depot/myproject/...", ""]
  {
    var lines := ["Label:\tfoo-123", "", "Description:", "\tCreated by CCNet", "",
                  "Options:\tunlocked", "", "View:", "\t//depot/myproject/...", ""];
    assert "Label:\t" + "foo-123" == "Label:\tfoo-123";
    assert "\t" + "//depot/myproject/..." == "\t//depot/myproject/...";
    assert LabelSpecLines("foo-123", "//depot/myproject/...")
        == ["Label:\tfoo-123", "", "Description:", "\tCreated by CCNet", "",
            "Options:\tunlocked", "", "View:", "\t//depot/myproject/...", ""];
    LabelFormOf("foo-123", "//depot/myproject/...", lines);
  }

  lemma LabelFormOf(name: string, view: string, lines: seq<string>)
    requires '\n' !in name && '\n' !in view && LabelSpecLines(name, view) == lines
    ensures Split(LabelSpec(name, view), '\n') == lines
  {
    LabelSpecShape(name, view);
  }

  /** A numeric-only label fails with labelling on, before any call. */
  lemma NumericLabelExample(create: Creator, execute: Executor)
    ensures LabelRun(Labelling(), create, execute, "123") == Run([], Fail(NumericLabel("123")))
  {
    assert AllDigits("123");
  }

  /** With labelling off, not even a numeric-only label leads to a call. */
  lemma NoLabelExample(create: Creator, execute: Executor)
    ensures LabelRun(DefaultConfig().(view := "//depot/myproject/..."), create, execute, "123") == NoCalls
  {
    LabelRunCalls(DefaultConfig().(view := "//depot/myproject/..."), create, execute, "123");
  }

  function FetchCreator(cfg: Config, command: string): ProcessInfo
  {
    ProcessInfo("getSource", "", None)
  }

  /** Fetching with automatic fetching on: one `sync`, run as created. */
  lemma GetSourceExample()
    ensures var cfg := DefaultConfig().(view := "//depot/myproject/...", autoGetSource := true);
      GetSourceRun(cfg, FetchCreator, Succeeding)
        == Run([CreateProcessInfo(cfg, "sync"), Execute(ProcessInfo("getSource", "", None))], Pass)
  {
  }

  /** The labelling example run through the adapter object itself. */
  method LabelSession() returns (p4: P4, outcome: Outcome<AdapterError>)
    ensures p4.calls == [CreateProcessInfo(Labelling(), "label -i"),
                         Execute(ProcessInfo("spec", "", Some(LabelSpec("foo-123", "//depot/myproject/...")))),
                         CreateProcessInfo(Labelling(), "labelsync -l foo-123"),
                         Execute(ProcessInfo("sync", "", None))]
    ensures outcome == Pass
  {
    p4 := new P4(Succeeding, LabelCreator);
    p4.view := "//depot/myproject/...";
    p4.applyLabel := true;
    assert p4.Settings() == Labelling() && p4.calls == [];
    ghost var expected := LabelRun(Labelling(), LabelCreator, Succeeding, "foo-123");
    outcome := p4.LabelSourceControl("foo-123");
    assert p4.calls == expected.calls && outcome == expected.outcome;
    LabelExample();
  }

  /** The changes and describe examples on adapters constructed without
      collaborators: the standard creator gives the processes the fixture
      expects. */
  method DefaultsSession() returns (changes: ProcessInfo, describe: Result<ProcessInfo, CommandError>)
    ensures changes.fileName == "p4"
    ensures changes.arguments == "-s " + "changes -s submitted " + "//depot/myproj/..."
                                 + "@" + "2002/10/20:02:00:00" + ",@" + "2002/10/31:05:05:00"
    ensures describe == Success(ProcessInfo("p4", "-s describe -s " + "3327 3328 332", None))
  {
    var p4 := new P4.Standard(Succeeding);
    p4.view := "//depot/myproj/...";
    assert p4.Settings() == DefaultConfig().(view := "//depot/myproj/...");
    changes := p4.CreateChangeListProcess(Instant(2002, 10, 20, 2, 0, 0), Instant(2002, 10, 31, 5, 5, 0));
    ChangeListWithDefaults();
    var other := new P4.Standard(Succeeding);
    describe := other.CreateDescribeProcess("3327 3328 332");
    DescribeWithDefaults();
  }

  /** The initializer examples run through the adapter object: the
      project's directory when the adapter's own is unset or empty, the
      adapter's own when it is set. */
  method InitializeSession() returns (p4: P4)
    ensures |p4.calls| == 3
    ensures p4.calls[0] == Initialize(DefaultConfig().(view := "//depot/myproject/..."), "myProject", "workingDirFromProject")
    ensures p4.calls[1] == Initialize(DefaultConfig().(view := "//depot/myproject/...", workingDirectory := Some("")),
                                      "myProject", "workingDirFromProject")
    ensures p4.calls[2] == Initialize(DefaultConfig().(view := "//depot/myproject/...", workingDirectory := Some("p4sOwnWorkingDirectory")),
                                      "myProject", "p4sOwnWorkingDirectory")
  {
    p4 := new P4(Succeeding, LabelCreator);
    p4.view := "//depot/myproject/...";
    p4.InitializeDirectory("myProject", "workingDirFromProject");
    assert p4.calls[0] == Initialize(p4.Settings(), "myProject", "workingDirFromProject");
    p4.workingDirectory := Some("");
    p4.InitializeDirectory("myProject", "workingDirFromProject");
    assert p4.calls[1].workingDirectory == "workingDirFromProject";
    p4.workingDirectory := Some("p4sOwnWorkingDirectory");
    p4.InitializeDirectory("myProject", "workingDirFromProject");
    assert p4.calls[2].workingDirectory == "p4sOwnWorkingDirectory";
    assert |p4.calls| == 3;
  }
}
