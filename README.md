# Perforce source-control adapter (CruiseControl.NET), modelled in Dafny

CruiseControl.NET talks to a Perforce server through the `P4` adapter.
The adapter holds these settings:
- the `p4` executable;
- the depot view;
- the optional client, user and port;
- an optional working directory;
- two switches: apply a label after a build, and fetch the source before one.

It builds the command lines of the `p4` tool:
- `changes`, to list the submitted change lists of the view between two instants;
- `describe`, to expand given change numbers, refusing anything that is not digits and spaces;
- `label -i` with a generated label form on standard input, then `labelsync -l <label>`;
- `sync`.

It goes through two injected collaborators for anything that reaches the server:
- one that turns a sub-command into a process description;
- one that runs a process.

A third collaborator, the workspace initializer, prepares the workspace. The
model records the hand-over to it in the call log and has no value for it.

The behaviour of the adapter is pinned down by its NUnit fixture,
`project/UnitTests/Core/SourceControl/Perforce/P4Test.cs`. The model follows that
fixture.

Files, one module each:

- `wrappers.dfy` (`Wrappers`): `Option`, `Result` and `Outcome`.
- `text.dfy` (`Text`): decimal digits, splitting at a separator, and `Words`.
  `Words` tokenises an argument string into the words the tool receives.
  Lemmas relate splitting, joining and concatenation.
- `dates.dfy` (`Dates`): instants with the range of a .NET `DateTime`. They are
  rendered in the fixed-width `yyyy/MM/dd:HH:mm:ss` form on the 24-hour clock.
  Rendering and parsing are proved inverse both ways.
- `commands.dfy` (`P4Commands`): the settings, the process description, and the
  global option prefix `-s [-c client] [-p port] [-u user]`. It also holds:
  - the `changes` and `describe` builders, and the describe injection guard;
  - the label form;
  - the choice of working directory;
  - for the `changes`, `describe`, `labelsync` and `sync` commands, the lemma
    that says which words the tool receives, and for the label form the lemma
    that gives its lines.
- `adapter.dfy` (`P4Adapter`): the adapter as a class.
  - Its settings are mutable fields. The collaborators are function-valued
    constants. A ghost log records every collaborator call.
  - Labelling and fetching are methods, each proved against a function that
    gives the exact call sequence and outcome. Initializing is a method whose
    contract gives the one call it appends, with the working directory chosen
    by `ResolveWorkingDirectory`.
  - Lemmas about those functions state what the fixture's strict, ordered mocks
    check.
- `scenarios.dfy` (`P4Scenarios`): the fixture's own examples, worked out on the
  model. Expected strings are written as concatenations of short literal pieces,
  cut where a field begins or ends.

Error handling follows the fixture:
- An all-digit label, with labelling on, fails before any call.
- An empty change list and a change list with any other character are refused
  before a process is described. They are two different errors (`EmptyChangeList`,
  `InvalidChangeList`), as the fixture expects two different exception types
  (`System.Exception` for the empty list, `CruiseControlException` for the other).

The adapter treats a process that exits with a non-zero code as a failure of
the operation, and no later step runs. No fixture test exercises this: every
stand-in process in the fixture exits with code 0.

## Model

| member | source | states |
|---|---|---|
| P4Commands.DefaultConfig | project/UnitTests/Core/SourceControl/Perforce/P4Test.cs:87-91 | a fresh adapter runs `p4` with client, user and port unset; its working directory is unset and labelling is off, which the tests at 339-352 and 296-309 rely on; fetching is off |
| P4Adapter.P4.constructor | project/UnitTests/Core/SourceControl/Perforce/P4Test.cs:71-76 | an adapter built on given collaborators keeps exactly those collaborators, has the default settings and has made no call |
| P4Adapter.P4.Standard | project/UnitTests/Core/SourceControl/Perforce/P4Test.cs:64-69 | an adapter built without collaborators describes every process as the executable, the global options and the sub-command |
| Dates.Format | project/UnitTests/Core/SourceControl/Perforce/P4Test.cs:110-115 | a rendered instant is 19 characters, digits except for `/` at 4 and 7 and `:` at 10, 13 and 16, and holds no space |
| Dates.ParseFormat | project/UnitTests/Core/SourceControl/Perforce/P4Test.cs:110-115 | parsing a rendered instant gives the instant back |
| Dates.FormatParse | project/UnitTests/Core/SourceControl/Perforce/P4Test.cs:135-139 | every string that parses is the rendering of what it parses to |
| Dates.FormatInjective | project/UnitTests/Core/SourceControl/Perforce/P4Test.cs:135-139 | two instants with the same rendering are equal |
| P4Commands.CommonOptionsWords | project/UnitTests/Core/SourceControl/Perforce/P4Test.cs:138-139 | the option prefix reads as `-s`, then client, port and user as flag and value words, in that order, for those set; the sub-command's words follow unchanged |
| P4Commands.ChangesCommandWords | project/UnitTests/Core/SourceControl/Perforce/P4Test.cs:115 | the changes sub-command reads as exactly `changes`, `-s`, `submitted` and the view with its date range |
| P4Commands.ChangeListWords | project/UnitTests/Core/SourceControl/Perforce/P4Test.cs:105-146 | the changes process runs the configured executable with no input, on the global options followed by the four changes words |
| P4Adapter.P4.CreateChangeListProcess | project/UnitTests/Core/SourceControl/Perforce/P4Test.cs:105-146 | the changes process is asked of the injected creator with the current settings, in one logged call; with the standard creator it runs the executable with no input and reads as the global options and the four changes words |
| P4Commands.DescribeCommand | project/UnitTests/Core/SourceControl/Perforce/P4Test.cs:148-197 | the describe sub-command exists exactly when the change list is non-empty and only digits and spaces; the empty list fails with EmptyChangeList and nothing else does; otherwise it is `describe -s` and the list |
| P4Commands.DescribeProcess | project/UnitTests/Core/SourceControl/Perforce/P4Test.cs:148-197 | a describe process is built exactly when the change list is non-empty and only digits and spaces; the empty list fails with EmptyChangeList and nothing else does; the process runs `describe -s` on the list after the global options |
| P4Commands.DescribeWords | project/UnitTests/Core/SourceControl/Perforce/P4Test.cs:182-188 | an accepted describe reads as the global options, `describe`, `-s`, then only non-empty runs of digits, so the change list can add no flag and no shell text |
| P4Adapter.P4.CreateDescribeProcess | project/UnitTests/Core/SourceControl/Perforce/P4Test.cs:148-197 | the describe process is refused, before the creator is asked, unless the list is non-empty digits and spaces; otherwise it is asked of the creator in one logged call, and with the standard creator it runs the executable with no input on the global options, `describe`, `-s` and the change words |
| P4Commands.LabelSpecShape | project/UnitTests/Core/SourceControl/Perforce/P4Test.cs:237-246 | with a one-line label and view, the label form splits back into exactly the lines `Label:<tab><label>`, empty, `Description:`, `<tab>Created by CCNet`, empty, `Options:<tab>unlocked`, empty, `View:`, `<tab><view>`, and the empty line after the closing newline |
| P4Commands.LabelSyncWords | project/UnitTests/Core/SourceControl/Perforce/P4Test.cs:249-252 | `labelsync -l <label>` reads as exactly the words `labelsync`, `-l` and the label |
| P4Commands.SyncWords | project/UnitTests/Core/SourceControl/Perforce/P4Test.cs:318-320 | `sync` reads as the single word `sync` |
| P4Commands.DescribeBlankList | project/UnitTests/Core/SourceControl/Perforce/P4Test.cs:190-197 | a change list of spaces only is accepted and yields no change-number word; only the empty string is refused as empty |
| P4Commands.ResolveWorkingDirectory | project/UnitTests/Core/SourceControl/Perforce/P4Test.cs:339-384 | the adapter's working directory is used when set and non-empty; the project's is used when it is unset or empty |
| P4Adapter.P4.InitializeDirectory | project/UnitTests/Core/SourceControl/Perforce/P4Test.cs:339-384 | one initializer call is logged, with the settings, the project and the chosen directory |
| P4Adapter.P4.Invoke | project/UnitTests/Core/SourceControl/Perforce/P4Test.cs:249-252 | one server command logs a create call and then an execute call of the created process with the input attached, and fails exactly when that process exits non-zero |
| P4Adapter.RunCommandShape | project/UnitTests/Core/SourceControl/Perforce/P4Test.cs:249-252 | one server command asks for its own sub-command only and runs exactly the process created for it, carrying the given input; it passes exactly when that process succeeds |
| P4Adapter.ThenShape | project/UnitTests/Core/SourceControl/Perforce/P4Test.cs:249-252 | a second step runs only after the first passed; the calls concatenate and the sequence passes exactly when both pass |
| P4Adapter.P4.LabelSourceControl | project/UnitTests/Core/SourceControl/Perforce/P4Test.cs:226-309 | labelling logs exactly the calls of LabelRun for the current settings and returns its outcome |
| P4Adapter.LabelRunCalls | project/UnitTests/Core/SourceControl/Perforce/P4Test.cs:261-309 | labelling makes no call exactly when labelling is off or the label is all digits; it fails with NumericLabel exactly when labelling is on and the label is all digits; every call pair runs the process just created |
| P4Adapter.LabelRunOrder | project/UnitTests/Core/SourceControl/Perforce/P4Test.cs:226-259 | `label -i` runs first with the form on standard input; `labelsync -l <label>` follows, without input, exactly when that succeeded; labelling passes exactly when both succeed |
| P4Adapter.LabelRunSucceeds | project/UnitTests/Core/SourceControl/Perforce/P4Test.cs:249-252 | when both processes succeed the calls are exactly: create `label -i`, run it with the form, create `labelsync -l <label>`, run it as created |
| P4Adapter.P4.GetSource | project/UnitTests/Core/SourceControl/Perforce/P4Test.cs:311-337 | fetching logs exactly the calls of GetSourceRun for the current settings and returns its outcome |
| P4Adapter.GetSourceRunCalls | project/UnitTests/Core/SourceControl/Perforce/P4Test.cs:311-337 | fetching creates `sync` once and runs exactly the created process when on, makes no call when off, and fails exactly when that `sync` fails |
| Text.WordsOfDigitList | project/UnitTests/Core/SourceControl/Perforce/P4Test.cs:151-154 | in a string of digits and spaces every word is a non-empty run of digits |
| P4Scenarios.Format20021020 | project/UnitTests/Core/SourceControl/Perforce/P4Test.cs:110 | 20 October 2002, 02:00:00 renders as `2002/10/20:02:00:00` |
| P4Scenarios.Format20031120 | project/UnitTests/Core/SourceControl/Perforce/P4Test.cs:135 | 20 November 2003, 02:10:32 renders as `2003/11/20:02:10:32` |
| P4Scenarios.ChangeListWithDefaults | project/UnitTests/Core/SourceControl/Perforce/P4Test.cs:105-119 | with only the view set, the changes process is `p4` with the arguments of the fixture |
| P4Scenarios.ChangeListWithOptions | project/UnitTests/Core/SourceControl/Perforce/P4Test.cs:121-146 | with executable, client, user and port set, the changes process is `c:\bin\p4.exe` with the options in the order client, port, user, as in the fixture |
| P4Scenarios.DescribeWithDefaults | project/UnitTests/Core/SourceControl/Perforce/P4Test.cs:148-157 | describing `3327 3328 332` runs `p4` on `-s describe -s 3327 3328 332` |
| P4Scenarios.DescribeWithOptions | project/UnitTests/Core/SourceControl/Perforce/P4Test.cs:159-180 | with options set, the describe arguments are the option prefix, `describe -s ` and the list |
| P4Scenarios.DescribeRefusesShellText | project/UnitTests/Core/SourceControl/Perforce/P4Test.cs:182-188 | `3327 3328 332; echo 'rm -rf /'` is refused as InvalidChangeList |
| P4Scenarios.DescribeRefusesEmpty | project/UnitTests/Core/SourceControl/Perforce/P4Test.cs:190-197 | the empty list is refused as EmptyChangeList |
| P4Scenarios.LabelExample | project/UnitTests/Core/SourceControl/Perforce/P4Test.cs:226-259 | labelling `foo-123` with the fixture's stand-in collaborators makes exactly the four expected calls and passes |
| P4Scenarios.LabelFormExample | project/UnitTests/Core/SourceControl/Perforce/P4Test.cs:237-246 | the form for `foo-123` on `//depot/myproject/...` has exactly the fixture's lines |
| P4Scenarios.NumericLabelExample | project/UnitTests/Core/SourceControl/Perforce/P4Test.cs:261-278 | labelling `123` with labelling on fails with NumericLabel and makes no call |
| P4Scenarios.NoLabelExample | project/UnitTests/Core/SourceControl/Perforce/P4Test.cs:296-309 | with labelling left off, labelling `123` makes no call and passes |
| P4Scenarios.GetSourceExample | project/UnitTests/Core/SourceControl/Perforce/P4Test.cs:311-324 | with fetching on, one `sync` is created and the created process is run |
| P4Scenarios.LabelSession | project/UnitTests/Core/SourceControl/Perforce/P4Test.cs:226-259 | the labelling example, run through the adapter object after assigning its view and label switch, makes exactly the four expected calls in order and passes |
| P4Scenarios.DefaultsSession | project/UnitTests/Core/SourceControl/Perforce/P4Test.cs:105-157 | adapters constructed without collaborators give `p4` with the fixture's changes arguments and `p4` with `-s describe -s 3327 3328 332` |
| P4Scenarios.InitializeSession | project/UnitTests/Core/SourceControl/Perforce/P4Test.cs:339-384 | three initializations through the adapter object hand the initializer the project's directory with the adapter's unset, the project's with it empty, and the adapter's own once it is set |
| P4Adapter.PairedCounts | project/UnitTests/Core/SourceControl/Perforce/P4Test.cs:249-252 | in a paired call log every created process is run: as many processes are asked for as are run, half the calls each |
| P4Adapter.LabelRunCounts | project/UnitTests/Core/SourceControl/Perforce/P4Test.cs:226-259 | labelling asks for as many processes as it runs, and a labelling that passes with labelling on has made exactly four calls, none when off |

## Left out

- Reading the settings from XML through NetReflector is not modelled (P4Test.cs:42-69, 94-103). This includes the error when the view is missing. Settings are fields that callers assign directly. The default view is the empty string until one is assigned.
- Obtaining modifications is not modelled (P4Test.cs:199-224). That covers running `changes` and `describe`, parsing their output into modification records, and the seven-record count. The describe output format depends on data the fixture does not show (`P4Mother.P4_LOGFILE_CONTENT`), so the parser is left out.
- The timestamp argument of labelling (P4Test.cs:255) is dropped, because no fixture test depends on it. So is the integration-result argument of fetching (P4Test.cs:321).
- The mock framework and the temporary-directory cleanup (P4Test.cs:16-40) are not modelled. The collaborators are function values, and their calls are recorded in a ghost log.
- The process runner is a function of the process description. Two runs of the same process in one operation would give the same result. A real process is not bound by that. Only the exit code decides failure; the timed-out flag is carried but not interpreted.
- The creator receives a snapshot of the settings, not the adapter object. The adapter sets standard input on the object the creator returned; the model updates a value. Aliasing of that object is therefore not captured.
- The working directory of a described process is not modelled. The creator is abstract and the fixture never shows that field.
- `IsDigit` accepts only ASCII `0`-`9`. .NET's `Char.IsDigit` also accepts other Unicode decimal digits.
- The date separator is the fixed `/` and the time separator the fixed `:`. In a .NET custom format both are the culture's separators; culture-dependent separators are not modelled.
- `Words` splits at single spaces and drops empty pieces. It is a model of how the tool reads a command line and does not handle quoting. It is used only to state which words a built command line consists of.
- P4Adapter.P4.LabelSourceControl, P4Adapter.P4.GetSource and P4Adapter.P4.InitializeDirectory state their effect as calls appended to the ghost log, not as processes actually run.
- P4Adapter.P4.InitializeDirectory: the initializer is not a collaborator value; the call is recorded in the log with a snapshot of the settings rather than the adapter object, and the initializer's failure is not modelled, so initializing always completes.
- P4Commands.DescribeProcess: a change list of spaces only passes the guard and gives a describe with no change number (P4Commands.DescribeBlankList); only the empty string is refused as empty, as the fixture tests (P4Test.cs:190-197).
- P4Commands.DefaultConfig: the fixture never shows the default of the automatic-fetch switch, so the model assumes `false`, the default value of a C# bool field.
