# QUANTICS GUI: a verified model of the calculation core

This project models the core of the QUANTICS GUI repository in Dafny. QUANTICS is a quantum-dynamics
code, and the repository drives it in two ways: through a local runner, or through the AiiDA
workflow platform. The model covers:

- **The local runner** (`src/runners/local_runner.py`).
  - `QuanticsCalculation` is a class whose fields change in place. A `Record` datatype is its
    snapshot, used by `to_dict`/`from_dict`.
  - `LocalQuanticsRunner` is a class over a registry map, an insertion-order sequence and an
    abstract filesystem.
  - It covers creation, preparation, the `created → running → completed | failed` status machine,
    the two `.inp` directive scanners, output discovery, and the two analysis batches.
- **The AiiDA adapter** (`src/runners/aiida_integration.py`), with the platform abstracted away:
  - the workflow-type → tool map, the scheduler resources and the workchain → job inputs;
  - the run script, the `quantics.out` scanner and the parser's file-name rule;
  - the code-candidate order, the submission input checks, and the error-tagged status and result dicts.
- **The configuration serialiser** (`src/utils/config.py`).
  - Values form a JSON-like tree carrying a `Path` tag.
  - The serialiser turns paths into strings, and the deserialiser turns truthy values under six
    path keys back into paths.
  - `load_config`/`save_config` work over a store of JSON documents; whether the parent directory can be made and the file opened for writing is an oracle `writable`.
- **The local window** (`src/gui/main_window.py`):
  - its tool map, its analysis list and the tool names read back from it;
  - the defaults of `collect_config` and the checks of `validate_inputs`;
  - the create → run → analyse sequence of a local start.
- **The AiiDA window** (`quantics_gui_aiida.py`):
  - its tool map, the calculation-name check, and the AiiDA settings of `collect_config`;
  - the routing of `start_calculation`, the worker's submission, and one pass of the worker's
    monitoring loop;
  - the status store of `on_aiida_status_updated`.

External effects become data, or oracle functions passed in by the caller:

- The disk is a `FileSystem` value holding a set of directories and a map from file paths to
  their texts.
- The QUANTICS process is a function from an invocation and a filesystem to an outcome. It may
  raise, or exit with a code and leave the filesystem changed.
- An analysis tool is a function from an invocation and the disk it starts on to a captured exit
  code, stdout and stderr and the disk it leaves. It may also raise.
- Python's `float` is an uninterpreted partial function from strings to reals.
- `orm.load_node` is a partial function from pks to plain process-node records.
- `orm.load_code` is a function from labels to a found code, `NotExistent`, or another error.
- The label query is the list of codes it returns.
- The platform's `submit` is a partial function from workchain inputs to a pk.
- Clock readings are parameters.

The files are as follows:

- `wrappers.dfy`: `Option`/`Result`.
- `text.dfy`: Python string operations — `strip`, `split`, `str.split()`, `replace`, digits and `int`.
- `clock.dfy`: `datetime` with `isoformat`, `fromisoformat` and the `%Y%m%d_%H%M%S` stamp.
- `json.dfy`: the value tree.
- `disk.dfy`: the filesystem.
- `calculation.dfy`, `runner.dfy`, `config.dfy`, `aiida.dfy`, `panel.dfy`, `mainwindow.dfy`, `aiidawindow.dfy`:
  the core modules. `panel.dfy` holds what the two windows share.

Where the source works step by step, the model is a method with loop invariants. Examples are the
directive scanners, the analysis loop, the run-script builder, the output scanner, the parser's
file loop, the code search, the selection loop and the monitoring pass. Each such method is proved
equal to a specification function, and the properties are lemmas about that function.

The source has three defects, listed under "## Findings". For each, a lemma states the behaviour
as written, and the methods model the corrected behaviour: `Aiida.CreateRunScript`,
`AiidaWindow.Worker.Visit`/`PollStep` and `AiidaWindow.Window.SubmitToAiida`/`StartCalculation`.

The energy scan keeps the last line whose number parses (`Aiida.ScanIsLast`).

## Model

| member | source | states |
|---|---|---|
| Calculations.Calculation.constructor | src/runners/local_runner.py:21-31 | A new calculation is `created`, of type MCTDH, with no paths, no instants and empty results |
| Calculations.Calculation.ToDict | src/runners/local_runner.py:33-46 | The dict has exactly the ten field keys, and `from_dict` of it gives back the same record |
| Calculations.Calculation.FromDict | src/runners/local_runner.py:48-63 | `from_dict` gives a new object holding the decoded record, and nothing exactly when the dict does not decode: a missing key, a bad path or timestamp, or a field the record cannot hold (see "## Left out") |
| Calculations.DecodeEncode | src/runners/local_runner.py:33-63 | `from_dict(to_dict(c))` reproduces every field: paths through their text, instants through ISO text, `None` kept |
| Calculations.DecodeFields | src/runners/local_runner.py:49-63 | Any dict whose ten entries decode to the fields of `r` decodes to `r`, whatever else it holds |
| Clock.IsoRoundTrip | src/runners/local_runner.py:41-42 | `fromisoformat(isoformat(t)) == t` for every valid instant |
| Clock.StampShape | src/runners/local_runner.py:123 | The `%Y%m%d_%H%M%S` stamp is 15 characters: digits with `_` at position 8 |
| LocalRunner.Runner.Open | src/runners/local_runner.py:69-77 | Opening succeeds exactly when the base and `runs` directories can be made; the registry starts empty, and the disk gains exactly those two directories |
| LocalRunner.Runner.ListCalculations | src/runners/local_runner.py:444-446 | One entry per registered name, every registered calculation listed, in insertion order (`Listed(order, calculations)`) |
| LocalRunner.Runner.ListedFound | src/runners/local_runner.py:444-450 | Each calculation `list_calculations` gives is the one `get_calculation` returns for its name |
| LocalRunner.Runner.CreateCalculation | src/runners/local_runner.py:102-130 | An existing name raises with registry and disk unchanged. Otherwise creation succeeds iff the working directory can be made; the registry gains exactly that name, at the end of the order, bound to a fresh calculation holding `NewRecord` |
| LocalRunner.Runner.Register | src/runners/local_runner.py:127 | Registering a new name adds exactly that entry, appends it to the listing and keeps the registry consistent |
| LocalRunner.RegisteredExtend | src/runners/local_runner.py:127 | A new name keeps the names distinct and equal to the keys, and its calculation appears last in the listing |
| LocalRunner.NewRecord | src/runners/local_runner.py:114-124 | The new record is `created` with no instants and empty results; the input paths are resolved; the folder is kept, resolved, only for DD-vMCG with a folder given; the directory is `runs/<name>_<stamp>` |
| LocalRunner.WorkingDirectoryShape | src/runners/local_runner.py:123-124 | The working directory lies directly in the runs directory and is named `<name>_<stamp>` |
| LocalRunner.NewRecordPersists | src/runners/local_runner.py:114-128 | A freshly created record survives `to_dict`/`from_dict` |
| LocalRunner.FirstMatch | src/runners/local_runner.py:247-251 | Gives the first index whose stripped line starts with the key and holds `=`, with no earlier match, or none when no line matches |
| LocalRunner.FirstMatchAt | src/runners/local_runner.py:247-251 | A matching line with no match before it is the one the scanner uses |
| LocalRunner.DirectiveAppend | src/runners/local_runner.py:247-251 | With no match so far, a matching next line decides the value |
| LocalRunner.DirectiveBetween | src/runners/local_runner.py:249-250 | The value is the trimmed text between the first and second `=` of the first matching line, and is None when no line matches |
| LocalRunner.NamePrefix | src/runners/local_runner.py:249 | With no earlier match, any stripped line `name<rest>=<value>` decides the `name` directive, so the scanner matches on a prefix: a line such as `namelist = x` is taken as the name |
| LocalRunner.FirstEquals | src/runners/local_runner.py:250 | In `head=value` with no `=` in either part, the second split part is `value` |
| LocalRunner.Runner.ReadDirective | src/runners/local_runner.py:243-267 | The scanner method returns the specified directive, and None for an unreadable file |
| LocalRunner.Runner.PrepareCalculation | src/runners/local_runner.py:132-158 | The outcome and the disk are those of `Preparation` |
| LocalRunner.PreparationPlaces | src/runners/local_runner.py:136-150 | A successful preparation leaves `input.inp` and the operator copy in the working directory, and `db_data` for DD-vMCG with a folder |
| LocalRunner.PreparationMonotone | src/runners/local_runner.py:134-158 | Preparation only adds files and directories, including when it fails partway |
| LocalRunner.Runner.RunCalculation | src/runners/local_runner.py:160-216 | The return value, the record and the disk are those of `Execution` |
| LocalRunner.RunRefusesRunning | src/runners/local_runner.py:164-166 | A running calculation returns false with record and disk unchanged |
| LocalRunner.RunPrepareFails | src/runners/local_runner.py:168-170 | A failed preparation returns false with status, instants and results unchanged, so the record is not marked failed |
| LocalRunner.RunOutcome | src/runners/local_runner.py:172-216 | Past the guards, the command is `[exe, "-mnd", "input.inp"]`. The run ends `completed` iff the log opens and the exit code is 0, else `failed`; both instants are set; the result equals `status == "completed"`; only status, instants and (on completion) results change |
| LocalRunner.Runner.CheckOutputFiles | src/runners/local_runner.py:218-241 | The record becomes `OutputDiscovery` of the old one |
| LocalRunner.Runner.PresentFiles | src/runners/local_runner.py:231-238 | The loop keeps the expected artefacts present in the directory, in order |
| LocalRunner.PresentExactly | src/runners/local_runner.py:231-238 | Exactly the names whose file exists are listed, as a subsequence of the given order |
| LocalRunner.OutputDiscovery | src/runners/local_runner.py:218-241 | Only the results change |
| LocalRunner.OutputDiscoveryResults | src/runners/local_runner.py:220-238 | The directory is the working directory plus the scanned name, or the calculation name when that is absent or empty. If it exists, `output_directory`, `output_name` and `output_files` are written and nothing else; otherwise the results are unchanged |
| LocalRunner.ToolCommand | src/runners/local_runner.py:293-306 | A tool has a command exactly when it starts with `rdcheck` or is `rdgpop` or `ddtraj` |
| LocalRunner.RunTool | src/runners/local_runner.py:309-333 | A raise records `Exception: <message>` and leaves the disk as it was. A non-zero exit records `Error: <stderr>` on the disk the tool left. On exit 0, when the save can be made, the stdout is recorded and saved as `<tool with _ for spaces>_output.txt`; when it cannot, `Exception: <the error>` is recorded on the disk the tool left |
| LocalRunner.Runner.ExecuteTool | src/runners/local_runner.py:309-333 | Running one known tool gives the text and disk of `RunTool` |
| LocalRunner.Runner.RunBatch | src/runners/local_runner.py:287-333 | The loop's results and disk are those of `Batch` |
| LocalRunner.BatchResults | src/runners/local_runner.py:289-333 | The result keys are exactly the listed tools that have a command. Each value is the outcome of that tool's last occurrence, run on the disk the tools before it left |
| LocalRunner.ToolWrites | src/runners/local_runner.py:309-325 | A file one tool step leaves new or changed is its output file, or the tool run wrote it |
| LocalRunner.BatchWrites | src/runners/local_runner.py:322-325 | Every file the batch leaves new or changed is a listed tool's `<tool with _ for spaces>_output.txt`, or was written by one of the tool runs themselves |
| LocalRunner.OutputFileNameNoSpace | src/runners/local_runner.py:323 | The saved output file name holds no space |
| LocalRunner.Runner.Analyse | src/runners/local_runner.py:269-339 | The analysis result, record and disk are those of `Analysis` |
| LocalRunner.AnalysisSkips | src/runners/local_runner.py:271-285 | Unless the calculation is completed and its output directory exists, the analysis returns `{}` and changes nothing |
| LocalRunner.AnalysisStores | src/runners/local_runner.py:287-339 | A batch that ran is returned and overwrites `results[key]`; every other field and result is kept |
| LocalRunner.Runner.RunAnalysis | src/runners/local_runner.py:269-339 | `rdgpop` is fed `2\n1\n`, and the map is stored as `results["analysis"]` |
| LocalRunner.Runner.RunAnalysisWithParams | src/runners/local_runner.py:341-442 | `rdgpop` is fed `{nz}\n{dof}\n` from the parameters, and the map is stored as `results["analysis_with_params"]` |
| LocalRunner.VariantsAgree | src/runners/local_runner.py:386-388 | With empty parameters the parameterised variant computes what `run_analysis` computes, under its own key |
| Config.Serialize | src/utils/config.py:73-87 | Serialising keeps the key set |
| Config.SerializeRemovesPaths | src/utils/config.py:73-87 | After serialising, no `Path` is left exactly when every path sits under dict keys or directly in a list |
| Config.SerializeJson | src/utils/config.py:73-87 | A value already free of paths is unchanged |
| Config.Deserialize | src/utils/config.py:90-112 | Deserialising keeps the key set when it does not raise |
| Config.DeserializeShape | src/utils/config.py:93-110 | A truthy value under a path key becomes a `Path`; any other non-dict value is unchanged; a nested dict keeps its keys |
| Config.DeserializeFails | src/utils/config.py:90-112 | Deserialising raises exactly when some truthy value under a path key is neither a string nor a path |
| Config.LoadableValue | src/utils/config.py:90-112 | One value deserialises exactly when it is loadable |
| Config.RoundTripValue | src/utils/config.py:73-112 | A round-trip-safe value comes back unchanged |
| Config.RoundTrip | src/utils/config.py:73-112 | `deserialize(serialize(c)) == c` when the paths sit under path keys and the path keys hold only paths or falsy values |
| Config.PathBecomesString | src/utils/config.py:79-80 | A `Path` under an ordinary key comes back as its string |
| Config.StringBecomesPath | src/utils/config.py:103-104 | A non-empty string under a path key comes back as a `Path` |
| Config.DefaultConfig | src/utils/config.py:115-135 | The defaults include MCTDH, `quantics`, `my_quantics_run`, no tools, and `rdgpop` answers `2` and `1` |
| Config.DefaultsAreJson | src/utils/config.py:115-135 | Serialising the defaults changes nothing |
| Config.DefaultsDeserialize | src/utils/config.py:93-110 | Deserialising the defaults turns only `quantics_executable` into a path |
| Config.DefaultsReload | src/utils/config.py:73-135 | Saving and reloading the defaults gives them back with `quantics_executable` as `Path("quantics")` |
| Config.LoadConfig | src/utils/config.py:47-70 | A missing file, unparsable text or a non-dict document gives None; a dict document gives its deserialisation |
| Config.SaveConfig | src/utils/config.py:15-44 | When the target cannot be written, the save fails with the store unchanged. Otherwise the store gains exactly the target file; no other file changes; on success the target holds the serialised config |
| Config.SaveSucceeds | src/utils/config.py:31-41 | Saving succeeds exactly when the target can be written and every `Path` is within the serialiser's reach |
| Config.SaveThenLoad | src/utils/config.py:15-112 | Saving a round-trip-safe config succeeds iff its file can be written; loading it then gives it back |
| Aiida.AnalysisTools | src/runners/aiida_integration.py:398-405 | At most four tools per type |
| Aiida.AnalysisToolsShape | src/runners/aiida_integration.py:398-405 | Known types start with `rdcheck etot`, `rdcheck spop`; only MCTDH has `rdgpop`, only DD-vMCG has `ddtraj`; every other tool is an `rdcheck` call; unknown types get none |
| Aiida.ResourcesShape | src/runners/aiida_integration.py:330-338 | One MPI process; `core.sge` gets `parallel_env: smp`, any other scheduler `num_machines: 1` |
| Aiida.RunQuanticsInputs | src/runners/aiida_integration.py:318-360 | The job analyses iff analysis was asked for and the type has tools, with the type's tools. Parameters travel only with tools; the db folder is forwarded iff present; the wall clock is 3600 |
| Aiida.CreateRunScript | src/runners/aiida_integration.py:145-195 | The builder loop produces `RunScript`, whose tool lines write `output/<tool with _ for spaces>_output.txt` (the corrected redirect of the first finding) |
| Aiida.ScriptFrame | src/runners/aiida_integration.py:149-194 | The script starts with the fixed header (`set -e`, the `quantics input.inp` line) and ends with the completion echo |
| Aiida.ScriptBlockAt | src/runners/aiida_integration.py:178-190 | Tool `k`'s block sits between the blocks of the tools before and after it |
| Aiida.BlocksSplit | src/runners/aiida_integration.py:178-190 | The blocks are the tools' blocks in tool order |
| Aiida.ScriptWithoutTools | src/runners/aiida_integration.py:172-194 | Without analysis tools the script is the header and footer only |
| Aiida.ScriptDefaults | src/runners/aiida_integration.py:174-181 | Without parameters `rdgpop` is piped `2` and `1` |
| Aiida.SpacedToolRedirect | src/runners/aiida_integration.py:187-189 | As written, the line for a tool `a b` redirects to `output/a`, not to a file named after the tool |
| Aiida.CorrectedRedirect | src/runners/aiida_integration.py:187-189 | With `_` for spaces, the line redirects to `output/a_b_output.txt`, and the parser's key rule recovers `a_b` |
| Aiida.ParseQuanticsOutput | src/runners/aiida_integration.py:253-281 | The scanning loop produces `Scan` over the lines of the output |
| Aiida.ScanIsLast | src/runners/aiida_integration.py:257-279 | Each of `total_energy`, `final_time` and `converged` is the last reading any line gives, absent when none does |
| Aiida.LastOfSpec | src/runners/aiida_integration.py:257-279 | The last present entry is present iff some entry is, and nothing present follows it |
| Aiida.KeyOfOutputName | src/runners/aiida_integration.py:225-226 | A name without a dot is recovered from `<name>_output.txt` |
| Aiida.CollectAnalysis | src/runners/aiida_integration.py:221-231 | The file loop produces `AnalysisEntries`; an unreadable file is skipped |
| Aiida.AnalysisEntriesLast | src/runners/aiida_integration.py:224-231 | A key is present iff some listed readable `_output.txt` file gives it; its text is the last such file's |
| Aiida.Parse | src/runners/aiida_integration.py:203-251 | `ERROR_QUANTICS_FAILED` exactly when `quantics.out` or any listed `output/` file fails to open. Otherwise the results are the scan of `quantics.out`, the analysis entries of `output/` (one for each `…_output.txt` name), and the output folder is registered iff `output/` lists a name |
| Aiida.CopyOutputFolder | src/runners/aiida_integration.py:238-245 | The copy loop succeeds iff every listed `output/` file opens |
| Aiida.ReadableFolderKeys | src/runners/aiida_integration.py:221-245 | When every listed file opens, each `…_output.txt` name has its key among the analysis entries |
| Aiida.CodeChoiceAllSkipped | src/runners/aiida_integration.py:459-481 | When every candidate is blank or does not exist, the first code of the label query is used, or none |
| Aiida.CodeChoiceFirstTried | src/runners/aiida_integration.py:459-488 | The first candidate that is neither blank nor missing decides: its code if it loads, no code if its lookup raises otherwise |
| Aiida.UserCodeFirst | src/runners/aiida_integration.py:452-464 | A user label that loads is the code used |
| Aiida.Integration.SetupCode | src/runners/aiida_integration.py:448-488 | The candidate loop sets the code to `CodeChoice` |
| Aiida.Integration.constructor | src/runners/aiida_integration.py:416-446 | After construction the code is the one `_setup_code` chooses |
| Aiida.Integration.Submission | src/runners/aiida_integration.py:514-540 | Raises iff no code is set. Otherwise the inputs carry the code, files, type and analysis flag; the db folder iff given and existing, looked up from the current directory; parameters iff given and non-empty |
| Aiida.DisplayLabel | src/runners/aiida_integration.py:555 | The displayed label is never empty |
| Aiida.StatusShape | src/runners/aiida_integration.py:548-568 | The status is exactly `{"error": …}` when the node cannot be loaded or has no state; otherwise it reports the node with all seven keys and no error |
| Aiida.ResultsShape | src/runners/aiida_integration.py:570-596 | The results are an error unless the process finished ok; otherwise `calculation`, `analysis` and `output_files` appear exactly for the outputs that exist |
| Panel.LabelRoundTrip | src/gui/main_window.py:504 | `split(" - ")[0]` of a label gives back a tool name without a dash |
| Panel.SelectedTools | src/gui/main_window.py:501-506 | The selection loop gives `Selected` of the items |
| Panel.SelectedNonEmpty | src/gui/main_window.py:501-506 | Some tool is recovered exactly when some item is selected |
| Panel.SelectionRecoversTools | src/gui/main_window.py:501-530 | Reading back the list built from entries gives exactly the chosen tools, in map order |
| Panel.OrDefaultClean | src/gui/main_window.py:515-516 | A defaulted field is never blank and never has surrounding whitespace |
| Panel.ValidateInputs | src/gui/main_window.py:476-497 | Passes iff the stripped name is non-empty, both files exist, and (for DD-vMCG only) the folder exists. A blank name gives exactly the `Input Error`; a `Folder Error` only occurs for DD-vMCG |
| Panel.ValidateIgnoresFolder | src/gui/main_window.py:489-494 | For any type but DD-vMCG the folder field cannot change the verdict |
| MainWindow.MapAgreesWithWorkChain | src/gui/main_window.py:64-80 | The window's tool names equal the workchain's for every workflow type |
| MainWindow.MapToolsRunLocally | src/gui/main_window.py:64-80 | Every offered tool has a local command, and none holds a dash |
| MainWindow.OfferedTool | src/gui/main_window.py:64-80 | Each of the five offered names has a local command, and none holds a dash |
| MainWindow.ListedSelection | src/gui/main_window.py:501-530 | The tools collected from a type's list are exactly the ones the user picked |
| MainWindow.CollectConfig | src/gui/main_window.py:499-518 | The method computes `Collected` |
| MainWindow.CollectedDefaults | src/gui/main_window.py:513-518 | The `rdgpop` values are never blank, and no folder field is `Some("")` |
| MainWindow.AnalysisParams | src/gui/main_window.py:443-447 | The parameter dict has exactly `rdgpop_nz`, `rdgpop_dof` and `show_cmdline` |
| MainWindow.RdgpopFedFromForm | src/gui/main_window.py:443-447 | A local start feeds `rdgpop` the stripped form values, or `2` and `1` for a blank field |
| MainWindow.StartLocalCalculation | src/gui/main_window.py:408-464 | Creation fails iff the name exists or the directory cannot be made, and then nothing runs and nothing changes. Otherwise the run is `Execution` of the new record; it fails iff the run did; analysis runs iff the run succeeded with some tool selected |
| MainWindow.RunThenAnalyse | src/gui/main_window.py:431-455 | After creation: a failed run stops; a successful one analyses exactly when some tool is selected, with `run_analysis_with_params` over the form's parameters |
| AiidaWindow.MapAgreesWithWorkChain | quantics_gui_aiida.py:151-167 | The window's tool names equal the workchain's for every workflow type |
| AiidaWindow.NameFlaggedIff | quantics_gui_aiida.py:993-999 | A name is flagged iff it is non-empty and either is made only of `_`/`-` or holds a character that is not a letter, digit, `_` or `-` |
| AiidaWindow.RemoveChar | quantics_gui_aiida.py:996 | After removing a character, the characters left are exactly the string's other characters |
| AiidaWindow.IntOrDigits | quantics_gui_aiida.py:916-917 | A number typed as its digits reads back as itself |
| AiidaWindow.CollectConfig | quantics_gui_aiida.py:888-920 | The method computes `Collected` |
| AiidaWindow.CollectedSettings | quantics_gui_aiida.py:897-918 | Shared keys are as in the local window. AiiDA settings appear iff the mode is 1: empty fields default to 1 processor, 3600 s and no queue; an unreadable number fails the whole collection |
| AiidaWindow.WorkerSubmission | quantics_gui_aiida.py:84-102 | No integration gives None; otherwise a pk comes back iff the input checks (relative paths looked up from the current directory) and `submit` both succeed |
| AiidaWindow.ValidatedFolderAttached | quantics_gui_aiida.py:626-658 | A DD-vMCG start that passed validation hands the workchain the database folder it validated |
| AiidaWindow.Worker.SetupAiida | quantics_gui_aiida.py:75-82 | Succeeds iff the integration was created, and only then replaces it |
| AiidaWindow.Worker.SubmitCalculation | quantics_gui_aiida.py:84-102 | The pk is `WorkerSubmission`'s; a pk is added to the watched set only on success, and a failure changes nothing |
| AiidaWindow.Worker.Visit | quantics_gui_aiida.py:106-120 | For one pk: emits its status; reports a terminal one finished, successful iff the results have no `error`; drops a terminal pk, one that is not a number, and (the corrected rule of the second finding) one whose status is an error report |
| AiidaWindow.Worker.PollStep | quantics_gui_aiida.py:104-122 | One pass emits every watched pk's status and reports the terminal ones. The watched set becomes those that stay watched, whatever the visiting order; with no integration nothing happens |
| AiidaWindow.StatusesGrow | quantics_gui_aiida.py:106-120 | Visiting one more pk extends the emitted statuses by that pk's status alone |
| AiidaWindow.FinishedGrow | quantics_gui_aiida.py:112-117 | Visiting one more pk extends the finished reports by that pk's report alone |
| AiidaWindow.WatchedGrow | quantics_gui_aiida.py:112-120 | Visiting one more pk adds it to the watched part iff it stays watched |
| AiidaWindow.SubmittedEntry | quantics_gui_aiida.py:648-652 | The new entry is `submitted` and holds no error |
| AiidaWindow.Window.OnStatusUpdated | quantics_gui_aiida.py:697-701 | An error report is ignored; any other status replaces the pk's entry; no stored entry is ever an error |
| AiidaWindow.Window.SubmitToAiida | quantics_gui_aiida.py:626-658 | The worker is asked to analyse iff some tool is selected, with the collected `rdgpop` fields as parameters (the correction of the third finding); a true pk is recorded as submitted; nothing else is recorded |
| AiidaWindow.Window.StartCalculation | quantics_gui_aiida.py:612-624 | Invalid inputs are refused with the first warning, and a failing collection stops. A start goes to AiiDA iff the mode id is 1 and AiiDA is enabled, else to the local runner; only an AiiDA start changes any state |
| AiidaWindow.FailedLookupStaysWatched | quantics_gui_aiida.py:104-122 | As written, a pk whose lookup fails gets an `error` status and stays watched for ever |
| AiidaWindow.CorrectedDropsFailedLookup | quantics_gui_aiida.py:104-122 | With the corrected rule, a failed lookup (or a node with no state) is dropped, and a running process stays watched |
| AiidaWindow.SubmissionIgnoresRdgpopFields | quantics_gui_aiida.py:637-644 | As written, the workchain gets no analysis parameters, and the script pipes `2` and `1` to `rdgpop` whatever was typed |
| AiidaWindow.CorrectedAnalysisParams | quantics_gui_aiida.py:909-910 | The intended parameters are exactly the two `rdgpop` fields |
| AiidaWindow.CorrectedSubmissionUsesForm | quantics_gui_aiida.py:637-644 | With the form's parameters, the script pipes the form's `rdgpop` values |

## Left out

- Text: whitespace is the ASCII set, and `isalnum`/`isdigit` are ASCII letters and digits, not Unicode categories. A lone `\r` does not end a line.
- Paths are strings joined with `/`. `Path.resolve()` prefixes the current directory, and there is no `..` or symbolic-link normalisation.
- Python's `float` is an uninterpreted parameter, so nothing about the numbers read is modelled.
- `datetime.now()` readings are parameters, and the same for the creation and run clocks.
- `fromisoformat` is modelled only on texts that `isoformat` produces.
- `Clock.Stamp` writes out `strftime` for the one format used.
- Python `int()` accepts an optional sign and ASCII digits, after stripping; underscores are not modelled.
- `_load_calculations`/`_save_calculations` and their JSON file are not modelled. A runner opens with an empty registry, and the saves after each step are left out.
- The runner's `print` messages and `show_cmdline` printing are left out. `MainWindow.TextParams` drops the boolean `show_cmdline`, which only affects printing.
- Log messages, `report`, message boxes, button and progress-bar states and widget styling are left out.
- The `QThread`, `msleep`, the run loop's stop flag and the signals are left out. A monitoring pass returns what it would emit, as maps keyed by pk, not as an ordered stream of signals.
- The AiiDA window's local path uses `QuanticsRunner` from `quantics_gui_pyqt`, which is not part of this model. `AiidaWindow.Window.StartCalculation` returns the collected configuration instead.
- AiiDA is abstracted as follows:
  - profile loading, `orm` nodes, `SinglefileData`/`FolderData` and the `rglob` copy are left out;
  - `prepare_for_submission`, `check_quantics`, `run_analysis` and `finalize_results` of the workchain are left out;
  - `list_calculations` of the adapter (its order comes from the database query) and `setup_aiida_for_quantics` are left out;
  - `submit`, `load_node` and `load_code` are oracles;
  - a process node is plain data with `ctime`/`mtime` as ISO strings.
- `AiidaWindow.Window.SubmitToAiida`: a pk of 0 counts as a failure, as `if process_pk:` reads it.
- Python dict insertion order is not modelled for value dicts, which are maps. The runner's registry keeps its order in a separate sequence.
- Error texts are the exception messages as far as the code fixes them. `str(e)` of platform errors is an oracle string.
- `Aiida.Parse`: the `output_folder` node is a flag, and one `read` oracle stands for both the text and the binary opens. The catch-all `except` is modelled only for files that fail to open; a text decoding error and failures of `self.out` are not modelled, because the oracle returns text. `ParseFailed` carries only the exit code, although a failed `output_folder` copy happens after `results` (and any `analysis_results`) were already registered.
- `print_status`, `main` and the command-line entry points are outside the core.
- Calculations.Calculation.FromDict: a dict whose `name`, `workflow_type` or `status` is not a string, or whose `results` is not a dict, counts as unreadable. `from_dict` stores such values as given, but the typed record cannot hold them.
- `Aiida.AnalysisTools`: its own contract only bounds the list length. The full table is stated by `Aiida.AnalysisToolsShape` and by the window lemmas that compare their maps to it.

## Findings

| source | as written | input that shows it | evidently intended | confidence | as-written member | corrected member |
|---|---|---|---|---|---|---|
| src/runners/aiida_integration.py:187-189 | A tool name is written unquoted into `{tool} > output/{tool}_output.txt`, so a name with a space splits into several shell words | `rdcheck etot` (offered for every workflow type): the output goes to `output/rdcheck`, and `etot_output.txt` becomes an extra argument, so the parser never sees an `_output.txt` file for it | Spaces replaced by `_` in the file name, as the local runner does at src/runners/local_runner.py:323, giving `output/rdcheck_etot_output.txt` keyed `rdcheck_etot` | not executed | Aiida.SpacedToolRedirect | Aiida.CorrectedRedirect |
| quantics_gui_aiida.py:104-122 | The worker drops a pk only when the status lookup raises, but `get_calculation_status` never raises; it returns `{"error": …}` | A pk whose node cannot be loaded: its status has no terminal state, so it is polled every five seconds for ever, and the window ignores each report | A status that is an error report ends the watch, like the `except` branch meant to | not executed | AiidaWindow.FailedLookupStaysWatched | AiidaWindow.CorrectedDropsFailedLookup |
| quantics_gui_aiida.py:637-644 | `submit_to_aiida` passes `config.get('analysis_params', {})`, a key `collect_config` never sets | Any form with `rdgpop` selected and `rdgpop_nz` = `5`: the AiiDA script still pipes `2` and `1` | The collected `rdgpop_nz`/`rdgpop_dof` passed as the analysis parameters, as the local start does at src/gui/main_window.py:443-447 | not executed | AiidaWindow.SubmissionIgnoresRdgpopFields | AiidaWindow.CorrectedSubmissionUsesForm |
