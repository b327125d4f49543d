/**
 * The window of `quantics_gui_aiida.py`: its workflow → tool map, the calculation-name check, the
 * configuration it collects (with the AiiDA settings), where a start goes, the worker's submission
 * and one pass of its monitoring loop, and the statuses the window keeps.
 */
module AiidaWindow {
  import opened Wrappers
  import opened Text
  import opened Json
  import opened Disk
  import opened Panel
  import MainWindow
  import Aiida

  /** `self.workflow_analysis_map`, written out again in this window. */
  const WorkflowAnalysisMap: ToolMap := map[
    "MCTDH" := [("rdcheck etot", "Total energy check"),
                ("rdcheck spop", "Single particle population"),
                ("rdcheck natpop 0 0", "Natural potential analysis"),
                ("rdgpop", "Grid population analysis")],
    "vMCG" := [("rdcheck etot", "Total energy check"),
               ("rdcheck spop", "Single particle population")],
    "DD-vMCG" := [("rdcheck etot", "Total energy check"),
                  ("rdcheck spop", "Single particle population"),
                  ("ddtraj", "DD trajectory analysis")]]

  /** The two windows' copies of the map agree, so this one too offers exactly the workchain's tools. */
  lemma MapAgreesWithWorkChain(workflowType: string)
    ensures WorkflowAnalysisMap == MainWindow.WorkflowAnalysisMap
    ensures ToolsOf(WorkflowAnalysisMap, workflowType) == Aiida.AnalysisTools(workflowType)
  {
    MainWindow.MapAgreesWithWorkChain(workflowType);
  }

  // ---------------------------------------------------------------- the calculation name

  /** Python `s.isalnum()`: non-empty, every character a letter or a digit. */
  predicate IsAlnumText(s: string) {
    s != "" && forall i :: 0 <= i < |s| ==> IsAlnum(s[i])
  }

  /** `check_calculation_name` marks the field red: `name and not name.replace('_', '').replace('-', '').isalnum()`. */
  predicate NameFlagged(name: string) {
    name != "" && !IsAlnumText(ReplaceAll(ReplaceAll(name, "_", ""), "-", ""))
  }

  /** Removing a character keeps exactly the other characters. */
  lemma {:induction false} RemoveChar(s: string, c: char)
    ensures forall x :: x in ReplaceAll(s, [c], "") <==> x in s && x != c
    decreases |s|
  {
    if s != [] {
      RemoveChar(s[1..], c);
      assert s == [s[0]] + s[1..];
      if StartsWith(s, [c]) {
        assert s[0] == c;
      }
    }
  }

  /**
   * A name is flagged exactly when it is non-empty and either consists only of `_` and `-`
   * or holds some character that is neither a letter, a digit, `_` nor `-`.
   */
  lemma NameFlaggedIff(name: string)
    ensures NameFlagged(name) <==>
              && name != ""
              && ((forall i :: 0 <= i < |name| ==> name[i] == '_' || name[i] == '-')
                  || (exists i :: 0 <= i < |name| && !IsAlnum(name[i]) && name[i] != '_' && name[i] != '-'))
  {
    var u := ReplaceAll(name, "_", "");
    var r := ReplaceAll(u, "-", "");
    RemoveChar(name, '_');
    RemoveChar(u, '-');
    assert forall x :: x in r <==> x in name && x != '_' && x != '-';
    if r == "" {
      forall i | 0 <= i < |name|
        ensures name[i] == '_' || name[i] == '-'
      {
        assert name[i] in name;
      }
    } else {
      assert r[0] in name;
      if IsAlnumText(r) {
        forall i | 0 <= i < |name| && name[i] != '_' && name[i] != '-'
          ensures IsAlnum(name[i])
        {
          assert name[i] in r;
        }
      } else {
        var j :| 0 <= j < |r| && !IsAlnum(r[j]);
        assert r[j] in name;
      }
    }
  }

  // ---------------------------------------------------------------- the configuration

  /** The form of this window: the shared fields, two more flags, the execution mode and the AiiDA fields. */
  datatype AiidaForm = AiidaForm(base: Form, saveInputs: bool, cleanupOnSuccess: bool, modeId: int,
                                 resources: string, walltime: string, queue: string)

  datatype AiidaSettings = AiidaSettings(resources: int, walltime: int, queue: Option<string>)

  /** The dict `collect_config` returns; the AiiDA settings are there only in AiiDA mode. */
  datatype AiidaConfig = AiidaConfig(run: MainWindow.RunConfig, saveInputs: bool, cleanupOnSuccess: bool,
                                     aiida: Option<AiidaSettings>)

  /** `int(text or default)`: None where `int` raises. */
  function IntOr(text: string, default: int): (r: Option<int>)
    ensures text == "" ==> r == Some(default)
    ensures text != "" ==> r == ParseInt(text)
  {
    if text == "" then Some(default) else ParseInt(text)
  }

  /** A number typed as its decimal digits reads back as itself. */
  lemma IntOrDigits(n: nat, default: int)
    ensures IntOr(NatToString(n), default) == Some(n)
  {
    ParseIntOfNatToString(n);
    NatToStringValue(n);
  }

  /** The settings the AiiDA fields give, or the `int()` failure. */
  function Settings(form: AiidaForm): Result<AiidaSettings> {
    var resources, walltime := IntOr(form.resources, 1), IntOr(form.walltime, 3600);
    if resources.None? then Err("invalid literal for int() with base 10: '" + form.resources + "'")
    else if walltime.None? then Err("invalid literal for int() with base 10: '" + form.walltime + "'")
    else Ok(AiidaSettings(resources.value, walltime.value, NonEmpty(form.queue)))
  }

  /** The configuration a form yields, or the error `collect_config` raises. */
  function Collected(form: AiidaForm): Result<AiidaConfig> {
    var run := MainWindow.Collected(form.base);
    if form.modeId != 1 then Ok(AiidaConfig(run, form.saveInputs, form.cleanupOnSuccess, None))
    else match Settings(form)
      case Err(e) => Err(e)
      case Ok(s) => Ok(AiidaConfig(run, form.saveInputs, form.cleanupOnSuccess, Some(s)))
  }

  /** `collect_config`. */
  method CollectConfig(form: AiidaForm) returns (config: Result<AiidaConfig>)
    ensures config == Collected(form)
  {
    var run := MainWindow.CollectConfig(form.base);
    if form.modeId != 1 {
      return Ok(AiidaConfig(run, form.saveInputs, form.cleanupOnSuccess, None));
    }
    var resources := IntOr(form.resources, 1);
    var walltime := IntOr(form.walltime, 3600);
    if resources.None? {
      return Err("invalid literal for int() with base 10: '" + form.resources + "'");
    }
    if walltime.None? {
      return Err("invalid literal for int() with base 10: '" + form.walltime + "'");
    }
    return Ok(AiidaConfig(run, form.saveInputs, form.cleanupOnSuccess,
                          Some(AiidaSettings(resources.value, walltime.value, NonEmpty(form.queue)))));
  }

  /**
   * The shared keys are collected as the local window collects them; the AiiDA settings appear
   * exactly in mode 1, where an empty field takes its default (1 processor, 3600 seconds, no
   * queue) and a field `int` cannot read makes the whole collection fail.
   */
  lemma CollectedSettings(form: AiidaForm)
    ensures var c := Collected(form);
            && (c.Err? <==> form.modeId == 1 && (IntOr(form.resources, 1).None? || IntOr(form.walltime, 3600).None?))
            && (c.Ok? ==> c.value.run == MainWindow.Collected(form.base) && (c.value.aiida.Some? <==> form.modeId == 1))
            && (c.Ok? && c.value.aiida.Some? ==>
                  var s := c.value.aiida.value;
                  && (form.resources == "" ==> s.resources == 1)
                  && (form.walltime == "" ==> s.walltime == 3600)
                  && (s.queue.None? <==> form.queue == ""))
  {
  }

  // ---------------------------------------------------------------- the worker

  /**
   * `AiidaWorkerThread.submit_calculation` as a value: the integration's input checks, then the
   * platform's `submit`; None wherever an exception is caught.
   */
  function WorkerSubmission(integration: Aiida.Integration?, inpFile: string, opFile: string, workflowType: string,
                            dbFolder: Option<string>, fs: FileSystem, cwd: string, runAnalysis: bool,
                            analysisParams: Option<map<string, string>>,
                            submit: Aiida.WorkChainInputs -> Result<nat>): (pk: Option<nat>)
    reads integration
    ensures integration == null ==> pk.None?
    ensures integration != null ==>
              var s := integration.Submission(inpFile, opFile, workflowType, dbFolder, fs, cwd, runAnalysis, analysisParams);
              (pk.Some? <==> s.Ok? && submit(s.value).Ok?) && (pk.Some? ==> pk.value == submit(s.value).value)
  {
    if integration == null then None
    else match integration.Submission(inpFile, opFile, workflowType, dbFolder, fs, cwd, runAnalysis, analysisParams)
      case Err(_) => None
      case Ok(w) =>
        match submit(w)
        case Err(_) => None
        case Ok(pk) => Some(pk)
  }

  /** `status.get('state') in ['finished', 'excepted', 'killed']`. */
  predicate Terminal(status: map<string, Value>) {
    "state" in status && status["state"].Str? && status["state"].s in {"finished", "excepted", "killed"}
  }

  /** The integration's two queries the monitoring loop makes, `get_calculation_status` and `get_calculation_results`. */
  datatype Queries = Queries(status: int -> map<string, Value>, results: int -> map<string, Value>)

  /** The queries as the adapter answers them from its process store. */
  function AdapterQueries(load: int -> Result<Aiida.ProcessNode>): Queries {
    Queries(n => Aiida.CalculationStatus(n, load), n => Aiida.CalculationResults(n, load))
  }

  /** Whether the loop as written keeps watching `pk`: it reads as a number and is not terminal. */
  predicate WatchedAsWritten(pk: string, queries: Queries) {
    StatusOf(pk, queries).Some? && !Terminal(StatusOf(pk, queries).value)
  }

  /**
   * Whether a pass of the monitoring loop keeps watching `pk`, with the corrected rule of
   * `CorrectedDropsFailedLookup`: it reads as a number, is not terminal and is not an error report.
   */
  predicate Watched(pk: string, queries: Queries) {
    WatchedAsWritten(pk, queries) && "error" !in StatusOf(pk, queries).value
  }

  /** The status `run` emits for `pk`, when `int(pk)` reads it. */
  function StatusOf(pk: string, queries: Queries): Option<map<string, Value>> {
    if ParseInt(pk).Some? then Some(queries.status(ParseInt(pk).value)) else None
  }

  /** Whether `run` reports `pk` finished, and then whether successfully. */
  function FinishOf(pk: string, queries: Queries): Option<bool> {
    match StatusOf(pk, queries)
    case Some(status) =>
      if Terminal(status) then Some("error" !in queries.results(ParseInt(pk).value)) else None
    case None => None
  }

  /** The statuses emitted for a set of pks. */
  function Statuses(ps: set<string>, queries: Queries): map<string, map<string, Value>> {
    map p | p in ps && StatusOf(p, queries).Some? :: StatusOf(p, queries).value
  }

  /** The finished reports for a set of pks. */
  function Finished(ps: set<string>, queries: Queries): map<string, bool> {
    map p | p in ps && FinishOf(p, queries).Some? :: FinishOf(p, queries).value
  }

  /** The pks of a set that stay watched. */
  function StillWatched(ps: set<string>, queries: Queries): set<string> {
    set p | p in ps && Watched(p, queries)
  }

  /** Handling one more pk extends each of the three by that pk's part alone. */
  lemma StatusesGrow(ps: set<string>, pk: string, queries: Queries)
    requires pk !in ps
    ensures Statuses(ps + {pk}, queries)
         == (if StatusOf(pk, queries).Some? then Statuses(ps, queries)[pk := StatusOf(pk, queries).value] else Statuses(ps, queries))
  {
    var a, b := Statuses(ps + {pk}, queries), Statuses(ps, queries);
    if StatusOf(pk, queries).Some? {
      assert a.Keys == b.Keys + {pk};
    } else {
      assert a.Keys == b.Keys;
    }
  }

  lemma FinishedGrow(ps: set<string>, pk: string, queries: Queries)
    requires pk !in ps
    ensures Finished(ps + {pk}, queries)
         == (if FinishOf(pk, queries).Some? then Finished(ps, queries)[pk := FinishOf(pk, queries).value] else Finished(ps, queries))
  {
    if FinishOf(pk, queries).Some? {
      FinishedGrowBy(ps, pk, queries);
    } else {
      FinishedGrowNot(ps, pk, queries);
    }
  }

  lemma FinishedGrowBy(ps: set<string>, pk: string, queries: Queries)
    requires pk !in ps && FinishOf(pk, queries).Some?
    ensures Finished(ps + {pk}, queries) == Finished(ps, queries)[pk := FinishOf(pk, queries).value]
  {
    var a, b := Finished(ps + {pk}, queries), Finished(ps, queries);
    assert a.Keys == b.Keys + {pk};
  }

  lemma FinishedGrowNot(ps: set<string>, pk: string, queries: Queries)
    requires pk !in ps && FinishOf(pk, queries).None?
    ensures Finished(ps + {pk}, queries) == Finished(ps, queries)
  {
    var a, b := Finished(ps + {pk}, queries), Finished(ps, queries);
    assert a.Keys == b.Keys;
  }

  lemma WatchedGrow(ps: set<string>, pk: string, queries: Queries)
    requires pk !in ps
    ensures StillWatched(ps + {pk}, queries)
         == (if Watched(pk, queries) then StillWatched(ps, queries) + {pk} else StillWatched(ps, queries))
  {
  }

  /** Moving a visited pk out of the to-do part keeps the watched set's decomposition. */
  lemma ShiftOne(todo: set<string>, kept: set<string>, pk: string, keep: bool)
    requires pk in todo && pk !in kept
    ensures (if keep then todo + kept else (todo + kept) - {pk}) == (todo - {pk}) + (if keep then kept + {pk} else kept)
  {
  }

  lemma DoneStep(all: set<string>, todo: set<string>, done: set<string>, pk: string)
    requires todo <= all && done == all - todo && pk in todo
    ensures todo - {pk} <= all && done + {pk} == all - (todo - {pk})
  {
  }

  class Worker {
    var integration: Aiida.Integration?
    /** `monitoring_processes`, the pks as text. */
    var monitoring: set<string>

    constructor ()
      ensures integration == null && monitoring == {}
    {
      integration := null;
      monitoring := {};
    }

    /** `setup_aiida`; `created` is what constructing the integration gave, or the exception it raised. */
    method SetupAiida(created: Result<Aiida.Integration>) returns (ok: bool)
      modifies this`integration
      ensures ok <==> created.Ok?
      ensures integration == (if created.Ok? then created.value else old(integration))
    {
      if created.Err? {
        return false;
      }
      integration := created.value;
      return true;
    }

    /** `submit_calculation`: a submitted process is watched from then on; a failure changes nothing. */
    method SubmitCalculation(inpFile: string, opFile: string, workflowType: string, dbFolder: Option<string>,
                             fs: FileSystem, cwd: string, runAnalysis: bool, analysisParams: Option<map<string, string>>,
                             submit: Aiida.WorkChainInputs -> Result<nat>) returns (pk: Option<nat>)
      modifies this`monitoring
      ensures pk == WorkerSubmission(integration, inpFile, opFile, workflowType, dbFolder, fs, cwd, runAnalysis,
                                     analysisParams, submit)
      ensures pk.Some? ==> monitoring == old(monitoring) + {NatToString(pk.value)}
      ensures pk.None? ==> monitoring == old(monitoring)
    {
      if integration == null {
        return None;
      }
      var inputs := integration.Submission(inpFile, opFile, workflowType, dbFolder, fs, cwd, runAnalysis, analysisParams);
      if inputs.Err? {
        return None;
      }
      var process := submit(inputs.value);
      if process.Err? {
        return None;
      }
      monitoring := monitoring + {NatToString(process.value)};
      return Some(process.value);
    }

    /** The body of `run`'s inner loop for one pk: what it emits, and whether it stops watching the pk. */
    method Visit(pk: string, queries: Queries)
      returns (status: Option<map<string, Value>>, finish: Option<bool>)
      modifies this`monitoring
      ensures status == StatusOf(pk, queries) && finish == FinishOf(pk, queries)
      ensures monitoring == if Watched(pk, queries) then old(monitoring) else old(monitoring) - {pk}
    {
      status, finish := None, None;
      var n := ParseInt(pk);
      if n.None? {
        monitoring := monitoring - {pk};
        return;
      }
      var s := queries.status(n.value);
      status := Some(s);
      if Terminal(s) {
        var results := queries.results(n.value);
        finish := Some("error" !in results);
        monitoring := monitoring - {pk};
      } else if "error" in s {
        monitoring := monitoring - {pk};
      }
    }

    /**
     * One pass of `run`'s loop: every watched pk's status is emitted, a terminal one is reported
     * finished (successful iff its results hold no `'error'`) and dropped, and a pk that does not
     * read as a number, or whose status is an error report (the corrected rule, see
     * `FailedLookupStaysWatched`), is dropped.  The pass does not depend on the order the set is visited in.
     */
    method PollStep(queries: Queries)
      returns (statuses: map<string, map<string, Value>>, finished: map<string, bool>)
      modifies this`monitoring
      ensures integration == null ==> monitoring == old(monitoring) && statuses == map[] && finished == map[]
      ensures integration != null ==>
                && monitoring == StillWatched(old(monitoring), queries)
                && statuses == Statuses(old(monitoring), queries)
                && finished == Finished(old(monitoring), queries)
    {
      statuses, finished := map[], map[];
      if integration == null {
        return;
      }
      var todo := monitoring;
      ghost var done: set<string> := {};
      assert Statuses(done, queries).Keys == {} && Finished(done, queries).Keys == {} && StillWatched(done, queries) == {};
      while todo != {}
        invariant todo <= old(monitoring) && done == old(monitoring) - todo
        invariant monitoring == todo + StillWatched(done, queries)
        invariant statuses == Statuses(done, queries) && finished == Finished(done, queries)
        decreases |todo|
      {
        var pk :| pk in todo;
        StatusesGrow(done, pk, queries);
        FinishedGrow(done, pk, queries);
        WatchedGrow(done, pk, queries);
        assert pk !in StillWatched(done, queries);
        ShiftOne(todo, StillWatched(done, queries), pk, Watched(pk, queries));
        DoneStep(old(monitoring), todo, done, pk);
        var status, finish := Visit(pk, queries);
        if status.Some? {
          statuses := statuses[pk := status.value];
        }
        if finish.Some? {
          finished := finished[pk := finish.value];
        }
        todo := todo - {pk};
        done := done + {pk};
      }
      assert done == old(monitoring);
    }
  }

  // ---------------------------------------------------------------- the window

  /** The entry `submit_to_aiida` records for a new submission. */
  function SubmittedEntry(calculationName: string, created: string): (e: map<string, Value>)
    ensures "error" !in e && "state" in e && e["state"] == Str("submitted")
  {
    map["label" := Str(calculationName), "state" := Str("submitted"), "created" := Str(created)]
  }

  /** Where `start_calculation` sends a start. */
  datatype Start =
    | Refused(check: Check)
    | CollectRaised(message: string)
    | SentToAiida(pk: Option<nat>)
    | RunLocally(config: AiidaConfig)

  class Window {
    const worker: Worker
    const aiidaEnabled: bool
    /** `aiida_calculations`: pk text → what the window shows for it. */
    var aiidaCalculations: map<string, map<string, Value>>

    /** No stored entry is an error report. */
    ghost predicate Valid()
      reads this
    {
      forall pk :: pk in aiidaCalculations ==> "error" !in aiidaCalculations[pk]
    }

    constructor (worker: Worker, aiidaEnabled: bool)
      ensures Valid() && aiidaCalculations == map[]
      ensures this.worker == worker && this.aiidaEnabled == aiidaEnabled
    {
      this.worker := worker;
      this.aiidaEnabled := aiidaEnabled;
      aiidaCalculations := map[];
    }

    /** `on_aiida_status_updated`: a status is stored only when it is not an error report. */
    method OnStatusUpdated(pk: string, status: map<string, Value>)
      requires Valid()
      modifies this`aiidaCalculations
      ensures Valid()
      ensures "error" in status ==> aiidaCalculations == old(aiidaCalculations)
      ensures "error" !in status ==> aiidaCalculations == old(aiidaCalculations)[pk := status]
    {
      if "error" !in status {
        aiidaCalculations := aiidaCalculations[pk := status];
      }
    }

    /**
     * `submit_to_aiida`: the worker submits, asking for analysis iff some tool is selected; a
     * returned pk (a true one, so not 0) is recorded as submitted.  The parameters passed are the
     * collected `rdgpop` fields, the corrected form of `config.get('analysis_params', {})`, which
     * is always `{}` (see `SubmissionIgnoresRdgpopFields`).
     */
    method SubmitToAiida(config: AiidaConfig, fs: FileSystem, cwd: string, submit: Aiida.WorkChainInputs -> Result<nat>,
                         now: string) returns (pk: Option<nat>)
      requires Valid()
      modifies this`aiidaCalculations, worker`monitoring
      ensures Valid()
      ensures var run := config.run;
              pk == WorkerSubmission(worker.integration, run.inpFile, run.opFile, run.workflowType, run.dbFolder,
                                     fs, cwd, run.analysisTools != [], Some(CorrectedAnalysisParams(config)), submit)
      ensures pk.Some? ==> worker.monitoring == old(worker.monitoring) + {NatToString(pk.value)}
      ensures pk.None? ==> worker.monitoring == old(worker.monitoring)
      ensures pk.Some? && pk.value != 0 ==>
                aiidaCalculations == old(aiidaCalculations)[NatToString(pk.value)
                                                            := SubmittedEntry(config.run.calculationName, now)]
      ensures !(pk.Some? && pk.value != 0) ==> aiidaCalculations == old(aiidaCalculations)
    {
      var run := config.run;
      pk := worker.SubmitCalculation(run.inpFile, run.opFile, run.workflowType, run.dbFolder, fs, cwd,
                                     run.analysisTools != [], Some(CorrectedAnalysisParams(config)), submit);
      if pk.Some? && pk.value != 0 {
        aiidaCalculations := aiidaCalculations[NatToString(pk.value) := SubmittedEntry(run.calculationName, now)];
      }
    }

    /**
     * `start_calculation`: invalid inputs stop it; otherwise the configuration is collected (which
     * can raise) and goes to AiiDA iff the mode id is 1 and AiiDA is enabled, else to the local
     * runner thread.
     */
    method StartCalculation(form: AiidaForm, fs: FileSystem, cwd: string,
                            submit: Aiida.WorkChainInputs -> Result<nat>, now: string) returns (start: Start)
      requires Valid()
      modifies this`aiidaCalculations, worker`monitoring
      ensures Valid()
      ensures start.Refused? <==> ValidateInputs(form.base, fs, cwd).Warning?
      ensures start.Refused? ==> start.check == ValidateInputs(form.base, fs, cwd)
      ensures start.CollectRaised? <==> ValidateInputs(form.base, fs, cwd).Passed? && Collected(form).Err?
      ensures start.SentToAiida? <==> && ValidateInputs(form.base, fs, cwd).Passed? && Collected(form).Ok?
                                      && form.modeId == 1 && aiidaEnabled
      ensures start.SentToAiida? ==>
                var run := Collected(form).value.run;
                start.pk == WorkerSubmission(worker.integration, run.inpFile, run.opFile, run.workflowType,
                                             run.dbFolder, fs, cwd, run.analysisTools != [],
                                             Some(CorrectedAnalysisParams(Collected(form).value)), submit)
      ensures start.RunLocally? ==> start.config == Collected(form).value
      ensures !start.SentToAiida? ==>
                aiidaCalculations == old(aiidaCalculations) && worker.monitoring == old(worker.monitoring)
    {
      var check := ValidateInputs(form.base, fs, cwd);
      if check.Warning? {
        return Refused(check);
      }
      var config := CollectConfig(form);
      if config.Err? {
        return CollectRaised(config.error);
      }
      if form.modeId == 1 && aiidaEnabled {
        var pk := SubmitToAiida(config.value, fs, cwd, submit, now);
        return SentToAiida(pk);
      }
      return RunLocally(config.value);
    }
  }

  // ---------------------------------------------------------------- what the monitoring misses

  /**
   * As written, a process whose lookup fails is watched for ever: `get_calculation_status` turns
   * the failure into an `'error'` dict instead of raising, so the worker's `except` branch that
   * would drop the pk is never reached, the dict has no terminal state, and the window ignores it.
   */
  lemma FailedLookupStaysWatched(n: nat, load: int -> Result<Aiida.ProcessNode>)
    requires load(n).Err?
    ensures WatchedAsWritten(NatToString(n), AdapterQueries(load))
    ensures "error" in StatusOf(NatToString(n), AdapterQueries(load)).value
  {
    ParseIntOfNatToString(n);
  }

  /**
   * With the corrected rule a pk whose node cannot be loaded (or has no state) is dropped, while
   * a pk whose process is still in a non-terminal state stays watched, as before.
   */
  lemma CorrectedDropsFailedLookup(n: nat, load: int -> Result<Aiida.ProcessNode>)
    ensures load(n).Err? || (load(n).Ok? && load(n).value.processState.StateNone?) ==>
              !Watched(NatToString(n), AdapterQueries(load))
    ensures load(n).Ok? && load(n).value.processState.State?
            && load(n).value.processState.value !in {"finished", "excepted", "killed"} ==>
              Watched(NatToString(n), AdapterQueries(load))
  {
    ParseIntOfNatToString(n);
    Aiida.StatusShape(n, load);
  }

  /**
   * A DD-vMCG start that passed `validate_inputs` hands the workchain the database folder it
   * validated: both look the folder up from the same current directory.
   */
  lemma ValidatedFolderAttached(i: Aiida.Integration, form: AiidaForm, fs: FileSystem, cwd: string)
    requires i.code.Some?
    requires ValidateInputs(form.base, fs, cwd).Passed? && form.base.workflowType == "DD-vMCG"
    requires Collected(form).Ok?
    ensures var config := Collected(form).value;
            var run := config.run;
            var w := i.Submission(run.inpFile, run.opFile, run.workflowType, run.dbFolder, fs, cwd,
                                  run.analysisTools != [], Some(CorrectedAnalysisParams(config))).value;
            w.dbFolder == Some(form.base.dbFolder)
  {
  }

  // ---------------------------------------------------------------- what the submission misses

  /**
   * As written, an AiiDA submission never carries the `rdgpop` fields the form collects: the
   * workchain gets no analysis parameters, so the run script feeds `rdgpop` 2 and 1 whatever was typed.
   */
  lemma SubmissionIgnoresRdgpopFields(i: Aiida.Integration, config: AiidaConfig, fs: FileSystem, cwd: string,
                                      schedulerType: string)
    requires i.code.Some?
    ensures var run := config.run;
            var w := i.Submission(run.inpFile, run.opFile, run.workflowType, run.dbFolder, fs, cwd,
                                  run.analysisTools != [], Some(map[])).value;
            var job := Aiida.RunQuantics(w, schedulerType);
            && w.analysisParams.None?
            && (job.analysisTools.Some? ==>
                  Aiida.RunScript(job) == Aiida.ScriptHeader + Aiida.Blocks(job.analysisTools.value, "2", "1")
                                          + Aiida.ScriptFooter)
  {
    var run := config.run;
    var w := i.Submission(run.inpFile, run.opFile, run.workflowType, run.dbFolder, fs, cwd,
                          run.analysisTools != [], Some(map[])).value;
    Aiida.RunQuanticsInputs(w, schedulerType);
    var job := Aiida.RunQuantics(w, schedulerType);
    if job.analysisTools.Some? {
      Aiida.ScriptDefaults(job);
    }
  }

  /** The evidently intended parameters: the two `rdgpop` fields the form collected. */
  function CorrectedAnalysisParams(config: AiidaConfig): (p: map<string, string>)
    ensures p.Keys == {"rdgpop_nz", "rdgpop_dof"}
  {
    map["rdgpop_nz" := config.run.rdgpopNz, "rdgpop_dof" := config.run.rdgpopDof]
  }

  /** With them, the run script feeds `rdgpop` the values from the form. */
  lemma CorrectedSubmissionUsesForm(i: Aiida.Integration, config: AiidaConfig, fs: FileSystem, cwd: string,
                                    schedulerType: string)
    requires i.code.Some?
    ensures var run := config.run;
            var w := i.Submission(run.inpFile, run.opFile, run.workflowType, run.dbFolder, fs, cwd,
                                  run.analysisTools != [], Some(CorrectedAnalysisParams(config))).value;
            var job := Aiida.RunQuantics(w, schedulerType);
            job.analysisTools.Some? ==>
              Aiida.RunScript(job) == Aiida.ScriptHeader + Aiida.Blocks(job.analysisTools.value, run.rdgpopNz, run.rdgpopDof)
                                      + Aiida.ScriptFooter
  {
    var run := config.run;
    var p := CorrectedAnalysisParams(config);
    assert "rdgpop_nz" in p;
    var w := i.Submission(run.inpFile, run.opFile, run.workflowType, run.dbFolder, fs, cwd,
                          run.analysisTools != [], Some(p)).value;
    Aiida.RunQuanticsInputs(w, schedulerType);
    assert Aiida.Param(p, "rdgpop_nz", "2") == run.rdgpopNz;
    assert Aiida.Param(p, "rdgpop_dof", "1") == run.rdgpopDof;
  }
}
