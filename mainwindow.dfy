/**
 * The local window of `src/gui/main_window.py`: its workflow → tool map, the configuration it
 * collects from the form, the analysis parameters it passes on, and the create → run → analyse
 * sequence of a local start.
 */
module MainWindow {
  import opened Wrappers
  import opened Text
  import opened Clock
  import opened Json
  import opened Disk
  import opened Calculations
  import opened Panel
  import LocalRunner
  import Aiida

  /** `self.workflow_analysis_map`. */
  const WorkflowAnalysisMap: ToolMap := map[
    "MCTDH" := [("rdcheck etot", "Total energy check"),
                ("rdcheck spop", "Single particle population"),
                ("rdcheck natpop 0 0", "Natural potential analysis"),
                ("rdgpop", "Grid population analysis")],
    "vMCG" := [("rdcheck etot", "Total energy check"),
               ("rdcheck spop", "Single particle population")],
    "DD-vMCG" := [("rdcheck etot", "Total energy check"),
                  ("rdcheck spop", "Single particle population"),
                  ("ddtraj", "DD trajectory analysis")]]

  /** The window offers, for every workflow type, exactly the tools the AiiDA workchain runs. */
  lemma MapAgreesWithWorkChain(workflowType: string)
    ensures ToolsOf(WorkflowAnalysisMap, workflowType) == Aiida.AnalysisTools(workflowType)
  {
    var tools := ToolsOf(WorkflowAnalysisMap, workflowType);
    if workflowType == "MCTDH" {
      assert tools == ["rdcheck etot", "rdcheck spop", "rdcheck natpop 0 0", "rdgpop"];
    } else if workflowType == "vMCG" {
      assert tools == ["rdcheck etot", "rdcheck spop"];
    } else if workflowType == "DD-vMCG" {
      assert tools == ["rdcheck etot", "rdcheck spop", "ddtraj"];
    }
  }

  /**
   * Every offered tool is one the local runner has a command for (none is skipped), and none has
   * a dash, so its label reads back to it.
   */
  lemma MapToolsRunLocally(workflowType: string, tool: string)
    requires tool in ToolsOf(WorkflowAnalysisMap, workflowType)
    ensures LocalRunner.ToolCommand(tool).Some?
    ensures '-' !in tool
  {
    MapAgreesWithWorkChain(workflowType);
    var tools := Aiida.AnalysisTools(workflowType);
    assert exists i :: 0 <= i < |tools| && tools[i] == tool;
    OfferedTool(tool);
  }

  /** The five tool names any window offers. */
  lemma OfferedTool(tool: string)
    requires tool in ["rdcheck etot", "rdcheck spop", "rdcheck natpop 0 0", "rdgpop", "ddtraj"]
    ensures LocalRunner.ToolCommand(tool).Some?
    ensures '-' !in tool
  {
    if tool != "rdgpop" && tool != "ddtraj" {
      assert tool[..7] == "rdcheck";
    }
  }

  /** Reading the selection back from the list a type shows gives exactly the tools the user picked. */
  lemma ListedSelection(workflowType: string, flags: seq<bool>)
    requires workflowType in WorkflowAnalysisMap && |flags| == |WorkflowAnalysisMap[workflowType]|
    ensures Selected(Shown(Listing(WorkflowAnalysisMap, workflowType), flags))
         == Chosen(WorkflowAnalysisMap[workflowType], flags)
  {
    var entries := WorkflowAnalysisMap[workflowType];
    forall i | 0 <= i < |entries|
      ensures '-' !in entries[i].0
    {
      assert entries[i].0 == ToolsOf(WorkflowAnalysisMap, workflowType)[i];
      MapToolsRunLocally(workflowType, entries[i].0);
    }
    SelectionRecoversTools(entries, flags);
  }

  /** The dict `collect_config` returns. */
  datatype RunConfig = RunConfig(calculationName: string, workflowType: string, inpFile: string, opFile: string,
                                 dbFolder: Option<string>, quanticsExecutable: string,
                                 workingDirectory: Option<string>, analysisTools: seq<string>,
                                 rdgpopNz: string, rdgpopDof: string, showCmdline: bool)

  /** The configuration a form yields. */
  function Collected(form: Form): (c: RunConfig)
    ensures c.analysisTools == Selected(form.analysisItems)
    ensures c.dbFolder == NonEmpty(form.dbFolder) && c.workingDirectory == NonEmpty(form.workingDirectory)
    ensures c.rdgpopNz == OrDefault(form.rdgpopNz, "2") && c.rdgpopDof == OrDefault(form.rdgpopDof, "1")
  {
    RunConfig(form.calculationName, form.workflowType, form.inpFile, form.opFile, NonEmpty(form.dbFolder),
              form.quanticsExecutable, NonEmpty(form.workingDirectory), Selected(form.analysisItems),
              OrDefault(form.rdgpopNz, "2"), OrDefault(form.rdgpopDof, "1"), form.showCmdline)
  }

  /** `collect_config`. */
  method CollectConfig(form: Form) returns (config: RunConfig)
    ensures config == Collected(form)
  {
    var tools := SelectedTools(form.analysisItems);
    config := RunConfig(form.calculationName, form.workflowType, form.inpFile, form.opFile, NonEmpty(form.dbFolder),
                        form.quanticsExecutable, NonEmpty(form.workingDirectory), tools,
                        OrDefault(form.rdgpopNz, "2"), OrDefault(form.rdgpopDof, "1"), form.showCmdline);
  }

  /** The collected `rdgpop` parameters are never blank, and an empty folder field gives no folder. */
  lemma CollectedDefaults(form: Form)
    ensures var c := Collected(form);
            && c.rdgpopNz != "" && c.rdgpopDof != "" && Strip(c.rdgpopNz) == c.rdgpopNz && Strip(c.rdgpopDof) == c.rdgpopDof
            && c.dbFolder != Some("") && c.workingDirectory != Some("")
  {
    OrDefaultClean(form.rdgpopNz, "2");
    OrDefaultClean(form.rdgpopDof, "1");
  }

  /** The `analysis_params` dict of `start_local_calculation`. */
  function AnalysisParams(config: RunConfig): (p: map<string, Value>)
    ensures p.Keys == {"rdgpop_nz", "rdgpop_dof", "show_cmdline"}
  {
    map["rdgpop_nz" := Str(config.rdgpopNz), "rdgpop_dof" := Str(config.rdgpopDof),
        "show_cmdline" := Bool(config.showCmdline)]
  }

  /** The string-valued parameters, the ones the runner formats into `rdgpop`'s stdin. */
  function TextParams(p: map<string, Value>): (t: map<string, string>)
    ensures forall k :: k in t <==> k in p && p[k].Str?
    ensures forall k :: k in t ==> t[k] == p[k].s
  {
    map k | k in p && p[k].Str? :: p[k].s
  }

  /** A local start feeds `rdgpop` the form's stripped values, or 2 and 1 for a blank field. */
  lemma RdgpopFedFromForm(form: Form)
    ensures LocalRunner.ParamsStdin(TextParams(AnalysisParams(Collected(form))))
         == OrDefault(form.rdgpopNz, "2") + "\n" + OrDefault(form.rdgpopDof, "1") + "\n"
  {
    var t := TextParams(AnalysisParams(Collected(form)));
    assert "rdgpop_nz" in t && t["rdgpop_nz"] == OrDefault(form.rdgpopNz, "2");
    assert "rdgpop_dof" in t && t["rdgpop_dof"] == OrDefault(form.rdgpopDof, "1");
  }

  /** How a local start ends. */
  datatype LocalOutcome =
    | CreateFailed(message: string)
    | RunFailed(calculation: Calculation)
      /** `analysis` is None when no tool was selected, else what `run_analysis_with_params` returned or raised. */
    | Succeeded(calculation: Calculation, analysis: Option<Result<map<string, string>>>)

  /**
   * How a start goes on from a created calculation: it fails exactly when the run `run` did not
   * succeed, and otherwise analyses exactly when some tool was selected; `snapshot` and `fs` are
   * the calculation's record and the disk at the end.
   */
  predicate AfterCreation(outcome: LocalOutcome, run: LocalRunner.RunResult, snapshot: Record, fs: FileSystem,
                          config: RunConfig, exec: (LocalRunner.Invocation, FileSystem) -> LocalRunner.ToolOutcome)
  {
    && !outcome.CreateFailed?
    && (outcome.RunFailed? <==> !run.ok)
    && (outcome.Succeeded? ==> (outcome.analysis.Some? <==> config.analysisTools != []))
    && (outcome.RunFailed? || (outcome.Succeeded? && outcome.analysis.None?) ==> snapshot == run.rec && fs == run.fs)
    && (outcome.Succeeded? && outcome.analysis.Some? ==>
          LocalRunner.AnalysisResult(outcome.analysis.value, snapshot, fs)
          == LocalRunner.Analysis(run.fs, run.rec, config.analysisTools,
                                  LocalRunner.ParamsStdin(TextParams(AnalysisParams(config))),
                                  "analysis_with_params", exec))
  }

  /**
   * `start_local_calculation`: the calculation is created, then run; only a run that succeeded
   * with some tool selected goes on to `run_analysis_with_params`.  A failed creation runs nothing.
   */
  method StartLocalCalculation(runner: LocalRunner.Runner, config: RunConfig, cwd: string, now: DateTime,
                               start: DateTime, end: DateTime,
                               quantics: (LocalRunner.Invocation, FileSystem) -> LocalRunner.ProcOutcome,
                               exec: (LocalRunner.Invocation, FileSystem) -> LocalRunner.ToolOutcome)
    returns (outcome: LocalOutcome)
    requires runner.Valid()
    modifies runner
    ensures runner.Valid()
    ensures var wd := LocalRunner.WorkingDirectory(runner.runsDirectory, config.calculationName, now);
            outcome.CreateFailed? <==> config.calculationName in old(runner.calculations)
                                        || MakeDir(old(runner.fs), wd, true).Err?
    ensures outcome.CreateFailed? ==> runner.calculations == old(runner.calculations) && runner.fs == old(runner.fs)
    ensures !outcome.CreateFailed? ==>
              var rec := LocalRunner.NewRecord(runner.runsDirectory, config.calculationName, config.inpFile,
                                               config.opFile, config.workflowType, config.dbFolder, cwd, now);
              var wd := LocalRunner.WorkingDirectory(runner.runsDirectory, config.calculationName, now);
              var run := LocalRunner.Execution(MakeDir(old(runner.fs), wd, true).value, rec,
                                               config.quanticsExecutable, start, end, quantics);
              && fresh(outcome.calculation)
              && runner.calculations == old(runner.calculations)[config.calculationName := outcome.calculation]
              && AfterCreation(outcome, run, outcome.calculation.Snapshot(), runner.fs, config, exec)
  {
    var created := runner.CreateCalculation(config.calculationName, config.inpFile, config.opFile,
                                            config.workflowType, config.dbFolder, cwd, now);
    if created.Err? {
      return CreateFailed(created.error);
    }
    outcome := RunThenAnalyse(runner, created.value, config, start, end, quantics, exec);
  }

  /** The part of `start_local_calculation` after a successful creation. */
  method RunThenAnalyse(runner: LocalRunner.Runner, calculation: Calculation, config: RunConfig,
                        start: DateTime, end: DateTime,
                        quantics: (LocalRunner.Invocation, FileSystem) -> LocalRunner.ProcOutcome,
                        exec: (LocalRunner.Invocation, FileSystem) -> LocalRunner.ToolOutcome)
    returns (outcome: LocalOutcome)
    requires runner.Valid()
    modifies calculation, runner`fs
    ensures runner.Valid() && runner.calculations == old(runner.calculations)
    ensures AfterCreation(outcome, LocalRunner.Execution(old(runner.fs), old(calculation.Snapshot()),
                                                         config.quanticsExecutable, start, end, quantics),
                          calculation.Snapshot(), runner.fs, config, exec)
    ensures outcome.calculation == calculation
  {
    var success := runner.RunCalculation(calculation, config.quanticsExecutable, start, end, quantics);
    if !success {
      return RunFailed(calculation);
    }
    if config.analysisTools == [] {
      return Succeeded(calculation, None);
    }
    var params := TextParams(AnalysisParams(config));
    var results := runner.RunAnalysisWithParams(calculation, config.analysisTools, params, exec);
    return Succeeded(calculation, Some(results));
  }
}
