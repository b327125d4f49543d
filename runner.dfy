/**
 * `LocalQuanticsRunner` (src/runners/local_runner.py): the registry of calculations, input
 * preparation, the QUANTICS run and its status machine, output discovery and the analysis
 * batch.  The QUANTICS process and the analysis tools are oracles passed in by the caller;
 * the clock readings are parameters.
 */
module LocalRunner {
  import opened Wrappers
  import opened Text
  import opened Clock
  import opened Json
  import opened Disk
  import opened Calculations

  /** One program start: argument vector, working directory and standard input. */
  datatype Invocation = Invocation(argv: seq<string>, cwd: string, stdin: Option<string>)

  /** The QUANTICS process: starting it raises, or it exits with a code, leaving the filesystem changed. */
  datatype ProcOutcome = Raised(message: string) | Exited(code: int, after: FileSystem)

  /**
   * An analysis tool run with captured output: starting it raises, or it exits with a code and its
   * two streams, leaving the filesystem changed.
   */
  datatype ToolOutcome =
    | ToolRaised(message: string)
    | ToolExited(code: int, stdout: string, stderr: string, after: FileSystem)

  // ---------------------------------------------------------------- directive scanning

  /** The lines `for line in f` yields, without their terminators. */
  function Lines(text: string): seq<string> {
    Split(text, "\n")
  }

  /** The stripped line starts with `key` and holds an `=`. */
  predicate Matches(line: string, key: string) {
    var t := Strip(line);
    StartsWith(t, key) && Contains(t, "=")
  }

  /** `line.split("=")[1].strip()` on the stripped line. */
  function ValueOf(line: string): string
    requires Contains(Strip(line), "=")
  {
    Strip(Split(Strip(line), "=")[1])
  }

  /** The index of the first line matching `key`. */
  function FirstMatch(lines: seq<string>, key: string): (r: Option<nat>)
    ensures r.Some? ==> r.value < |lines| && Matches(lines[r.value], key)
    ensures r.Some? ==> forall j :: 0 <= j < r.value ==> !Matches(lines[j], key)
    ensures r.None? ==> forall j :: 0 <= j < |lines| ==> !Matches(lines[j], key)
  {
    if lines == [] then None
    else if Matches(lines[0], key) then Some(0)
    else
      match FirstMatch(lines[1..], key)
      case None => None
      case Some(i) => Some(i + 1)
  }

  /** A matching line with no match before it is the first match. */
  lemma FirstMatchAt(lines: seq<string>, key: string, i: nat)
    requires i < |lines| && Matches(lines[i], key)
    requires forall j :: 0 <= j < i ==> !Matches(lines[j], key)
    ensures FirstMatch(lines, key) == Some(i)
  {
  }

  /** A first matching line appended after lines that do not match decides the value. */
  lemma DirectiveAppend(lines: seq<string>, line: string, key: string)
    requires forall j :: 0 <= j < |lines| ==> !Matches(lines[j], key)
    requires Matches(line, key)
    ensures Directive(lines + [line], key) == Some(ValueOf(line))
  {
    var all := lines + [line];
    assert all[|lines|] == line;
    assert forall j :: 0 <= j < |lines| ==> all[j] == lines[j];
    FirstMatchAt(all, key, |lines|);
  }

  /** The value a scanner returns for `key` over the given lines. */
  function Directive(lines: seq<string>, key: string): Option<string> {
    match FirstMatch(lines, key)
    case None => None
    case Some(i) => Some(ValueOf(lines[i]))
  }

  /** `_get_output_name_from_inp` / `_get_opname_from_inp`: an unreadable file gives `None`. */
  function FileDirective(fs: FileSystem, path: string, key: string): Option<string> {
    match ReadText(fs, path)
    case None => None
    case Some(text) => Directive(Lines(text), key)
  }

  /** The scanned value is the trimmed text between the first and the second `=` of the first matching line. */
  lemma DirectiveBetween(lines: seq<string>, key: string)
    requires Directive(lines, key).Some?
    ensures var i := FirstMatch(lines, key).value;
            Directive(lines, key).value == Strip(Before(After(Strip(lines[i]), "="), "="))
  {
    var i := FirstMatch(lines, key).value;
    SplitSecond(Strip(lines[i]), "=");
  }

  /** The match is on a prefix only: any line starting `name` with an `=` in it, as in `namelist = x`, counts. */
  lemma {:induction false} NamePrefix(lines: seq<string>, rest: string, value: string)
    requires forall j :: 0 <= j < |lines| ==> !Matches(lines[j], "name")
    requires !Contains("name" + rest, "=") && !Contains(value, "=")
    requires value == Strip(value)
    ensures var line := "name" + rest + "=" + value;
            Strip(line) == line ==> Directive(lines + [line], "name") == Some(value)
  {
    var line := "name" + rest + "=" + value;
    if Strip(line) == line {
      FirstEquals(line, "name" + rest, value);
      assert StartsWith(line, "name") by {
        assert line[..4] == "name";
      }
      assert Matches(line, "name");
      DirectiveAppend(lines, line, "name");
    }
  }

  /** In `head=value` with no `=` in `head` or `value`, the second split part is `value`. */
  lemma FirstEquals(line: string, head: string, value: string)
    requires line == head + "=" + value && !Contains(head, "=") && !Contains(value, "=")
    requires Strip(value) == value
    ensures Contains(line, "=") && Strip(Split(line, "=")[1]) == value
  {
    assert OccursAt(line, "=", |head|) by {
      assert line[|head|..|head| + 1] == "=";
    }
    ContainsAt(line, "=", |head|);
    var i := IndexOf(line, "=").value;
    if i < |head| {
      assert line[i..i + 1] == head[i..i + 1];
      ContainsAt(head, "=", i);
    }
    assert i == |head|;
    assert line[i + 1..] == value;
    SplitSecond(line, "=");
    assert Before(value, "=") == value;
  }

  // ---------------------------------------------------------------- preparation

  /** The copied operator's name: `"{opname}.op"`, or `operator.op` when no non-empty opname was found. */
  function OpFileName(opname: Option<string>): (f: string)
    ensures EndsWith(f, ".op")
    ensures opname.Some? && opname.value != "" ==> f == opname.value + ".op"
    ensures !(opname.Some? && opname.value != "") ==> f == "operator.op"
  {
    if opname.Some? && opname.value != "" then opname.value + ".op" else "operator.op"
  }

  /** Whether a step succeeded, and the filesystem it leaves. */
  datatype Outcome = Outcome(ok: bool, fs: FileSystem)

  /**
   * `prepare_calculation`: copy the input as `input.inp`, the operator under the name the input's
   * `opname` line gives, and for DD-vMCG the database folder as `db_data`.  Copies made before a
   * failing step stay.
   */
  function Preparation(fs: FileSystem, r: Record): Outcome {
    if r.inpFile.None? || r.workingDirectory.None? then Outcome(false, fs)
    else
      var wd := r.workingDirectory.value;
      match CopyFile(fs, r.inpFile.value, Join(wd, "input.inp"))
      case Err(_) => Outcome(false, fs)
      case Ok(fs1) =>
        if r.opFile.None? then Outcome(false, fs1)
        else
          var target := Join(wd, OpFileName(FileDirective(fs1, r.inpFile.value, "opname")));
          match CopyFile(fs1, r.opFile.value, target)
          case Err(_) => Outcome(false, fs1)
          case Ok(fs2) =>
            if r.workflowType == "DD-vMCG" && r.dbFolder.Some? then
              match CopyTree(fs2, r.dbFolder.value, Join(wd, "db_data"))
              case Err(_) => Outcome(false, fs2)
              case Ok(fs3) => Outcome(true, fs3)
            else Outcome(true, fs2)
  }

  /** After a successful preparation the input, the operator and (for DD-vMCG) the database are in place. */
  lemma PreparationPlaces(fs: FileSystem, r: Record)
    requires Preparation(fs, r).ok
    ensures r.inpFile.Some? && r.opFile.Some? && r.workingDirectory.Some?
    ensures var wd, after := r.workingDirectory.value, Preparation(fs, r).fs;
            var opname := FileDirective(CopyFile(fs, r.inpFile.value, Join(wd, "input.inp")).value,
                                        r.inpFile.value, "opname");
            && Exists(after, Join(wd, "input.inp"))
            && Exists(after, Join(wd, OpFileName(opname)))
            && (r.workflowType == "DD-vMCG" && r.dbFolder.Some? ==> Join(wd, "db_data") in after.dirs)
            && (!(r.workflowType == "DD-vMCG" && r.dbFolder.Some?) ==> after.dirs == fs.dirs)
  {
  }

  /** Preparation only adds: every file and directory that existed before is still there. */
  lemma PreparationMonotone(fs: FileSystem, r: Record)
    ensures var after := Preparation(fs, r).fs;
            fs.files.Keys <= after.files.Keys && fs.dirs <= after.dirs
  {
    if r.inpFile.Some? && r.workingDirectory.Some? {
      var wd := r.workingDirectory.value;
      var c1 := CopyFile(fs, r.inpFile.value, Join(wd, "input.inp"));
      if c1.Ok? && r.opFile.Some? {
        var fs1 := c1.value;
        var target := Join(wd, OpFileName(FileDirective(fs1, r.inpFile.value, "opname")));
        var c2 := CopyFile(fs1, r.opFile.value, target);
        if c2.Ok? {
          StageKeeps(fs, fs1, c2.value);
          if r.workflowType == "DD-vMCG" && r.dbFolder.Some? {
            var c3 := CopyTree(c2.value, r.dbFolder.value, Join(wd, "db_data"));
            if c3.Ok? {
              StageKeeps(fs, c2.value, c3.value);
            }
          }
        }
      }
    }
  }

  lemma StageKeeps(a: FileSystem, b: FileSystem, c: FileSystem)
    requires a.files.Keys <= b.files.Keys && a.dirs <= b.dirs
    requires b.files.Keys <= c.files.Keys && b.dirs <= c.dirs
    ensures a.files.Keys <= c.files.Keys && a.dirs <= c.dirs
  {
  }

  // ---------------------------------------------------------------- output discovery

  const ExpectedFiles: seq<string> := ["log", "output", "auto", "psi"]

  /** The names in `names` present in `dir`, in their order. */
  function Present(fs: FileSystem, dir: string, names: seq<string>): (found: seq<string>)
    ensures |found| <= |names|
  {
    if names == [] then []
    else
      var last := names[|names| - 1];
      Present(fs, dir, names[..|names| - 1]) + (if Exists(fs, Join(dir, last)) then [last] else [])
  }

  /** `a` is `b` with some elements left out. */
  predicate Subsequence(a: seq<string>, b: seq<string>)
    decreases |b|
  {
    if a == [] then true
    else if b == [] then false
    else if a[|a| - 1] == b[|b| - 1] then Subsequence(a[..|a| - 1], b[..|b| - 1])
    else Subsequence(a, b[..|b| - 1])
  }

  /** Exactly the names whose file exists are listed, in the order given. */
  lemma {:induction false} PresentExactly(fs: FileSystem, dir: string, names: seq<string>)
    ensures forall x :: x in Present(fs, dir, names) <==> x in names && Exists(fs, Join(dir, x))
    ensures Subsequence(Present(fs, dir, names), names)
  {
    if names != [] {
      var init, last := names[..|names| - 1], names[|names| - 1];
      PresentExactly(fs, dir, init);
      assert names == init + [last];
      var found := Present(fs, dir, names);
      if Exists(fs, Join(dir, last)) {
        assert found[..|found| - 1] == Present(fs, dir, init);
      } else {
        assert found == Present(fs, dir, init);
        SubsequenceExtend(found, init, last);
      }
    }
  }

  lemma {:induction false} SubsequenceExtend(a: seq<string>, b: seq<string>, x: string)
    requires Subsequence(a, b)
    ensures Subsequence(a, b + [x])
    decreases |b|, 1
  {
    var bx := b + [x];
    assert bx[..|bx| - 1] == b;
    if a != [] && a[|a| - 1] == x {
      SubsequenceDrop(a, b);
    }
  }

  lemma {:induction false} SubsequenceDrop(a: seq<string>, b: seq<string>)
    requires a != [] && Subsequence(a, b)
    ensures Subsequence(a[..|a| - 1], b)
    decreases |b|, 0
  {
    var init := a[..|a| - 1];
    if b != [] {
      var binit := b[..|b| - 1];
      if a[|a| - 1] == b[|b| - 1] {
        SubsequenceExtend(init, binit, b[|b| - 1]);
        assert binit + [b[|b| - 1]] == b;
      } else {
        SubsequenceDrop(a, binit);
        SubsequenceExtend(init, binit, b[|b| - 1]);
        assert binit + [b[|b| - 1]] == b;
      }
    }
  }

  /** The output name: the input's `name` value, or the calculation's name when that is missing or empty. */
  function OutputName(fs: FileSystem, r: Record): string
    requires r.workingDirectory.Some?
  {
    match FileDirective(fs, Join(r.workingDirectory.value, "input.inp"), "name")
    case Some(n) => if n != "" then n else r.name
    case None => r.name
  }

  /** `_check_output_files`: when the output directory exists, record it, the output name and the artefacts found. */
  function OutputDiscovery(fs: FileSystem, r: Record): (r': Record)
    requires r.workingDirectory.Some?
    ensures r'.(results := r.results) == r
  {
    var name := OutputName(fs, r);
    var dir := Join(r.workingDirectory.value, name);
    if Exists(fs, dir) then
      r.(results := r.results["output_directory" := Str(dir)]["output_name" := Str(name)]
                              ["output_files" := StrList(Present(fs, dir, ExpectedFiles))])
    else r
  }

  /** The three keys are written exactly when the output directory exists, and nothing else changes. */
  lemma OutputDiscoveryResults(fs: FileSystem, r: Record)
    requires r.workingDirectory.Some?
    ensures var dir := Join(r.workingDirectory.value, OutputName(fs, r));
            var after := OutputDiscovery(fs, r).results;
            && (!Exists(fs, dir) ==> after == r.results)
            && (Exists(fs, dir) ==>
                  && after.Keys == r.results.Keys + {"output_directory", "output_name", "output_files"}
                  && after["output_directory"] == Str(dir)
                  && after["output_name"] == Str(OutputName(fs, r))
                  && after["output_files"] == StrList(Present(fs, dir, ExpectedFiles))
                  && forall k :: k in r.results && k !in {"output_directory", "output_name", "output_files"}
                                 ==> after[k] == r.results[k])
  {
  }

  // ---------------------------------------------------------------- running

  datatype RunResult = RunResult(ok: bool, rec: Record, fs: FileSystem)

  /**
   * `run_calculation`: refuse a running calculation; prepare; mark it running at `start`; run
   * `[exe, "-mnd", "input.inp"]` in the working directory with its output in `quantics.log`;
   * mark it completed (then discover outputs) or failed at `end`.
   */
  function Execution(fs: FileSystem, r: Record, exe: string, start: DateTime, end: DateTime,
                     quantics: (Invocation, FileSystem) -> ProcOutcome): RunResult
  {
    if r.status == RUNNING then RunResult(false, r, fs)
    else
      var p := Preparation(fs, r);
      if !p.ok then RunResult(false, r, p.fs)
      else
        var wd := r.workingDirectory.value;
        var running := r.(status := RUNNING, startTime := Some(start));
        match WriteText(p.fs, Join(wd, "quantics.log"), "")
        case Err(_) => RunResult(false, running.(status := FAILED, endTime := Some(end)), p.fs)
        case Ok(fs1) =>
          match quantics(Command(exe, wd), fs1)
          case Raised(_) => RunResult(false, running.(status := FAILED, endTime := Some(end)), fs1)
          case Exited(code, fs2) =>
            var done := running.(endTime := Some(end));
            if code == 0 then RunResult(true, OutputDiscovery(fs2, done.(status := COMPLETED)), fs2)
            else RunResult(false, done.(status := FAILED), fs2)
  }

  /** The QUANTICS command line. */
  function Command(exe: string, wd: string): Invocation {
    Invocation([exe, "-mnd", "input.inp"], wd, None)
  }

  /** A running calculation is refused with nothing changed. */
  lemma RunRefusesRunning(fs: FileSystem, r: Record, exe: string, start: DateTime, end: DateTime,
                          quantics: (Invocation, FileSystem) -> ProcOutcome)
    requires r.status == RUNNING
    ensures Execution(fs, r, exe, start, end, quantics) == RunResult(false, r, fs)
  {
  }

  /** A failed preparation returns false and leaves the record (status and times included) as it was. */
  lemma RunPrepareFails(fs: FileSystem, r: Record, exe: string, start: DateTime, end: DateTime,
                        quantics: (Invocation, FileSystem) -> ProcOutcome)
    requires r.status != RUNNING && !Preparation(fs, r).ok
    ensures var x := Execution(fs, r, exe, start, end, quantics);
            !x.ok && x.rec == r && x.fs == Preparation(fs, r).fs
  {
  }

  /**
   * Past the guards the run ends completed or failed with both instants set, it is completed exactly
   * when the log could be opened and QUANTICS exited with code 0, the result is `status == "completed"`,
   * and only the status, the instants and (on completion) the results change.
   */
  lemma RunOutcome(fs: FileSystem, r: Record, exe: string, start: DateTime, end: DateTime,
                   quantics: (Invocation, FileSystem) -> ProcOutcome)
    requires r.status != RUNNING && Preparation(fs, r).ok
    ensures r.workingDirectory.Some?
    ensures var x := Execution(fs, r, exe, start, end, quantics);
            var wd := r.workingDirectory.value;
            var log := WriteText(Preparation(fs, r).fs, Join(wd, "quantics.log"), "");
            && x.rec.startTime == Some(start) && x.rec.endTime == Some(end)
            && (x.rec.status == COMPLETED || x.rec.status == FAILED)
            && x.ok == (x.rec.status == COMPLETED)
            && (x.rec.status == COMPLETED <==>
                  log.Ok? && quantics(Command(exe, wd), log.value).Exited?
                  && quantics(Command(exe, wd), log.value).code == 0)
            && x.rec.(status := r.status, startTime := r.startTime, endTime := r.endTime, results := r.results) == r
            && (x.rec.status == FAILED ==> x.rec.results == r.results)
  {
    PreparationPlaces(fs, r);
  }

  // ---------------------------------------------------------------- analysis

  /** How a tool name becomes a command; other names are skipped. */
  function ToolCommand(tool: string): (cmd: Option<seq<string>>)
    ensures cmd.Some? <==> StartsWith(tool, "rdcheck") || tool == "rdgpop" || tool == "ddtraj"
  {
    if StartsWith(tool, "rdcheck") then Some(Tokens(tool))
    else if tool == "rdgpop" then Some(["rdgpop", "-w"])
    else if tool == "ddtraj" then Some(["ddtraj"])
    else None
  }

  /** The file a successful tool's output is saved in. */
  function OutputFileName(tool: string): string {
    ReplaceAll(tool, " ", "_") + "_output.txt"
  }

  lemma OutputFileNameNoSpace(tool: string)
    ensures ' ' !in ReplaceAll(tool, " ", "_")
  {
    ReplaceCharRemoves(tool, ' ', '_');
  }

  /** The text a tool run records, and the filesystem after it. */
  datatype ToolRun = ToolRun(text: string, fs: FileSystem)

  /** `subprocess.run(cmd, cwd=dir, …)` for one tool; only `rdgpop` is given standard input. */
  function ToolInvocation(tool: string, cmd: seq<string>, dir: string, stdin: string): Invocation {
    Invocation(cmd, dir, if tool == "rdgpop" then Some(stdin) else None)
  }

  /**
   * One tool, started on the disk `fs`: exit 0 records stdout and saves it, a non-zero exit records
   * `Error: <stderr>`, and a raise (the start, or the save) records `Exception: <message>`.
   */
  function RunTool(tool: string, cmd: seq<string>, dir: string, stdin: string, fs: FileSystem,
                   exec: (Invocation, FileSystem) -> ToolOutcome): (t: ToolRun)
    ensures var o := exec(ToolInvocation(tool, cmd, dir, stdin), fs);
            o.ToolRaised? ==> t == ToolRun("Exception: " + o.message, fs)
    ensures var o := exec(ToolInvocation(tool, cmd, dir, stdin), fs);
            o.ToolExited? && o.code != 0 ==> t == ToolRun("Error: " + o.stderr, o.after)
    ensures var o := exec(ToolInvocation(tool, cmd, dir, stdin), fs);
            var p := Join(dir, OutputFileName(tool));
            o.ToolExited? && o.code == 0 ==>
              if Parent(p) in o.after.dirs && p !in o.after.dirs
              then t == ToolRun(o.stdout, o.after.(files := o.after.files[p := o.stdout]))
              else t == ToolRun("Exception: " + WriteText(o.after, p, o.stdout).error, o.after)
    ensures var o := exec(ToolInvocation(tool, cmd, dir, stdin), fs);
            o.ToolExited? ==>
              && t.fs.dirs == o.after.dirs
              && (t.fs == o.after || (o.code == 0 && t.text == o.stdout
                                      && t.fs.files == o.after.files[Join(dir, OutputFileName(tool)) := o.stdout]))
  {
    match exec(ToolInvocation(tool, cmd, dir, stdin), fs)
    case ToolRaised(m) => ToolRun("Exception: " + m, fs)
    case ToolExited(code, out, err, after) =>
      if code != 0 then ToolRun("Error: " + err, after)
      else
        match WriteText(after, Join(dir, OutputFileName(tool)), out)
        case Ok(fs') => ToolRun(out, fs')
        case Err(m) => ToolRun("Exception: " + m, after)
  }

  datatype BatchResult = BatchResult(results: map<string, string>, fs: FileSystem)

  /** The analysis loop over `tools` in `dir`: each tool starts on the disk the previous ones left. */
  function Batch(tools: seq<string>, dir: string, stdin: string, fs: FileSystem,
                 exec: (Invocation, FileSystem) -> ToolOutcome): BatchResult
  {
    if tools == [] then BatchResult(map[], fs)
    else
      var before := Batch(tools[..|tools| - 1], dir, stdin, fs, exec);
      var tool := tools[|tools| - 1];
      match ToolCommand(tool)
      case None => before
      case Some(cmd) =>
        var t := RunTool(tool, cmd, dir, stdin, before.fs, exec);
        BatchResult(before.results[tool := t.text], t.fs)
  }

  /** The disk the `k`-th tool of the batch starts on. */
  function DiskBefore(tools: seq<string>, k: nat, dir: string, stdin: string, fs: FileSystem,
                      exec: (Invocation, FileSystem) -> ToolOutcome): FileSystem
    requires k <= |tools|
  {
    Batch(tools[..k], dir, stdin, fs, exec).fs
  }

  /**
   * The batch records exactly the listed tools it knows.  The value of a tool is the outcome of its
   * last occurrence in the list, run on the disk the tools before that occurrence left.
   */
  lemma {:induction false} BatchResults(tools: seq<string>, dir: string, stdin: string, fs: FileSystem,
                                        exec: (Invocation, FileSystem) -> ToolOutcome)
    ensures var b := Batch(tools, dir, stdin, fs, exec);
            && b.results.Keys == set t | t in tools && (StartsWith(t, "rdcheck") || t == "rdgpop" || t == "ddtraj")
            && forall t :: t in b.results ==>
                 ToolCommand(t).Some? &&
                 exists k :: 0 <= k < |tools| && tools[k] == t && (forall j :: k < j < |tools| ==> tools[j] != t)
                   && b.results[t] == RunTool(t, ToolCommand(t).value, dir, stdin,
                                              DiskBefore(tools, k, dir, stdin, fs, exec), exec).text
  {
    BatchKeys(tools, dir, stdin, fs, exec);
    BatchValues(tools, dir, stdin, fs, exec);
  }

  lemma {:induction false} BatchKeys(tools: seq<string>, dir: string, stdin: string, fs: FileSystem,
                                     exec: (Invocation, FileSystem) -> ToolOutcome)
    ensures Batch(tools, dir, stdin, fs, exec).results.Keys
         == set t | t in tools && (StartsWith(t, "rdcheck") || t == "rdgpop" || t == "ddtraj")
  {
    if tools != [] {
      var init, tool := tools[..|tools| - 1], tools[|tools| - 1];
      BatchKeys(init, dir, stdin, fs, exec);
      assert tools == init + [tool];
    }
  }

  lemma BatchValues(tools: seq<string>, dir: string, stdin: string, fs: FileSystem,
                    exec: (Invocation, FileSystem) -> ToolOutcome)
    ensures var b := Batch(tools, dir, stdin, fs, exec);
            forall t :: t in b.results ==>
              ToolCommand(t).Some? &&
              exists k :: 0 <= k < |tools| && tools[k] == t && (forall j :: k < j < |tools| ==> tools[j] != t)
                && b.results[t] == RunTool(t, ToolCommand(t).value, dir, stdin,
                                           DiskBefore(tools, k, dir, stdin, fs, exec), exec).text
  {
    forall t | t in Batch(tools, dir, stdin, fs, exec).results {
      BatchValue(tools, dir, stdin, fs, exec, t);
    }
  }

  /** The value recorded for one tool name is the run of its last occurrence. */
  lemma {:induction false} BatchValue(tools: seq<string>, dir: string, stdin: string, fs: FileSystem,
                                      exec: (Invocation, FileSystem) -> ToolOutcome, t: string)
    requires t in Batch(tools, dir, stdin, fs, exec).results
    ensures ToolCommand(t).Some?
    ensures exists k :: 0 <= k < |tools| && tools[k] == t && (forall j :: k < j < |tools| ==> tools[j] != t)
              && Batch(tools, dir, stdin, fs, exec).results[t]
                 == RunTool(t, ToolCommand(t).value, dir, stdin, DiskBefore(tools, k, dir, stdin, fs, exec), exec).text
  {
    var n := |tools| - 1;
    var init, tool := tools[..n], tools[n];
    var before := Batch(init, dir, stdin, fs, exec);
    if t == tool && ToolCommand(tool).Some? {
      assert DiskBefore(tools, n, dir, stdin, fs, exec) == before.fs;
    } else {
      BatchValue(init, dir, stdin, fs, exec, t);
      var k :| 0 <= k < |init| && init[k] == t && (forall j :: k < j < |init| ==> init[j] != t)
               && before.results[t] == RunTool(t, ToolCommand(t).value, dir, stdin,
                                               DiskBefore(init, k, dir, stdin, fs, exec), exec).text;
      LastOccurrenceExtends(tools, init, k, t, dir, stdin, fs, exec);
    }
  }

  /** An occurrence that is last in all but the final, different entry stays last, on the same disk. */
  lemma LastOccurrenceExtends(tools: seq<string>, init: seq<string>, k: nat, t: string, dir: string, stdin: string,
                              fs: FileSystem, exec: (Invocation, FileSystem) -> ToolOutcome)
    requires 0 < |tools| && init == tools[..|tools| - 1] && k < |init| && tools[|tools| - 1] != t
    requires forall j :: k < j < |init| ==> init[j] != t
    ensures forall j :: k < j < |tools| ==> tools[j] != t
    ensures DiskBefore(tools, k, dir, stdin, fs, exec) == DiskBefore(init, k, dir, stdin, fs, exec)
  {
    assert tools[..k] == init[..k];
    forall j | k < j < |tools| ensures tools[j] != t {
      if j < |tools| - 1 { assert tools[j] == init[j]; }
    }
  }

  /** Whether the tool run itself (not the save of its output) left file `p` new or changed. */
  predicate ToolChanged(tool: string, dir: string, stdin: string, fs: FileSystem,
                        exec: (Invocation, FileSystem) -> ToolOutcome, p: string)
  {
    && ToolCommand(tool).Some?
    && var o := exec(ToolInvocation(tool, ToolCommand(tool).value, dir, stdin), fs);
    && o.ToolExited? && p in o.after.files && (p !in fs.files || o.after.files[p] != fs.files[p])
  }

  /** A file one tool step leaves new or changed is its output file, or the tool run itself wrote it. */
  lemma ToolWrites(tool: string, cmd: seq<string>, dir: string, stdin: string, fs: FileSystem,
                   exec: (Invocation, FileSystem) -> ToolOutcome, p: string)
    requires ToolCommand(tool) == Some(cmd)
    requires var after := RunTool(tool, cmd, dir, stdin, fs, exec).fs;
             p in after.files && (p !in fs.files || after.files[p] != fs.files[p])
    ensures p == Join(dir, OutputFileName(tool)) || ToolChanged(tool, dir, stdin, fs, exec, p)
  {
  }

  /** File `p` is a listed tool's output file, or one of the batch's tool runs wrote it. */
  predicate WrittenBy(tools: seq<string>, dir: string, stdin: string, fs: FileSystem,
                      exec: (Invocation, FileSystem) -> ToolOutcome, p: string)
  {
    || (exists k :: 0 <= k < |tools| && p == Join(dir, OutputFileName(tools[k])))
    || (exists k :: 0 <= k < |tools| && ToolChanged(tools[k], dir, stdin,
                                                     DiskBefore(tools, k, dir, stdin, fs, exec), exec, p))
  }

  /**
   * Every file the batch leaves new or changed is the output file of a listed tool, or was written
   * by one of the tool runs themselves.
   */
  lemma {:induction false} BatchWrites(tools: seq<string>, dir: string, stdin: string, fs: FileSystem,
                                       exec: (Invocation, FileSystem) -> ToolOutcome, p: string)
    requires var after := Batch(tools, dir, stdin, fs, exec).fs;
             p in after.files && (p !in fs.files || after.files[p] != fs.files[p])
    ensures WrittenBy(tools, dir, stdin, fs, exec, p)
  {
    var n := |tools| - 1;
    var init := tools[..n];
    var before := Batch(init, dir, stdin, fs, exec).fs;
    var after := Batch(tools, dir, stdin, fs, exec).fs;
    if p in before.files && before.files[p] == after.files[p] {
      BatchWrites(init, dir, stdin, fs, exec, p);
      WrittenByExtends(tools, init, dir, stdin, fs, exec, p);
    } else {
      LastStepWrites(tools, dir, stdin, fs, exec, p);
    }
  }

  /** A file the last tool step leaves new or changed is that tool's output file, or its run wrote it. */
  lemma LastStepWrites(tools: seq<string>, dir: string, stdin: string, fs: FileSystem,
                       exec: (Invocation, FileSystem) -> ToolOutcome, p: string)
    requires tools != []
    requires var before := Batch(tools[..|tools| - 1], dir, stdin, fs, exec).fs;
             var after := Batch(tools, dir, stdin, fs, exec).fs;
             p in after.files && !(p in before.files && before.files[p] == after.files[p])
    ensures WrittenBy(tools, dir, stdin, fs, exec, p)
  {
    var n := |tools| - 1;
    var tool := tools[n];
    var before := Batch(tools[..n], dir, stdin, fs, exec).fs;
    assert DiskBefore(tools, n, dir, stdin, fs, exec) == before;
    ToolWrites(tool, ToolCommand(tool).value, dir, stdin, before, exec, p);
  }

  /** What the tools of a prefix wrote, the whole list wrote. */
  lemma WrittenByExtends(tools: seq<string>, init: seq<string>, dir: string, stdin: string, fs: FileSystem,
                         exec: (Invocation, FileSystem) -> ToolOutcome, p: string)
    requires tools != [] && init == tools[..|tools| - 1]
    requires WrittenBy(init, dir, stdin, fs, exec, p)
    ensures WrittenBy(tools, dir, stdin, fs, exec, p)
  {
    if k :| 0 <= k < |init| && p == Join(dir, OutputFileName(init[k])) {
      assert init[k] == tools[k];
    } else {
      var k :| 0 <= k < |init| && ToolChanged(init[k], dir, stdin, DiskBefore(init, k, dir, stdin, fs, exec), exec, p);
      DiskBeforePrefix(tools, init, k, dir, stdin, fs, exec);
      assert ToolChanged(tools[k], dir, stdin, DiskBefore(tools, k, dir, stdin, fs, exec), exec, p);
    }
  }

  /** The disk before the k-th tool depends only on the tools before it. */
  lemma DiskBeforePrefix(tools: seq<string>, init: seq<string>, k: nat, dir: string, stdin: string,
                         fs: FileSystem, exec: (Invocation, FileSystem) -> ToolOutcome)
    requires k < |init| <= |tools| && init == tools[..|init|]
    ensures tools[k] == init[k]
    ensures DiskBefore(tools, k, dir, stdin, fs, exec) == DiskBefore(init, k, dir, stdin, fs, exec)
  {
    assert tools[..k] == init[..k];
  }

  /** Where the analysis runs: `Ok(None)` means it returns `{}`; `Err` is the `TypeError` the path arithmetic raises. */
  function AnalysisDir(fs: FileSystem, r: Record): Result<Option<string>> {
    if r.status != COMPLETED then Ok(None)
    else
      var saved := if "output_name" in r.results then r.results["output_name"] else Null;
      if r.workingDirectory.None? || (Truthy(saved) && !saved.Str? && !saved.Path?) then
        Err("unsupported operand type(s) for /")
      else
        var name := if saved.Str? && saved.s != "" then saved.s
                    else if saved.Path? then saved.p
                    else OutputName(fs, r);
        var dir := Join(r.workingDirectory.value, name);
        if Exists(fs, dir) then Ok(Some(dir)) else Ok(None)
  }

  datatype AnalysisResult = AnalysisResult(out: Result<map<string, string>>, rec: Record, fs: FileSystem)

  /** `run_analysis` / `run_analysis_with_params`, the results also stored under `key`. */
  function Analysis(fs: FileSystem, r: Record, tools: seq<string>, stdin: string, key: string,
                    exec: (Invocation, FileSystem) -> ToolOutcome): AnalysisResult
  {
    match AnalysisDir(fs, r)
    case Err(e) => AnalysisResult(Err(e), r, fs)
    case Ok(None) => AnalysisResult(Ok(map[]), r, fs)
    case Ok(Some(dir)) =>
      var b := Batch(tools, dir, stdin, fs, exec);
      AnalysisResult(Ok(b.results), r.(results := r.results[key := StrDict(b.results)]), b.fs)
  }

  /** Unless the calculation is completed and its output directory exists, the analysis returns `{}` and changes nothing. */
  lemma AnalysisSkips(fs: FileSystem, r: Record, tools: seq<string>, stdin: string, key: string,
                      exec: (Invocation, FileSystem) -> ToolOutcome)
    requires r.status != COMPLETED || AnalysisDir(fs, r) == Ok(None)
    ensures Analysis(fs, r, tools, stdin, key, exec) == AnalysisResult(Ok(map[]), r, fs)
  {
  }

  /** A batch that ran is returned and overwrites `results[key]`; every other field and result is kept. */
  lemma AnalysisStores(fs: FileSystem, r: Record, tools: seq<string>, stdin: string, key: string,
                       exec: (Invocation, FileSystem) -> ToolOutcome)
    requires AnalysisDir(fs, r).Ok? && AnalysisDir(fs, r).value.Some?
    ensures var a := Analysis(fs, r, tools, stdin, key, exec);
            var b := Batch(tools, AnalysisDir(fs, r).value.value, stdin, fs, exec);
            && a.out == Ok(b.results)
            && a.rec.(results := r.results) == r
            && a.rec.results.Keys == r.results.Keys + {key}
            && a.rec.results[key] == StrDict(b.results)
            && forall k :: k in r.results && k != key ==> a.rec.results[k] == r.results[k]
  {
  }

  /** The stdin `run_analysis` feeds `rdgpop`. */
  const DefaultStdin := "2\n1\n"

  /** The stdin `run_analysis_with_params` feeds `rdgpop`: `"{nz}\n{dof}\n"`, missing keys defaulting to 2 and 1. */
  function ParamsStdin(params: map<string, string>): string {
    (if "rdgpop_nz" in params then params["rdgpop_nz"] else "2") + "\n"
      + (if "rdgpop_dof" in params then params["rdgpop_dof"] else "1") + "\n"
  }

  /** Empty parameters make the parameterised variant compute what `run_analysis` computes. */
  lemma VariantsAgree(fs: FileSystem, r: Record, tools: seq<string>, exec: (Invocation, FileSystem) -> ToolOutcome)
    ensures var a := Analysis(fs, r, tools, DefaultStdin, "analysis", exec);
            var b := Analysis(fs, r, tools, ParamsStdin(map[]), "analysis_with_params", exec);
            a.out == b.out && a.fs == b.fs
  {
    assert ParamsStdin(map[]) == DefaultStdin;
  }

  // ---------------------------------------------------------------- the registry

  /** `Path(p).resolve()` against the current directory (symbolic links and `..` are not followed). */
  function Resolve(cwd: string, p: string): string {
    Join(cwd, p)
  }

  /** `runs / f"{name}_{timestamp}"`. */
  function WorkingDirectory(runs: string, name: string, now: DateTime): string {
    Join(runs, name + "_" + Stamp(now))
  }

  /** The record `create_calculation` registers. */
  function NewRecord(runs: string, name: string, inpFile: string, opFile: string, workflowType: string,
                     dbFolder: Option<string>, cwd: string, now: DateTime): (r: Record)
    ensures r.name == name && r.workflowType == workflowType
    ensures r.status == CREATED && r.startTime.None? && r.endTime.None? && r.results == map[]
    ensures r.inpFile == Some(Resolve(cwd, inpFile)) && r.opFile == Some(Resolve(cwd, opFile))
    ensures r.dbFolder.Some? <==> workflowType == "DD-vMCG" && dbFolder.Some?
    ensures r.dbFolder.Some? ==> r.dbFolder == Some(Resolve(cwd, dbFolder.value))
    ensures r.workingDirectory == Some(WorkingDirectory(runs, name, now))
  {
    Initial(name).(
      inpFile := Some(Resolve(cwd, inpFile)),
      opFile := Some(Resolve(cwd, opFile)),
      workflowType := workflowType,
      dbFolder := if workflowType == "DD-vMCG" && dbFolder.Some? then Some(Resolve(cwd, dbFolder.value)) else None,
      workingDirectory := Some(WorkingDirectory(runs, name, now)))
  }

  /** The working directory sits directly in the runs directory, named `<name>_<YYYYmmdd_HHMMSS>`. */
  lemma WorkingDirectoryShape(runs: string, name: string, now: DateTime)
    requires runs != "" && runs[|runs| - 1] != '/' && Valid(now)
    requires forall j :: 0 <= j < |name| ==> name[j] != '/'
    ensures Parent(WorkingDirectory(runs, name, now)) == runs
    ensures BaseName(WorkingDirectory(runs, name, now)) == name + "_" + Stamp(now)
  {
    StampShape(now);
    var leaf := name + "_" + Stamp(now);
    forall j | 0 <= j < |leaf| ensures leaf[j] != '/' {
      if j > |name| {
        assert leaf[j] == Stamp(now)[j - |name| - 1];
      }
    }
    JoinParts(runs, leaf);
  }

  /** A new record survives `to_dict` / `from_dict`. */
  lemma NewRecordPersists(runs: string, name: string, inpFile: string, opFile: string, workflowType: string,
                          dbFolder: Option<string>, cwd: string, now: DateTime)
    requires runs != "" && cwd != "" && (dbFolder.Some? ==> dbFolder.value != "")
    ensures var r := NewRecord(runs, name, inpFile, opFile, workflowType, dbFolder, cwd, now);
            Decode(Encode(r)) == Some(r)
  {
    DecodeEncode(NewRecord(runs, name, inpFile, opFile, workflowType, dbFolder, cwd, now));
  }

  /** The calculations for `names`, in that order. */
  function Listed(names: seq<string>, calculations: map<string, Calculation>): (cs: seq<Calculation>)
    requires forall i :: 0 <= i < |names| ==> names[i] in calculations
    ensures |cs| == |names|
    ensures forall i :: 0 <= i < |names| ==> cs[i] == calculations[names[i]]
  {
    if names == [] then [] else Listed(names[..|names| - 1], calculations) + [calculations[names[|names| - 1]]]
  }

  class Runner {
    /** The registry, name to calculation. */
    var calculations: map<string, Calculation>
    /** The registry's names in insertion order (the order of a Python dict). */
    var order: seq<string>
    var fs: FileSystem
    const runsDirectory: string

    ghost predicate Valid()
      reads this
    {
      Registered(order, calculations)
    }

    constructor (runsDirectory: string, fs: FileSystem)
      ensures Valid() && calculations == map[] && order == []
      ensures this.runsDirectory == runsDirectory && this.fs == fs
    {
      this.runsDirectory := runsDirectory;
      this.fs := fs;
      calculations := map[];
      order := [];
    }

    /**
     * `LocalQuanticsRunner(base_directory)`: the base directory (or `~/.quantics_local`) and its
     * `runs` directory are created if missing.  No calculation records are loaded.
     */
    static method Open(baseDirectory: Option<string>, home: string, fs0: FileSystem) returns (r: Result<Runner>)
      ensures var base := BaseDirectory(baseDirectory, home);
              var fs1 := MakeDir(fs0, base, true);
              r.Ok? <==> fs1.Ok? && MakeDir(fs1.value, Join(base, "runs"), true).Ok?
      ensures r.Ok? ==> var base := BaseDirectory(baseDirectory, home);
              && fresh(r.value) && r.value.Valid() && r.value.calculations == map[]
              && r.value.runsDirectory == Join(base, "runs")
              && base in r.value.fs.dirs && Join(base, "runs") in r.value.fs.dirs
      ensures r.Ok? ==> var base := BaseDirectory(baseDirectory, home);
              r.value.fs == fs0.(dirs := fs0.dirs + {base, Join(base, "runs")})
    {
      var base := BaseDirectory(baseDirectory, home);
      var fs1 := MakeDir(fs0, base, true);
      if fs1.Err? {
        return Err(fs1.error);
      }
      var runs := Join(base, "runs");
      var fs2 := MakeDir(fs1.value, runs, true);
      if fs2.Err? {
        return Err(fs2.error);
      }
      var runner := new Runner(runs, fs2.value);
      return Ok(runner);
    }

    /** `self.calculations.get(name)`. */
    function GetCalculation(name: string): (c: Option<Calculation>)
      reads this
      ensures c.Some? <==> name in calculations
      ensures c.Some? ==> c.value == calculations[name]
    {
      if name in calculations then Some(calculations[name]) else None
    }

    /** `list(self.calculations.values())`: every registered calculation once, in insertion order. */
    function ListCalculations(): (cs: seq<Calculation>)
      reads this
      requires Valid()
      ensures |cs| == |calculations|
      ensures forall n :: n in calculations ==> calculations[n] in cs
      ensures cs == Listed(order, calculations)
    {
      assert |order| == |calculations| by { DistinctCard(order, calculations); }
      var cs := Listed(order, calculations);
      assert forall n :: n in calculations ==> exists i :: 0 <= i < |order| && order[i] == n;
      cs
    }

    /** Each calculation `list_calculations` gives is the one `get_calculation` finds under its name. */
    lemma ListedFound(i: nat)
      requires Valid() && i < |order|
      ensures |ListCalculations()| == |order|
      ensures GetCalculation(order[i]) == Some(ListCalculations()[i])
    {
    }

    /**
     * `create_calculation`: an existing name raises and changes nothing; otherwise the working
     * directory is made and exactly the new name is registered, with a fresh record.
     */
    method CreateCalculation(name: string, inpFile: string, opFile: string, workflowType: string,
                             dbFolder: Option<string>, cwd: string, now: DateTime) returns (r: Result<Calculation>)
      requires Valid()
      modifies this
      ensures Valid()
      ensures name in old(calculations) ==> r.Err?
      ensures r.Err? ==> calculations == old(calculations) && order == old(order) && fs == old(fs)
      ensures name !in old(calculations) ==>
                (r.Ok? <==> MakeDir(old(fs), WorkingDirectory(runsDirectory, name, now), true).Ok?)
      ensures r.Ok? ==>
                && fresh(r.value)
                && calculations == old(calculations)[name := r.value]
                && order == old(order) + [name]
                && ListCalculations() == old(ListCalculations()) + [r.value]
                && GetCalculation(name) == Some(r.value)
                && r.value.Snapshot() == NewRecord(runsDirectory, name, inpFile, opFile, workflowType, dbFolder, cwd, now)
                && fs == MakeDir(old(fs), WorkingDirectory(runsDirectory, name, now), true).value
    {
      if name in calculations {
        return Err("Calculation name '" + name + "' already exists");
      }
      var rec := NewRecord(runsDirectory, name, inpFile, opFile, workflowType, dbFolder, cwd, now);
      var made := MakeDir(fs, rec.workingDirectory.value, true);
      if made.Err? {
        return Err(made.error);
      }
      var c := new Calculation(name);
      c.Assign(rec);
      fs := made.value;
      Register(name, c);
      return Ok(c);
    }

    /** `self.calculations[name] = calc` for a new name: it goes to the end of the insertion order. */
    method Register(name: string, c: Calculation)
      requires Valid() && name !in calculations
      modifies this
      ensures Valid() && fs == old(fs)
      ensures calculations == old(calculations)[name := c] && order == old(order) + [name]
      ensures ListCalculations() == old(ListCalculations()) + [c]
    {
      RegisteredExtend(order, calculations, name, c);
      calculations := calculations[name := c];
      order := order + [name];
    }

    /** The body of both directive scanners: the first matching line gives the value. */
    method ReadDirective(path: string, key: string) returns (r: Option<string>)
      ensures r == FileDirective(fs, path, key)
    {
      if path !in fs.files {
        return None;
      }
      var lines := Lines(fs.files[path]);
      var i := 0;
      while i < |lines|
        invariant 0 <= i <= |lines|
        invariant forall j :: 0 <= j < i ==> !Matches(lines[j], key)
      {
        var line := Strip(lines[i]);
        if StartsWith(line, key) && Contains(line, "=") {
          FirstMatchAt(lines, key, i);
          return Some(Strip(Split(line, "=")[1]));
        }
        i := i + 1;
      }
      assert FirstMatch(lines, key).None? by {
        var m := FirstMatch(lines, key);
        if m.Some? {
        }
      }
      return None;
    }

    /** `prepare_calculation`. */
    method PrepareCalculation(c: Calculation) returns (ok: bool)
      modifies this`fs
      ensures Outcome(ok, fs) == Preparation(old(fs), c.Snapshot())
    {
      if c.inpFile.None? || c.workingDirectory.None? {
        return false;
      }
      var wd := c.workingDirectory.value;
      var copied := CopyFile(fs, c.inpFile.value, Join(wd, "input.inp"));
      if copied.Err? {
        return false;
      }
      fs := copied.value;
      if c.opFile.None? {
        return false;
      }
      var opname := ReadDirective(c.inpFile.value, "opname");
      var target := Join(wd, OpFileName(opname));
      copied := CopyFile(fs, c.opFile.value, target);
      if copied.Err? {
        return false;
      }
      fs := copied.value;
      if c.workflowType == "DD-vMCG" && c.dbFolder.Some? {
        copied := CopyTree(fs, c.dbFolder.value, Join(wd, "db_data"));
        if copied.Err? {
          return false;
        }
        fs := copied.value;
      }
      return true;
    }

    /** `run_calculation`; `start` and `end` are the two clock readings. */
    method RunCalculation(c: Calculation, exe: string, start: DateTime, end: DateTime,
                          quantics: (Invocation, FileSystem) -> ProcOutcome) returns (ok: bool)
      modifies c, this`fs
      ensures RunResult(ok, c.Snapshot(), fs) == Execution(old(fs), old(c.Snapshot()), exe, start, end, quantics)
    {
      if c.status == RUNNING {
        return false;
      }
      var prepared := PrepareCalculation(c);
      if !prepared {
        return false;
      }
      var wd := c.workingDirectory.value;
      c.status := RUNNING;
      c.startTime := Some(start);
      var log := WriteText(fs, Join(wd, "quantics.log"), "");
      if log.Err? {
        c.status := FAILED;
        c.endTime := Some(end);
        return false;
      }
      fs := log.value;
      var outcome := quantics(Command(exe, wd), fs);
      if outcome.Raised? {
        c.status := FAILED;
        c.endTime := Some(end);
        return false;
      }
      fs := outcome.after;
      c.endTime := Some(end);
      if outcome.code == 0 {
        c.status := COMPLETED;
        CheckOutputFiles(c);
      } else {
        c.status := FAILED;
      }
      ok := c.status == COMPLETED;
    }

    /** `_check_output_files`. */
    method CheckOutputFiles(c: Calculation)
      requires c.workingDirectory.Some?
      modifies c
      ensures c.Snapshot() == OutputDiscovery(fs, old(c.Snapshot()))
    {
      var wd := c.workingDirectory.value;
      var scanned := ReadDirective(Join(wd, "input.inp"), "name");
      var outputName := if scanned.Some? && scanned.value != "" then scanned.value else c.name;
      var dir := Join(wd, outputName);
      if Exists(fs, dir) {
        c.results := c.results["output_directory" := Str(dir)];
        c.results := c.results["output_name" := Str(outputName)];
        var found := PresentFiles(dir);
        c.results := c.results["output_files" := StrList(found)];
      }
    }

    /** The loop of `_check_output_files` over the expected artefacts. */
    method PresentFiles(dir: string) returns (found: seq<string>)
      ensures found == Present(fs, dir, ExpectedFiles)
    {
      found := [];
      var i := 0;
      while i < |ExpectedFiles|
        invariant 0 <= i <= |ExpectedFiles|
        invariant found == Present(fs, dir, ExpectedFiles[..i])
      {
        assert ExpectedFiles[..i + 1][..i] == ExpectedFiles[..i];
        if Exists(fs, Join(dir, ExpectedFiles[i])) {
          found := found + [ExpectedFiles[i]];
        }
        i := i + 1;
      }
      assert ExpectedFiles[..|ExpectedFiles|] == ExpectedFiles;
    }

    /** The analysis loop. */
    method RunBatch(tools: seq<string>, dir: string, stdin: string, exec: (Invocation, FileSystem) -> ToolOutcome)
      returns (results: map<string, string>)
      modifies this`fs
      ensures BatchResult(results, fs) == Batch(tools, dir, stdin, old(fs), exec)
    {
      results := map[];
      var i := 0;
      while i < |tools|
        invariant 0 <= i <= |tools|
        invariant BatchResult(results, fs) == Batch(tools[..i], dir, stdin, old(fs), exec)
      {
        var tool := tools[i];
        assert tools[..i + 1][..i] == tools[..i];
        var cmd := ToolCommand(tool);
        if cmd.Some? {
          var text := ExecuteTool(tool, cmd.value, dir, stdin, exec);
          results := results[tool := text];
        }
        i := i + 1;
      }
      assert tools[..|tools|] == tools;
    }

    /** The body of the `try` for one known tool: run it, and save its output when it exits 0. */
    method ExecuteTool(tool: string, cmd: seq<string>, dir: string, stdin: string, exec: (Invocation, FileSystem) -> ToolOutcome)
      returns (text: string)
      modifies this`fs
      ensures ToolRun(text, fs) == RunTool(tool, cmd, dir, stdin, old(fs), exec)
    {
      var outcome := exec(ToolInvocation(tool, cmd, dir, stdin), fs);
      match outcome {
        case ToolRaised(m) =>
          text := "Exception: " + m;
        case ToolExited(code, out, err, after) =>
          fs := after;
          if code == 0 {
            text := out;
            var written := WriteText(fs, Join(dir, OutputFileName(tool)), out);
            if written.Ok? {
              fs := written.value;
            } else {
              text := "Exception: " + written.error;
            }
          } else {
            text := "Error: " + err;
          }
      }
    }

    /** What `run_analysis` and `run_analysis_with_params` share. */
    method Analyse(c: Calculation, tools: seq<string>, stdin: string, key: string,
                   exec: (Invocation, FileSystem) -> ToolOutcome) returns (r: Result<map<string, string>>)
      modifies c, this`fs
      ensures AnalysisResult(r, c.Snapshot(), fs) == Analysis(old(fs), old(c.Snapshot()), tools, stdin, key, exec)
    {
      if c.status != COMPLETED {
        return Ok(map[]);
      }
      var saved := if "output_name" in c.results then c.results["output_name"] else Null;
      if c.workingDirectory.None? || (Truthy(saved) && !saved.Str? && !saved.Path?) {
        return Err("unsupported operand type(s) for /");
      }
      var wd := c.workingDirectory.value;
      var name: string;
      if saved.Str? && saved.s != "" {
        name := saved.s;
      } else if saved.Path? {
        name := saved.p;
      } else {
        var scanned := ReadDirective(Join(wd, "input.inp"), "name");
        name := if scanned.Some? && scanned.value != "" then scanned.value else c.name;
      }
      var dir := Join(wd, name);
      if !Exists(fs, dir) {
        return Ok(map[]);
      }
      var results := RunBatch(tools, dir, stdin, exec);
      c.results := c.results[key := StrDict(results)];
      return Ok(results);
    }

    /** `run_analysis`: `rdgpop` is fed `2` and `1`, the map is stored as `results["analysis"]`. */
    method RunAnalysis(c: Calculation, tools: seq<string>, exec: (Invocation, FileSystem) -> ToolOutcome)
      returns (r: Result<map<string, string>>)
      modifies c, this`fs
      ensures AnalysisResult(r, c.Snapshot(), fs)
           == Analysis(old(fs), old(c.Snapshot()), tools, DefaultStdin, "analysis", exec)
    {
      r := Analyse(c, tools, DefaultStdin, "analysis", exec);
    }

    /** `run_analysis_with_params`: `rdgpop` is fed the given `nz` and `dof`, stored as `results["analysis_with_params"]`. */
    method RunAnalysisWithParams(c: Calculation, tools: seq<string>, params: map<string, string>,
                                 exec: (Invocation, FileSystem) -> ToolOutcome) returns (r: Result<map<string, string>>)
      modifies c, this`fs
      ensures AnalysisResult(r, c.Snapshot(), fs)
           == Analysis(old(fs), old(c.Snapshot()), tools, ParamsStdin(params), "analysis_with_params", exec)
    {
      r := Analyse(c, tools, ParamsStdin(params), "analysis_with_params", exec);
    }
  }

  function BaseDirectory(baseDirectory: Option<string>, home: string): string {
    match baseDirectory
    case Some(b) => b
    case None => Join(home, ".quantics_local")
  }

  lemma {:induction false} DistinctCard(order: seq<string>, calculations: map<string, Calculation>)
    requires forall i, j :: 0 <= i < j < |order| ==> order[i] != order[j]
    requires forall n :: n in calculations <==> n in order
    ensures |order| == |calculations|
  {
    var s := set n | n in order;
    assert calculations.Keys == s;
    DistinctSeqCard(order);
  }

  lemma {:induction false} DistinctSeqCard(xs: seq<string>)
    requires forall i, j :: 0 <= i < j < |xs| ==> xs[i] != xs[j]
    ensures |set n | n in xs| == |xs|
  {
    if xs != [] {
      var init := xs[..|xs| - 1];
      DistinctSeqCard(init);
      assert (set n | n in xs) == (set n | n in init) + {xs[|xs| - 1]};
      assert xs[|xs| - 1] !in (set n | n in init);
    }
  }

  /** The names in insertion order are distinct and are exactly the registry's keys. */
  ghost predicate Registered(order: seq<string>, calculations: map<string, Calculation>) {
    && (forall i, j :: 0 <= i < j < |order| ==> order[i] != order[j])
    && (forall n :: n in calculations <==> n in order)
  }

  /** Registering a new name keeps the registry consistent and appends its calculation to the listing. */
  lemma RegisteredExtend(order: seq<string>, calculations: map<string, Calculation>, name: string, c: Calculation)
    requires Registered(order, calculations) && name !in calculations
    ensures Registered(order + [name], calculations[name := c])
    ensures Listed(order + [name], calculations[name := c]) == Listed(order, calculations) + [c]
  {
    var order', calculations' := order + [name], calculations[name := c];
    assert order'[..|order'| - 1] == order;
    ListedSame(order, calculations, calculations');
  }

  lemma {:induction false} ListedSame(names: seq<string>, m1: map<string, Calculation>, m2: map<string, Calculation>)
    requires forall i :: 0 <= i < |names| ==> names[i] in m1 && names[i] in m2 && m1[names[i]] == m2[names[i]]
    ensures Listed(names, m1) == Listed(names, m2)
  {
  }
}
