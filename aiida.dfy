/**
 * The platform-independent parts of the AiiDA adapter (src/runners/aiida_integration.py):
 * the tools each workflow type analyses, the scheduler resources, the inputs the workchain
 * hands its calculation job, the job's run script, the parser's scanners, the integration
 * layer's checks and its error-tagged status and result dicts, and the order in which it
 * looks for a code.  The database, `load_node`, `load_code` and the code query are oracles
 * and parameters; a process node is plain data.
 */
module Aiida {
  import opened Wrappers
  import opened Text
  import opened Json
  import opened Disk

  // ---------------------------------------------------------------- workflow types

  /** `QuanticsWorkChain._get_analysis_tools`. */
  function AnalysisTools(workflowType: string): (tools: seq<string>)
    ensures |tools| <= 4
  {
    if workflowType == "MCTDH" then ["rdcheck etot", "rdcheck spop", "rdcheck natpop 0 0", "rdgpop"]
    else if workflowType == "vMCG" then ["rdcheck etot", "rdcheck spop"]
    else if workflowType == "DD-vMCG" then ["rdcheck etot", "rdcheck spop", "ddtraj"]
    else []
  }

  predicate KnownWorkflow(workflowType: string) {
    workflowType == "MCTDH" || workflowType == "vMCG" || workflowType == "DD-vMCG"
  }

  /**
   * Every known type checks the total energy and the single-particle populations first, only
   * MCTDH runs `rdgpop`, only DD-vMCG runs `ddtraj`, every other listed tool is an `rdcheck`
   * call, and an unknown type gets no tools.
   */
  lemma AnalysisToolsShape(workflowType: string)
    ensures var tools := AnalysisTools(workflowType);
            && (tools != [] <==> KnownWorkflow(workflowType))
            && (KnownWorkflow(workflowType) ==> tools[..2] == ["rdcheck etot", "rdcheck spop"])
            && ("rdgpop" in tools <==> workflowType == "MCTDH")
            && ("ddtraj" in tools <==> workflowType == "DD-vMCG")
            && (forall t :: t in tools ==> t == "rdgpop" || t == "ddtraj" || StartsWith(t, "rdcheck "))
  {
    var tools := AnalysisTools(workflowType);
    assert StartsWith("rdcheck etot", "rdcheck ") && StartsWith("rdcheck spop", "rdcheck ");
    assert StartsWith("rdcheck natpop 0 0", "rdcheck ");
    if workflowType == "MCTDH" {
      assert tools[3] == "rdgpop";
      assert "ddtraj" !in tools;
    } else if workflowType == "vMCG" {
      assert "rdgpop" !in tools && "ddtraj" !in tools;
    } else if workflowType == "DD-vMCG" {
      assert tools[2] == "ddtraj";
      assert "rdgpop" !in tools;
    }
  }

  // ---------------------------------------------------------------- workchain → calculation job

  /** The scheduler resources `run_quantics` chooses. */
  function Resources(schedulerType: string): map<string, Value> {
    if schedulerType == "core.sge" then map["parallel_env" := Str("smp"), "tot_num_mpiprocs" := Int(1)]
    else map["num_machines" := Int(1), "tot_num_mpiprocs" := Int(1)]
  }

  /** One MPI process either way; SGE names a parallel environment, every other scheduler a machine count. */
  lemma ResourcesShape(schedulerType: string)
    ensures var r := Resources(schedulerType);
            && |r| == 2 && "tot_num_mpiprocs" in r && r["tot_num_mpiprocs"] == Int(1)
            && ("parallel_env" in r <==> schedulerType == "core.sge")
            && ("num_machines" in r <==> schedulerType != "core.sge")
            && ("parallel_env" in r ==> r["parallel_env"] == Str("smp"))
            && ("num_machines" in r ==> r["num_machines"] == Int(1))
  {
    var r := Resources(schedulerType);
    if schedulerType == "core.sge" {
      assert r.Keys == {"parallel_env", "tot_num_mpiprocs"};
    } else {
      assert r.Keys == {"num_machines", "tot_num_mpiprocs"};
    }
  }

  const MaxWallclockSeconds: nat := 3600

  /** The inputs `submit_calculation` gives the workchain; files and folders are named by their paths. */
  datatype WorkChainInputs = WorkChainInputs(code: string, inpFile: string, opFile: string, workflowType: string,
                                             runAnalysis: bool, dbFolder: Option<string>,
                                             analysisParams: Option<map<string, string>>)

  /** The inputs the workchain gives the calculation job; an absent optional input is `None`. */
  datatype CalcJobInputs = CalcJobInputs(code: string, inpFile: string, opFile: string, workflowType: string,
                                         resources: map<string, Value>, maxWallclockSeconds: nat,
                                         dbFolder: Option<string>, analysisTools: Option<seq<string>>,
                                         analysisParams: Option<map<string, string>>)

  /** `QuanticsWorkChain.run_quantics`: the inputs it submits, on a computer with the given scheduler. */
  function RunQuantics(w: WorkChainInputs, schedulerType: string): CalcJobInputs {
    var tools := AnalysisTools(w.workflowType);
    var analyse := w.runAnalysis && tools != [];
    CalcJobInputs(w.code, w.inpFile, w.opFile, w.workflowType, Resources(schedulerType), MaxWallclockSeconds,
                  w.dbFolder,
                  if analyse then Some(tools) else None,
                  if analyse then w.analysisParams else None)
  }

  /**
   * The job analyses exactly when analysis was asked for and the type has tools, and then runs the
   * type's tools; parameters travel only with tools; the database folder is forwarded as given.
   */
  lemma RunQuanticsInputs(w: WorkChainInputs, schedulerType: string)
    ensures var j := RunQuantics(w, schedulerType);
            && (j.analysisTools.Some? <==> w.runAnalysis && KnownWorkflow(w.workflowType))
            && (j.analysisTools.Some? ==> j.analysisTools.value == AnalysisTools(w.workflowType))
            && (j.analysisParams.Some? <==> j.analysisTools.Some? && w.analysisParams.Some?)
            && (j.analysisParams.Some? ==> j.analysisParams == w.analysisParams)
            && j.dbFolder == w.dbFolder
            && j.resources == Resources(schedulerType) && j.maxWallclockSeconds == 3600
  {
    AnalysisToolsShape(w.workflowType);
  }

  // ---------------------------------------------------------------- run script

  const ScriptHeader: string :=
    "#!/bin/bash\nset -e\n\n# Run QUANTICS calculation\nquantics input.inp > quantics.out 2> quantics.err\n\n"
    + "# Create output directory\nmkdir -p output\n\n# Copy output files\n"
    + "if [ -f \"restart\" ]; then\n    cp restart output/\nfi\n"
    + "if [ -f \"check\" ]; then\n    cp check output/\nfi\n"
    + "if [ -f \"gridpop\" ]; then\n    cp gridpop output/\nfi\n\n# Run analysis tools if specified\n"

  const ScriptFooter: string := "\necho \"QUANTICS calculation completed\"\n"

  /** `params.get(key, default)`. */
  function Param(params: map<string, string>, key: string, default: string): string {
    if key in params then params[key] else default
  }

  /** The command of one tool writing to `output/<stem>_output.txt`: `rdgpop` is piped its two answers. */
  function ToolLineTo(tool: string, stem: string, nz: string, dof: string): string {
    if tool == "rdgpop" then "echo -e \"" + nz + "\\n" + dof + "\" | " + tool + " -w" + Redirect(stem)
    else tool + Redirect(stem)
  }

  /** The command line as written, with the tool name as the output file's stem. */
  function ToolLine(tool: string, nz: string, dof: string): string {
    ToolLineTo(tool, tool, nz, dof)
  }

  /** The intended line: the output file name with `_` for each space, as the local runner writes it. */
  function CorrectedToolLine(tool: string, nz: string, dof: string): string {
    ToolLineTo(tool, ReplaceAll(tool, " ", "_"), nz, dof)
  }

  function Redirect(tool: string): string {
    " > output/" + tool + "_output.txt 2>&1"
  }

  /** The lines appended for one tool, with the corrected output file name (see `SpacedToolRedirect`). */
  function Block(tool: string, nz: string, dof: string): string {
    "\necho \"Running " + tool + "...\"\n" + CorrectedToolLine(tool, nz, dof) + "\n"
  }

  function Blocks(tools: seq<string>, nz: string, dof: string): string {
    if tools == [] then ""
    else Blocks(tools[..|tools| - 1], nz, dof) + Block(tools[|tools| - 1], nz, dof)
  }

  /** The script `_create_run_script` writes for the job's inputs. */
  function RunScript(j: CalcJobInputs): string {
    match j.analysisTools
    case None => ScriptHeader + ScriptFooter
    case Some(tools) =>
      var params := j.analysisParams.GetOr(map[]);
      ScriptHeader + Blocks(tools, Param(params, "rdgpop_nz", "2"), Param(params, "rdgpop_dof", "1")) + ScriptFooter
  }

  /**
   * `QuanticsAiidaCalculation._create_run_script`, with each tool's output file named as in the
   * corrected `CorrectedToolLine` (see `SpacedToolRedirect` for the line as written).
   */
  method CreateRunScript(j: CalcJobInputs) returns (script: string)
    ensures script == RunScript(j)
  {
    script := ScriptHeader;
    if j.analysisTools.Some? {
      var tools := j.analysisTools.value;
      var params := if j.analysisParams.Some? then j.analysisParams.value else map[];
      var nz := if "rdgpop_nz" in params then params["rdgpop_nz"] else "2";
      var dof := if "rdgpop_dof" in params then params["rdgpop_dof"] else "1";
      var i := 0;
      while i < |tools|
        invariant 0 <= i <= |tools|
        invariant script == ScriptHeader + Blocks(tools[..i], nz, dof)
      {
        BlocksStep(tools, i, nz, dof);
        Assoc(ScriptHeader, Blocks(tools[..i], nz, dof), Block(tools[i], nz, dof));
        script := script + Block(tools[i], nz, dof);
        i := i + 1;
      }
      assert tools[..|tools|] == tools;
    }
    script := script + ScriptFooter;
  }

  lemma BlocksStep(tools: seq<string>, i: nat, nz: string, dof: string)
    requires i < |tools|
    ensures Blocks(tools[..i + 1], nz, dof) == Blocks(tools[..i], nz, dof) + Block(tools[i], nz, dof)
  {
    assert tools[..i + 1][..i] == tools[..i];
  }

  lemma Assoc(a: string, b: string, c: string)
    ensures (a + b) + c == a + (b + c)
  {
  }

  lemma {:induction false} BlocksAppend(a: seq<string>, b: seq<string>, nz: string, dof: string)
    ensures Blocks(a + b, nz, dof) == Blocks(a, nz, dof) + Blocks(b, nz, dof)
    decreases |b|
  {
    if b == [] {
      assert a + b == a;
    } else {
      var init := b[..|b| - 1];
      assert (a + b)[..|a + b| - 1] == a + init;
      assert (a + b)[|a + b| - 1] == b[|b| - 1];
      BlocksAppend(a, init, nz, dof);
      Assoc(Blocks(a, nz, dof), Blocks(init, nz, dof), Block(b[|b| - 1], nz, dof));
    }
  }

  lemma Framed(a: string, b: string)
    ensures StartsWith(a + b, a) && EndsWith(a + b, b)
  {
    assert (a + b)[..|a|] == a;
    assert (a + b)[|a + b| - |b|..] == b;
  }

  lemma OccursBetween(x: string, y: string, z: string)
    ensures OccursAt(x + y + z, y, |x|)
  {
    assert (x + y + z)[|x|..|x| + |y|] == y;
  }

  /** The script starts with the fixed header and ends with the completion echo. */
  lemma ScriptFrame(j: CalcJobInputs)
    ensures StartsWith(RunScript(j), ScriptHeader) && EndsWith(RunScript(j), ScriptFooter)
  {
    match j.analysisTools
    case None => Framed(ScriptHeader, ScriptFooter);
    case Some(tools) =>
      var params := j.analysisParams.GetOr(map[]);
      var body := Blocks(tools, Param(params, "rdgpop_nz", "2"), Param(params, "rdgpop_dof", "1"));
      Framed(ScriptHeader + body, ScriptFooter);
      Assoc(ScriptHeader, body, ScriptFooter);
      Framed(ScriptHeader, body + ScriptFooter);
  }

  /** The blocks are the tools' blocks in the order of the tools. */
  lemma BlocksSplit(tools: seq<string>, k: nat, nz: string, dof: string)
    requires k < |tools|
    ensures Blocks(tools, nz, dof) == Blocks(tools[..k], nz, dof) + Block(tools[k], nz, dof) + Blocks(tools[k + 1..], nz, dof)
  {
    assert tools == tools[..k] + [tools[k]] + tools[k + 1..];
    BlocksAppend(tools[..k] + [tools[k]], tools[k + 1..], nz, dof);
    BlocksAppend(tools[..k], [tools[k]], nz, dof);
    assert Blocks([tools[k]], nz, dof) == Block(tools[k], nz, dof) by {
      assert [tools[k]][..0] == [];
    }
  }

  /**
   * One block per tool, in the order given: the block of the `k`-th tool sits right after the header
   * and the blocks of the tools before it.
   */
  lemma ScriptBlockAt(j: CalcJobInputs, k: nat)
    requires j.analysisTools.Some? && k < |j.analysisTools.value|
    ensures var tools, params := j.analysisTools.value, j.analysisParams.GetOr(map[]);
            var nz, dof := Param(params, "rdgpop_nz", "2"), Param(params, "rdgpop_dof", "1");
            OccursAt(RunScript(j), Block(tools[k], nz, dof), |ScriptHeader| + |Blocks(tools[..k], nz, dof)|)
  {
    var tools, params := j.analysisTools.value, j.analysisParams.GetOr(map[]);
    var nz, dof := Param(params, "rdgpop_nz", "2"), Param(params, "rdgpop_dof", "1");
    var b1, b, b2 := Blocks(tools[..k], nz, dof), Block(tools[k], nz, dof), Blocks(tools[k + 1..], nz, dof);
    BlocksSplit(tools, k, nz, dof);
    var s := RunScript(j);
    assert s == ScriptHeader + (b1 + b + b2) + ScriptFooter;
    Assoc(ScriptHeader, b1 + b, b2);
    Assoc(ScriptHeader, b1, b);
    Assoc(ScriptHeader + b1 + b, b2, ScriptFooter);
    OccursBetween(ScriptHeader + b1, b, b2 + ScriptFooter);
  }

  /** Without analysis tools the script is the header and the footer only. */
  lemma ScriptWithoutTools(j: CalcJobInputs)
    requires j.analysisTools.None?
    ensures RunScript(j) == ScriptHeader + ScriptFooter
  {
  }

  /** Without parameters `rdgpop` is answered `2` and `1`. */
  lemma ScriptDefaults(j: CalcJobInputs)
    requires j.analysisTools.Some? && j.analysisParams.None?
    ensures RunScript(j) == ScriptHeader + Blocks(j.analysisTools.value, "2", "1") + ScriptFooter
  {
  }

  // ---------------------------------------------------------------- the shell's reading of a tool line

  /** The word after the first `>` among the shell words of `line`: where the output goes. */
  function RedirectTarget(line: string): Option<string> {
    var ws := Tokens(line);
    var k := FirstIndex(ws, ">");
    if k.Some? && k.value + 1 < |ws| then Some(ws[k.value + 1]) else None
  }

  function FirstIndex(ws: seq<string>, w: string): (k: Option<nat>)
    ensures k.Some? ==> k.value < |ws| && ws[k.value] == w && forall i :: 0 <= i < k.value ==> ws[i] != w
    ensures k.None? ==> w !in ws
  {
    if ws == [] then None
    else if ws[0] == w then Some(0)
    else match FirstIndex(ws[1..], w)
         case None => None
         case Some(i) => Some(i + 1)
  }

  /** A word followed by whitespace, or by nothing, is the first shell word. */
  lemma TokensCons(w: string, rest: string)
    requires IsToken(w) && (rest == [] || IsSpace(rest[0]))
    ensures Tokens(w + rest) == [w] + Tokens(rest)
  {
    var s := w + rest;
    assert TrimLeft(s) == s;
    assert Word(s) == w by { WordOf(w, rest); }
    assert s[|w|..] == rest;
    TokensSpaces(rest);
  }

  lemma {:induction false} WordOf(w: string, rest: string)
    requires IsToken(w) && (rest == [] || IsSpace(rest[0]))
    ensures Word(w + rest) == w
    decreases |w|
  {
    var s := w + rest;
    if |w| == 1 {
      assert s[1..] == rest;
    } else {
      assert s[1..] == w[1..] + rest;
      WordOf(w[1..], rest);
    }
  }

  /** Leading whitespace does not change the shell words. */
  lemma TokensSpaces(rest: string)
    ensures rest != [] && IsSpace(rest[0]) ==> Tokens(rest) == Tokens(rest[1..])
  {
    if rest != [] && IsSpace(rest[0]) {
      assert TrimLeft(rest) == TrimLeft(rest[1..]);
    }
  }

  /** `" " + s` starts with a space. */
  lemma TokensAfterSpace(s: string)
    ensures Tokens(" " + s) == Tokens(s)
  {
    TokensSpaces(" " + s);
    assert (" " + s)[1..] == s;
  }

  /** Splits `a b …` into its first word `a` and the rest when `a` is a word. */
  lemma TokensWords(a: string, rest: string)
    requires IsToken(a)
    ensures Tokens(a + " " + rest) == [a] + Tokens(rest)
  {
    assert a + " " + rest == a + (" " + rest);
    TokensCons(a, " " + rest);
    TokensAfterSpace(rest);
  }

  /** Words joined by single spaces split back into the same words. */
  lemma {:induction false} TokensJoin(ws: seq<string>)
    requires forall i :: 0 <= i < |ws| ==> IsToken(ws[i])
    ensures Tokens(JoinWith(ws, " ")) == ws
    decreases |ws|
  {
    if ws == [] {
      assert TrimLeft("") == "";
    } else if |ws| == 1 {
      TokensCons(ws[0], "");
      assert ws[0] + "" == ws[0];
      assert TrimLeft("") == "";
    } else {
      TokensJoin(ws[1..]);
      TokensWords(ws[0], JoinWith(ws[1..], " "));
    }
  }

  /** A tool other than `rdgpop` is run bare, followed by the redirect. */
  lemma PlainToolLine(tool: string, stem: string, nz: string, dof: string)
    requires tool != "rdgpop"
    ensures ToolLineTo(tool, stem, nz, dof) == tool + Redirect(stem)
  {
  }

  /** The command line of a tool other than `rdgpop`, as the words the shell sees. */
  lemma ToolLineWords(a: string, b: string)
    requires a + " " + b != "rdgpop"
    ensures ToolLine(a + " " + b, "2", "1")
         == JoinWith([a, b, ">", "output/" + a, b + "_output.txt", "2>&1"], " ")
  {
    PlainToolLine(a + " " + b, a + " " + b, "2", "1");
    RedirectWords(a, b);
  }

  /** The spaced name followed by its own redirect, as the words the shell sees. */
  lemma RedirectWords(a: string, b: string)
    ensures var tool := a + " " + b;
            tool + Redirect(tool) == JoinWith([a, b, ">", "output/" + a, b + "_output.txt", "2>&1"], " ")
  {
    var ws := [a, b, ">", "output/" + a, b + "_output.txt", "2>&1"];
    JoinSix(ws);
    RedirectNested(a, b);
  }

  /** Six words joined by single spaces, written out. */
  lemma JoinSix(ws: seq<string>)
    requires |ws| == 6
    ensures JoinWith(ws, " ") == ws[0] + (" " + (ws[1] + (" " + (ws[2] + (" " + (ws[3] + (" " + (ws[4] + (" " + ws[5])))))))))
  {
    JoinTail(ws, 4);
    JoinTail(ws, 3);
    JoinTail(ws, 2);
    JoinTail(ws, 1);
    JoinTail(ws, 0);
    assert ws[5..] == [ws[5]];
    Assoc(ws[4], " ", ws[5]);
    Assoc(ws[3], " ", JoinWith(ws[4..], " "));
    Assoc(ws[2], " ", JoinWith(ws[3..], " "));
    Assoc(ws[1], " ", JoinWith(ws[2..], " "));
    Assoc(ws[0], " ", JoinWith(ws[1..], " "));
  }

  /** The redirect of `a b` regrouped word by word. */
  lemma RedirectNested(a: string, b: string)
    ensures (a + " " + b) + Redirect(a + " " + b)
         == a + (" " + (b + (" " + (">" + (" " + (("output/" + a) + (" " + ((b + "_output.txt") + (" " + "2>&1")))))))))
  {
    var tool := a + " " + b;
    var tail := "_output.txt 2>&1";
    var u := tool + tail;
    var j4 := (b + "_output.txt") + (" " + "2>&1");
    Assoc(b, "_output.txt", " " + "2>&1");
    assert j4 == b + tail;
    var j3 := ("output/" + a) + (" " + j4);
    Assoc("output/", a, " " + j4);
    Assoc(a, " ", j4);
    Assoc(a + " ", b, tail);
    Assoc("output/", a + " ", b + tail);
    assert j3 == "output/" + u;
    var j2 := ">" + (" " + j3);
    assert " " + j2 == " > output/" + u;
    Assoc(" > output/", tool, tail);
    assert " " + j2 == Redirect(tool);
    Assoc(a, " ", b);
    Assoc(a + " ", b, " " + j2);
    Assoc(a, " ", b + (" " + j2));
  }

  /** `JoinWith` peels off its first word. */
  lemma JoinTail(ws: seq<string>, i: nat)
    requires i + 1 < |ws|
    ensures JoinWith(ws[i..], " ") == ws[i] + " " + JoinWith(ws[i + 1..], " ")
  {
    assert ws[i..][1..] == ws[i + 1..];
  }

  /**
   * As written, the line for a two-word tool such as `rdcheck etot` sends the output to
   * `output/<first word>` and hands the rest of the name to the tool as an extra argument:
   * the file the parser looks for is never written.
   */
  lemma SpacedToolRedirect(a: string, b: string)
    requires IsToken(a) && IsToken(b) && a != ">" && b != ">"
    ensures RedirectTarget(ToolLine(a + " " + b, "2", "1")) == Some("output/" + a)
  {
    var tool := a + " " + b;
    assert tool != "rdgpop" by {
      assert tool[|a|] == ' ';
    }
    var ws := [a, b, ">", "output/" + a, b + "_output.txt", "2>&1"];
    assert IsToken("output/" + a) && IsToken(b + "_output.txt");
    assert IsToken(">") && IsToken("2>&1");
    ToolLineWords(a, b);
    WordsTarget(ws);
  }

  /** A line of words whose third is `>` redirects to its fourth. */
  lemma WordsTarget(ws: seq<string>)
    requires forall i :: 0 <= i < |ws| ==> IsToken(ws[i])
    requires |ws| > 3 && ws[0] != ">" && ws[1] != ">" && ws[2] == ">"
    ensures RedirectTarget(JoinWith(ws, " ")) == Some(ws[3])
  {
    TokensJoin(ws);
    var k := FirstIndex(ws, ">");
    assert ws[2] == ">";
    assert k.Some? && 2 <= k.value <= 2;
  }

  lemma CorrectedLineWords(a: string, b: string, u: string)
    ensures a + " " + b + " > output/" + u + "_output.txt 2>&1"
         == JoinWith([a, b, ">", "output/" + u + "_output.txt", "2>&1"], " ")
  {
    var of := "output/" + u + "_output.txt";
    var ws := [a, b, ">", of, "2>&1"];
    JoinTail(ws, 3);
    JoinTail(ws, 2);
    JoinTail(ws, 1);
    JoinTail(ws, 0);
    assert ws[4..] == ["2>&1"];
    var tail := "_output.txt 2>&1";
    var p, v := "output/" + u, u + tail;
    var j3 := of + " " + "2>&1";
    Assoc(p, "_output.txt", " ");
    Assoc(p, "_output.txt" + " ", "2>&1");
    assert j3 == p + tail;
    var j2 := ">" + " " + j3;
    Assoc("output/", u, tail);
    Assoc("> ", "output/", v);
    Assoc(" ", "> " + "output/", v);
    assert " " + j2 == " > output/" + v;
    var j1 := b + " " + j2;
    assert JoinWith(ws, " ") == a + " " + j1;
    var q := a + " " + b;
    Assoc(q + " > output/", u, tail);
    Assoc(q, " > output/", v);
    Assoc(b, " ", j2);
    Assoc(a + " ", b, " " + j2);
  }


  /** With the substitution the whole file name is one shell word, and the parser recovers the name. */
  lemma CorrectedRedirect(a: string, b: string, nz: string, dof: string)
    requires IsToken(a) && IsToken(b) && a != ">" && b != ">"
    requires ' ' !in b && '.' !in a && '.' !in b
    ensures var file := a + "_" + b + "_output.txt";
            && RedirectTarget(CorrectedToolLine(a + " " + b, nz, dof)) == Some("output/" + file)
            && ToolKey(file) == a + "_" + b
  {
    var u := a + "_" + b;
    ReplaceSpace(a, b);
    var of := "output/" + u + "_output.txt";
    assert IsToken(of);
    assert IsToken(">") && IsToken("2>&1");
    var ws := [a, b, ">", of, "2>&1"];
    CorrectedLineWords(a, b, u);
    assert a + " " + b != "rdgpop" by {
      assert (a + " " + b)[|a|] == ' ';
    }
    CorrectedLineText(a + " " + b, u, nz, dof);
    Assoc("output/", u, "_output.txt");
    WordsTarget(ws);
    assert '.' !in u;
    KeyOfOutputName(u);
  }

  /** The corrected line of a tool other than `rdgpop`, with `u` its name with `_` for spaces. */
  lemma CorrectedLineText(tool: string, u: string, nz: string, dof: string)
    requires tool != "rdgpop" && ReplaceAll(tool, " ", "_") == u
    ensures CorrectedToolLine(tool, nz, dof) == tool + " > output/" + u + "_output.txt 2>&1"
  {
    PlainToolLine(tool, u, nz, dof);
  }

  /** Replacing the one space of `a b` (no space in `b`) gives `a_b`. */
  lemma ReplaceSpace(a: string, b: string)
    requires IsToken(a) && ' ' !in b
    ensures ReplaceAll(a + " " + b, " ", "_") == a + "_" + b
  {
    NoSpaceReplaced(b);
    ReplaceAppend(a, " " + b);
    var s := " " + b;
    assert StartsWith(s, " ");
    assert s[1..] == b;
    assert ReplaceAll(s, " ", "_") == "_" + b;
    Assoc(a, " ", b);
    Assoc(a, "_", b);
  }

  lemma NoSpaceReplaced(s: string)
    requires ' ' !in s
    ensures ReplaceAll(s, " ", "_") == s
  {
    forall k: nat ensures !OccursAt(s, " ", k) {
      if k + 1 <= |s| {
        assert s[k..k + 1][0] == s[k];
      }
    }
    assert IndexOf(s, " ").None?;
    ReplaceAbsent(s, " ", "_");
  }

  /** A space-free prefix is copied unchanged by the one-character replacement. */
  lemma {:induction false} ReplaceAppend(a: string, rest: string)
    requires ' ' !in a
    ensures ReplaceAll(a + rest, " ", "_") == a + ReplaceAll(rest, " ", "_")
    decreases |a|
  {
    if a != [] {
      var s := a + rest;
      assert s[0] == a[0] && a[0] != ' ';
      assert !StartsWith(s, " ") by { assert s[..1][0] == s[0]; }
      assert s[1..] == a[1..] + rest;
      assert ' ' !in a[1..];
      ReplaceAppend(a[1..], rest);
      Assoc([a[0]], a[1..], ReplaceAll(rest, " ", "_"));
      assert [a[0]] + a[1..] == a;
    } else {
      assert a + rest == rest;
    }
  }

  // ---------------------------------------------------------------- parser

  /** The results `_parse_quantics_output` finds; an absent key is `None`. */
  datatype QuanticsResults = QuanticsResults(totalEnergy: Option<real>, finalTime: Option<real>, converged: Option<bool>)

  /**
   * The number a line reports after `marker`: the last whitespace-separated word, when the line
   * holds the marker and `toFloat` (Python's `float`, an oracle) accepts the word.
   */
  function Reading(line: string, marker: string, toFloat: string -> Option<real>): Option<real> {
    if !Contains(line, marker) then None
    else
      var ws := Tokens(line);
      if ws == [] then None else toFloat(ws[|ws| - 1])
  }

  /** What a line says about convergence; `achieved` wins over `failed`. */
  function Verdict(line: string): Option<bool> {
    if Contains(line, "Convergence") && Contains(line, "achieved") then Some(true)
    else if Contains(line, "Convergence") && Contains(line, "failed") then Some(false)
    else None
  }

  /** The loop body: each reading that is present replaces the previous one. */
  function ScanLine(r: QuanticsResults, line: string, toFloat: string -> Option<real>): QuanticsResults {
    var e, t, c := Reading(line, "Total energy", toFloat), Reading(line, "Final time", toFloat), Verdict(line);
    QuanticsResults(if e.Some? then e else r.totalEnergy,
                    if t.Some? then t else r.finalTime,
                    if c.Some? then c else r.converged)
  }

  function Scan(lines: seq<string>, toFloat: string -> Option<real>): QuanticsResults {
    if lines == [] then QuanticsResults(None, None, None)
    else ScanLine(Scan(lines[..|lines| - 1], toFloat), lines[|lines| - 1], toFloat)
  }

  /** The `try: float(line.split()[-1])` of one marker; a word `float` rejects is passed over. */
  method ReadNumber(line: string, marker: string, toFloat: string -> Option<real>) returns (x: Option<real>)
    ensures x == Reading(line, marker, toFloat)
    ensures x.Some? ==> Contains(line, marker)
  {
    x := None;
    if Contains(line, marker) {
      var ws := Tokens(line);
      if ws != [] {
        x := toFloat(ws[|ws| - 1]);
      }
    }
  }

  /** `QuanticsAiidaParser._parse_quantics_output`. */
  method ParseQuanticsOutput(stdout: string, toFloat: string -> Option<real>) returns (r: QuanticsResults)
    ensures r == Scan(Split(stdout, "\n"), toFloat)
  {
    var lines := Split(stdout, "\n");
    r := QuanticsResults(None, None, None);
    var i := 0;
    while i < |lines|
      invariant 0 <= i <= |lines|
      invariant r == Scan(lines[..i], toFloat)
    {
      assert lines[..i + 1][..i] == lines[..i];
      var line := lines[i];
      var energy := ReadNumber(line, "Total energy", toFloat);
      if energy.Some? {
        r := r.(totalEnergy := energy);
      }
      var time := ReadNumber(line, "Final time", toFloat);
      if time.Some? {
        r := r.(finalTime := time);
      }
      if Contains(line, "Convergence") && Contains(line, "achieved") {
        r := r.(converged := Some(true));
      } else if Contains(line, "Convergence") && Contains(line, "failed") {
        r := r.(converged := Some(false));
      }
      i := i + 1;
    }
    assert lines[..|lines|] == lines;
  }

  /** The last present entry. */
  function LastOf<T>(xs: seq<Option<T>>): Option<T> {
    if xs == [] then None
    else if xs[|xs| - 1].Some? then xs[|xs| - 1]
    else LastOf(xs[..|xs| - 1])
  }

  /** `LastOf` is present iff some entry is, and then it is an entry with none present after it. */
  lemma {:induction false} LastOfSpec<T>(xs: seq<Option<T>>)
    ensures LastOf(xs).Some? <==> exists i :: 0 <= i < |xs| && xs[i].Some?
    ensures LastOf(xs).Some? ==>
              exists i :: 0 <= i < |xs| && xs[i] == LastOf(xs) && forall j :: i < j < |xs| ==> xs[j].None?
  {
    if xs != [] {
      var n := |xs| - 1;
      var init := xs[..n];
      LastOfSpec(init);
      if xs[n].None? {
        assert LastOf(xs) == LastOf(init);
        if i :| 0 <= i < |xs| && xs[i].Some? {
          assert init[i] == xs[i];
        }
        if LastOf(xs).Some? {
          var i :| 0 <= i < |init| && init[i] == LastOf(init) && forall j :: i < j < |init| ==> init[j].None?;
          assert xs[i] == init[i];
          forall j | i < j < |xs|
            ensures xs[j].None?
          {
            if j < n {
              assert xs[j] == init[j];
            }
          }
        }
      }
    }
  }

  /** The number each line reports after `marker`, line by line. */
  function Readings(lines: seq<string>, marker: string, toFloat: string -> Option<real>): (xs: seq<Option<real>>)
    ensures |xs| == |lines| && forall i :: 0 <= i < |lines| ==> xs[i] == Reading(lines[i], marker, toFloat)
  {
    seq(|lines|, i requires 0 <= i < |lines| => Reading(lines[i], marker, toFloat))
  }

  function Verdicts(lines: seq<string>): (xs: seq<Option<bool>>)
    ensures |xs| == |lines| && forall i :: 0 <= i < |lines| ==> xs[i] == Verdict(lines[i])
  {
    seq(|lines|, i requires 0 <= i < |lines| => Verdict(lines[i]))
  }

  /**
   * Each result is the one of the last line that reports it: the energy and the time of the last
   * line whose final word parses, the verdict of the last line that gives one.
   */
  lemma {:induction false} ScanIsLast(lines: seq<string>, toFloat: string -> Option<real>)
    ensures Scan(lines, toFloat).totalEnergy == LastOf(Readings(lines, "Total energy", toFloat))
    ensures Scan(lines, toFloat).finalTime == LastOf(Readings(lines, "Final time", toFloat))
    ensures Scan(lines, toFloat).converged == LastOf(Verdicts(lines))
  {
    if lines != [] {
      var init := lines[..|lines| - 1];
      ScanIsLast(init, toFloat);
      assert Readings(lines, "Total energy", toFloat)[..|lines| - 1] == Readings(init, "Total energy", toFloat);
      assert Readings(lines, "Final time", toFloat)[..|lines| - 1] == Readings(init, "Final time", toFloat);
      assert Verdicts(lines)[..|lines| - 1] == Verdicts(init);
    }
  }

  /** The parser's key for an analysis output file: the name with every `_output.txt` removed. */
  function ToolKey(filename: string): string {
    ReplaceAll(filename, "_output.txt", "")
  }

  /** A name without a dot is recovered from its output file name. */
  lemma {:induction false} KeyOfOutputName(u: string)
    requires '.' !in u
    ensures ToolKey(u + "_output.txt") == u
    decreases |u|
  {
    var pat := "_output.txt";
    var s := u + pat;
    if u == [] {
      assert s == pat && s[|pat|..] == [];
      assert StartsWith(s, pat);
    } else {
      assert !StartsWith(s, pat) by {
        if |u| > 7 {
          assert s[7] == u[7];
        } else {
          assert s[7] == pat[7 - |u|];
        }
      }
      assert s[1..] == u[1..] + pat;
      KeyOfOutputName(u[1..]);
    }
  }

  /** The names of `output/` that carry a tool result: they end in `_output.txt` and can be read. */
  predicate Carries(name: string, key: string, read: string -> Option<string>) {
    EndsWith(name, "_output.txt") && ToolKey(name) == key && read("output/" + name).Some?
  }

  /** The analysis results the loop in `parse` collects. */
  function AnalysisEntries(names: seq<string>, read: string -> Option<string>): map<string, string> {
    if names == [] then map[]
    else
      var m := AnalysisEntries(names[..|names| - 1], read);
      var name := names[|names| - 1];
      var content := read("output/" + name);
      if EndsWith(name, "_output.txt") && content.Some? then m[ToolKey(name) := content.value] else m
  }

  /** The filename loop of `QuanticsAiidaParser.parse`; an unreadable file is skipped. */
  method CollectAnalysis(names: seq<string>, read: string -> Option<string>) returns (results: map<string, string>)
    ensures results == AnalysisEntries(names, read)
  {
    results := map[];
    var i := 0;
    while i < |names|
      invariant 0 <= i <= |names|
      invariant results == AnalysisEntries(names[..i], read)
    {
      assert names[..i + 1][..i] == names[..i];
      var name := names[i];
      if EndsWith(name, "_output.txt") {
        var content := read("output/" + name);
        if content.Some? {
          results := results[ReplaceAll(name, "_output.txt", "") := content.value];
        }
      }
      i := i + 1;
    }
    assert names[..|names|] == names;
  }

  /** For each name, the text it gives `key`, if it gives it. */
  function TextsFor(names: seq<string>, key: string, read: string -> Option<string>): (xs: seq<Option<string>>)
    ensures |xs| == |names|
    ensures forall i :: 0 <= i < |names| ==>
              xs[i] == (if Carries(names[i], key, read) then read("output/" + names[i]) else None)
  {
    seq(|names|, i requires 0 <= i < |names| =>
      if Carries(names[i], key, read) then read("output/" + names[i]) else None)
  }

  /**
   * The text stored under a key is the last text any output file gives it (so, with `LastOfSpec`:
   * a key is present iff some readable `…_output.txt` file yields it, and the last such file wins).
   */
  lemma {:induction false} AnalysisEntriesLast(names: seq<string>, read: string -> Option<string>, key: string)
    ensures var m, last := AnalysisEntries(names, read), LastOf(TextsFor(names, key, read));
            && (key in m <==> last.Some?)
            && (key in m ==> m[key] == last.value)
  {
    if names != [] {
      var init, name := names[..|names| - 1], names[|names| - 1];
      AnalysisEntriesLast(init, read, key);
      assert TextsFor(names, key, read)[..|names| - 1] == TextsFor(init, key, read);
    }
  }

  /** Every name listed in `output/` can be opened, as the `output_folder` copy needs. */
  predicate FolderReadable(names: seq<string>, read: string -> Option<string>) {
    forall i :: 0 <= i < |names| ==> read("output/" + names[i]).Some?
  }

  /** The `output_folder` loop of `parse`: it copies each file and stops at the first one that fails to open. */
  method CopyOutputFolder(names: seq<string>, read: string -> Option<string>) returns (ok: bool)
    ensures ok <==> FolderReadable(names, read)
  {
    var i := 0;
    while i < |names|
      invariant 0 <= i <= |names|
      invariant FolderReadable(names[..i], read)
    {
      if read("output/" + names[i]).None? {
        return false;
      }
      assert names[..i + 1] == names[..i] + [names[i]];
      i := i + 1;
    }
    assert names[..i] == names;
    return true;
  }

  /** When every listed file opens, each `…_output.txt` name gives its key an analysis entry. */
  lemma {:induction false} ReadableFolderKeys(names: seq<string>, read: string -> Option<string>)
    requires FolderReadable(names, read)
    ensures forall i :: 0 <= i < |names| && EndsWith(names[i], "_output.txt") ==>
              ToolKey(names[i]) in AnalysisEntries(names, read)
  {
    if names != [] {
      var init := names[..|names| - 1];
      assert FolderReadable(init, read) by {
        forall i | 0 <= i < |init| ensures read("output/" + init[i]).Some? {
          assert init[i] == names[i];
        }
      }
      ReadableFolderKeys(init, read);
      forall i | 0 <= i < |names| && EndsWith(names[i], "_output.txt")
        ensures ToolKey(names[i]) in AnalysisEntries(names, read)
      {
        if i < |init| {
          assert init[i] == names[i];
        }
      }
    }
  }

  /** What `parse` returns: `ERROR_QUANTICS_FAILED` when a file it needs fails to open, or the outputs it registers. */
  datatype ParseOutcome =
    | ParseFailed(exitCode: nat)
    | Parsed(results: QuanticsResults, analysisResults: Option<map<string, string>>, outputFolder: bool)

  const ERROR_QUANTICS_FAILED: nat := 200

  /**
   * `QuanticsAiidaParser.parse` over the retrieved files (`read`) and the names in `output/`. A missing
   * `quantics.out` returns the error at once; a listed file that fails to open in the `output_folder`
   * copy reaches the catch-all `except`, which returns the same error.
   */
  method Parse(read: string -> Option<string>, outputNames: seq<string>, toFloat: string -> Option<real>)
    returns (o: ParseOutcome)
    ensures o.ParseFailed? ==> o.exitCode == ERROR_QUANTICS_FAILED
    ensures o.ParseFailed? <==> read("quantics.out").None? || !FolderReadable(outputNames, read)
    ensures o.Parsed? ==>
              && o.results == Scan(Split(read("quantics.out").value, "\n"), toFloat)
              && (o.analysisResults.Some? <==> AnalysisEntries(outputNames, read) != map[])
              && (o.analysisResults.Some? ==> o.analysisResults.value == AnalysisEntries(outputNames, read))
              && (o.outputFolder <==> outputNames != [])
    ensures o.Parsed? ==> forall i :: 0 <= i < |outputNames| && EndsWith(outputNames[i], "_output.txt") ==>
              o.analysisResults.Some? && ToolKey(outputNames[i]) in o.analysisResults.value
  {
    var stdout := read("quantics.out");
    if stdout.None? {
      return ParseFailed(ERROR_QUANTICS_FAILED);
    }
    var results := ParseQuanticsOutput(stdout.value, toFloat);
    var analysis := CollectAnalysis(outputNames, read);
    var copied := true;
    if outputNames != [] {
      copied := CopyOutputFolder(outputNames, read);
    }
    if !copied {
      return ParseFailed(ERROR_QUANTICS_FAILED);
    }
    ReadableFolderKeys(outputNames, read);
    o := Parsed(results, if analysis != map[] then Some(analysis) else None, outputNames != []);
  }

  // ---------------------------------------------------------------- integration layer

  /** What `orm.load_code(label)` does: finds a code, raises `NotExistent`, or raises anything else. */
  datatype CodeLookup = Loaded(code: string) | NotExistent | LookupFailed(message: string)

  /** The codes `_setup_code` tries, most preferred first; an absent label is `""`, which is skipped. */
  function CodeOptions(codeLabel: Option<string>): seq<string> {
    [codeLabel.GetOr(""), "quantics-hartree-fixed@hartree", "quantics-hartree@hartree", "quantics@localhost"]
  }

  /**
   * The code chosen from `options`: the first that loads; if none does, the first code the label query
   * `available` returns; any other failure leaves no code.
   */
  function CodeChoice(options: seq<string>, load: string -> CodeLookup, available: seq<string>): Option<string> {
    if options == [] then (if available != [] then Some(available[0]) else None)
    else if options[0] == "" then CodeChoice(options[1..], load, available)
    else match load(options[0])
         case Loaded(c) => Some(c)
         case NotExistent => CodeChoice(options[1..], load, available)
         case LookupFailed(_) => None
  }

  /** `options[i]` is tried and passed over. */
  predicate Skipped(option: string, load: string -> CodeLookup) {
    option == "" || load(option).NotExistent?
  }

  /** When every option is skipped the choice is the first available code, if any. */
  lemma {:induction false} CodeChoiceAllSkipped(options: seq<string>, load: string -> CodeLookup, available: seq<string>)
    requires forall i :: 0 <= i < |options| ==> Skipped(options[i], load)
    ensures CodeChoice(options, load, available) == (if available != [] then Some(available[0]) else None)
  {
    if options != [] {
      assert forall i :: 0 <= i < |options| - 1 ==> options[1..][i] == options[i + 1];
      CodeChoiceAllSkipped(options[1..], load, available);
    }
  }

  /**
   * When `options[k]` is the first option not skipped, the choice is its code if it loads, and no
   * code if its lookup fails otherwise.
   */
  lemma {:induction false} CodeChoiceFirstTried(options: seq<string>, load: string -> CodeLookup, available: seq<string>, k: nat)
    requires k < |options| && !Skipped(options[k], load)
    requires forall i :: 0 <= i < k ==> Skipped(options[i], load)
    ensures CodeChoice(options, load, available) ==
              (if load(options[k]).Loaded? then Some(load(options[k]).code) else None)
  {
    if k > 0 {
      assert Skipped(options[0], load);
      assert options[1..][k - 1] == options[k];
      assert forall i :: 0 <= i < k - 1 ==> options[1..][i] == options[i + 1];
      CodeChoiceFirstTried(options[1..], load, available, k - 1);
    }
  }

  /** A label the user gives that loads is the code used. */
  lemma UserCodeFirst(userLabel: string, load: string -> CodeLookup, available: seq<string>)
    requires userLabel != "" && load(userLabel).Loaded?
    ensures CodeChoice(CodeOptions(Some(userLabel)), load, available) == Some(load(userLabel).code)
  {
  }

  /** `QuanticsAiidaIntegration`, after its profile is loaded. */
  class Integration {
    var code: Option<string>

    /** `__init__` then `_setup_code(code_label)`. */
    constructor (codeLabel: Option<string>, load: string -> CodeLookup, available: seq<string>)
      ensures code == CodeChoice(CodeOptions(codeLabel), load, available)
    {
      code := None;
      new;
      SetupCode(codeLabel, load, available);
    }

    /** `_setup_code`: the candidates in order, then the label query. */
    method SetupCode(codeLabel: Option<string>, load: string -> CodeLookup, available: seq<string>)
      requires code.None?
      modifies this
      ensures code == CodeChoice(CodeOptions(codeLabel), load, available)
    {
      var options := CodeOptions(codeLabel);
      var i := 0;
      while i < |options|
        invariant 0 <= i <= |options|
        invariant code.None?
        invariant CodeChoice(options, load, available) == CodeChoice(options[i..], load, available)
      {
        var option := options[i];
        assert options[i..][1..] == options[i + 1..];
        if option != "" {
          var found := load(option);
          match found {
            case Loaded(c) =>
              code := Some(c);
              return;
            case NotExistent =>
            case LookupFailed(_) =>
              return;
          }
        }
        i := i + 1;
      }
      if available != [] {
        code := Some(available[0]);
      }
    }

    /**
     * The input checks of `submit_calculation` and the workchain inputs they lead to; the database
     * folder is looked up in `fs`, a relative one against the current directory `cwd`.
     */
    function Submission(inpFile: string, opFile: string, workflowType: string, dbFolder: Option<string>,
                        fs: FileSystem, cwd: string, runAnalysis: bool, analysisParams: Option<map<string, string>>)
      : (r: Result<WorkChainInputs>)
      reads this
      ensures r.Err? <==> code.None?
      ensures r.Ok? ==> && r.value.code == code.value && r.value.inpFile == inpFile && r.value.opFile == opFile
                        && r.value.workflowType == workflowType && r.value.runAnalysis == runAnalysis
      ensures r.Ok? ==> (r.value.dbFolder.Some? <==> dbFolder.Some? && Exists(fs, Join(cwd, dbFolder.value)))
                        && (r.value.dbFolder.Some? ==> r.value.dbFolder == dbFolder)
      ensures r.Ok? ==> (r.value.analysisParams.Some? <==> analysisParams.Some? && analysisParams.value != map[])
                        && (r.value.analysisParams.Some? ==> r.value.analysisParams == analysisParams)
    {
      if code.None? then Err("QUANTICS code not set up in AiiDA")
      else
        var db := if dbFolder.Some? && Exists(fs, Join(cwd, dbFolder.value)) then dbFolder else None;
        var params := if analysisParams.Some? && analysisParams.value != map[] then analysisParams else None;
        Ok(WorkChainInputs(code.value, inpFile, opFile, workflowType, runAnalysis, db, params))
    }
  }

  // ---------------------------------------------------------------- status and results

  /** `process.process_state`: missing, `None`, or a state whose `.value` is the text. */
  datatype ProcessState = NoStateAttribute | StateNone | State(value: string)

  /** What the adapter reads from a loaded process node; an absent output is `None`. */
  datatype ProcessNode = ProcessNode(pk: nat, processLabel: string, processState: ProcessState,
                                     ctime: string, mtime: string, isFinished: bool, isFinishedOk: bool,
                                     exitStatus: Option<int>,
                                     calculationResults: Option<map<string, Value>>,
                                     analysisResults: Option<map<string, Value>>,
                                     outputFiles: Option<seq<string>>)

  /** `process.label or f"QUANTICS_{process.pk}"`. */
  function DisplayLabel(node: ProcessNode): (s: string)
    ensures s != ""
  {
    if node.processLabel != "" then node.processLabel else "QUANTICS_" + NatToString(node.pk)
  }

  function OptInt(x: Option<int>): Value {
    match x
    case None => Null
    case Some(i) => Int(i)
  }

  /** `get_calculation_status`: any failure, including `.value` on a `None` state, becomes `{"error": …}`. */
  function CalculationStatus(pk: int, load: int -> Result<ProcessNode>): map<string, Value> {
    match load(pk)
    case Err(e) => map["error" := Str(e)]
    case Ok(node) =>
      if node.processState.StateNone? then map["error" := Str("'NoneType' object has no attribute 'value'")]
      else
        var state := if node.processState.State? then node.processState.value else "unknown";
        map["pk" := Int(node.pk), "label" := Str(DisplayLabel(node)), "state" := Str(state),
            "created" := Str(node.ctime),
            "finished" := (if node.isFinished then Str(node.mtime) else Null),
            "exit_status" := OptInt(node.exitStatus),
            "has_outputs" := Bool(node.calculationResults.Some? || node.analysisResults.Some?
                                  || node.outputFiles.Some?)]
  }

  /** The status dict either is exactly an error, or reports the node with a non-empty label and no error. */
  lemma StatusShape(pk: int, load: int -> Result<ProcessNode>)
    ensures var s := CalculationStatus(pk, load);
            && ("error" in s <==> load(pk).Err? || load(pk).value.processState.StateNone?)
            && ("error" in s ==> s.Keys == {"error"})
            && ("error" !in s ==>
                  && s.Keys == {"pk", "label", "state", "created", "finished", "exit_status", "has_outputs"}
                  && s["pk"] == Int(load(pk).value.pk) && s["label"].Str? && s["label"].s != ""
                  && (s["finished"] == Null <==> !load(pk).value.isFinished))
  {
  }

  /** `get_calculation_results`. */
  function CalculationResults(pk: int, load: int -> Result<ProcessNode>): map<string, Value> {
    match load(pk)
    case Err(e) => map["error" := Str(e)]
    case Ok(node) =>
      if !node.isFinishedOk then map["error" := Str("Calculation not completed successfully")]
      else
        var m1: map<string, Value> := if node.calculationResults.Some? then map["calculation" := Dict(node.calculationResults.value)] else map[];
        var m2 := if node.analysisResults.Some? then m1["analysis" := Dict(node.analysisResults.value)] else m1;
        if node.outputFiles.Some? then m2["output_files" := StrList(node.outputFiles.value)] else m2
  }

  /**
   * The results dict is an error exactly when the node cannot be loaded or did not finish ok;
   * otherwise it holds each of the three outputs exactly when the node has it.
   */
  lemma ResultsShape(pk: int, load: int -> Result<ProcessNode>)
    ensures var r := CalculationResults(pk, load);
            && ("error" in r <==> load(pk).Err? || !load(pk).value.isFinishedOk)
            && ("error" in r ==> r.Keys == {"error"})
            && ("error" !in r ==>
                  var node := load(pk).value;
                  && r.Keys <= {"calculation", "analysis", "output_files"}
                  && ("calculation" in r <==> node.calculationResults.Some?)
                  && ("analysis" in r <==> node.analysisResults.Some?)
                  && ("output_files" in r <==> node.outputFiles.Some?)
                  && ("calculation" in r ==> r["calculation"] == Dict(node.calculationResults.value))
                  && ("analysis" in r ==> r["analysis"] == Dict(node.analysisResults.value))
                  && ("output_files" in r ==> r["output_files"] == StrList(node.outputFiles.value)))
  {
  }
}
