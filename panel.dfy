/**
 * What the two windows share: the analysis tool list, whose items read `"<tool> - <description>"`,
 * the recovery of the selected tool names from it, the text defaults of `collect_config`, and the
 * form checks of `validate_inputs`.  Widget state is plain data: the list is a sequence of items,
 * each a text and whether it is selected.
 */
module Panel {
  import opened Wrappers
  import opened Text
  import opened Disk

  /** A window's `workflow_analysis_map`: per workflow type, (tool, description) pairs in display order. */
  type ToolMap = map<string, seq<(string, string)>>

  datatype Item = Item(text: string, selected: bool)

  /** The tool names of a type's entries (none for an unknown type). */
  function ToolsOf(m: ToolMap, workflowType: string): (tools: seq<string>)
    ensures workflowType in m ==> |tools| == |m[workflowType]|
                                  && forall i :: 0 <= i < |tools| ==> tools[i] == m[workflowType][i].0
    ensures workflowType !in m ==> tools == []
  {
    if workflowType in m then
      var entries := m[workflowType];
      seq(|entries|, i requires 0 <= i < |entries| => entries[i].0)
    else []
  }

  /** An item's text. */
  function Label(tool: string, description: string): string {
    tool + " - " + description
  }

  /** `update_analysis_tools`: the list is cleared, then gets one item per tool of a known type, in map order. */
  function Listing(m: ToolMap, workflowType: string): (texts: seq<string>)
    ensures workflowType !in m ==> texts == []
    ensures workflowType in m ==> texts == Labels(m[workflowType])
  {
    if workflowType in m then Labels(m[workflowType]) else []
  }

  /** `text.split(" - ")[0]`. */
  function LabelTool(text: string): string {
    Split(text, " - ")[0]
  }

  /** The label keeps the tool name recoverable when the name has no dash. */
  lemma LabelRoundTrip(tool: string, description: string)
    requires '-' !in tool
    ensures LabelTool(Label(tool, description)) == tool
  {
    var s := Label(tool, description);
    assert s == tool + (" - " + description);
    assert s[..|tool| + 3] == tool + " - ";
    assert OccursAt(s, " - ", |tool|);
    ContainsAt(s, " - ", |tool|);
    forall j | 0 <= j < |tool|
      ensures !OccursAt(s, " - ", j)
    {
      assert s[j + 1] != '-' by {
        if j + 1 < |tool| {
          assert s[j + 1] == tool[j + 1];
        }
      }
      assert j + 3 <= |s| ==> s[j..j + 3][1] == s[j + 1];
    }
    var r := Before(s, " - ");
    assert |r| == |tool| by {
      assert !(|r| < |tool|);
      assert !(|r| > |tool|);
    }
  }

  /** The selected items' tool names, in list order. */
  function Selected(items: seq<Item>): (tools: seq<string>)
    ensures |tools| <= |items|
  {
    if items == [] then []
    else
      var last := items[|items| - 1];
      Selected(items[..|items| - 1]) + (if last.selected then [LabelTool(last.text)] else [])
  }

  /** The loop of `collect_config` over the analysis list. */
  method SelectedTools(items: seq<Item>) returns (tools: seq<string>)
    ensures tools == Selected(items)
  {
    tools := [];
    var i := 0;
    while i < |items|
      invariant 0 <= i <= |items|
      invariant tools == Selected(items[..i])
    {
      assert items[..i + 1][..i] == items[..i];
      if items[i].selected {
        tools := tools + [LabelTool(items[i].text)];
      }
      i := i + 1;
    }
    assert items[..|items|] == items;
  }

  /** Some tool is recovered exactly when some item is selected (`run_analysis = bool(tools)`). */
  lemma {:induction false} SelectedNonEmpty(items: seq<Item>)
    ensures Selected(items) != [] <==> exists i :: 0 <= i < |items| && items[i].selected
  {
    if items != [] {
      var init := items[..|items| - 1];
      SelectedNonEmpty(init);
      assert forall i :: 0 <= i < |init| ==> init[i] == items[i];
      if items[|items| - 1].selected {
        assert Selected(items) != [];
      } else {
        assert Selected(items) == Selected(init);
      }
    }
  }

  /** The list as displayed, with a selection flag per item. */
  function Shown(texts: seq<string>, flags: seq<bool>): (items: seq<Item>)
    requires |texts| == |flags|
    ensures |items| == |texts|
    ensures forall i :: 0 <= i < |items| ==> items[i] == Item(texts[i], flags[i])
  {
    seq(|texts|, i requires 0 <= i < |texts| => Item(texts[i], flags[i]))
  }

  /** The names of the flagged entries, in order: what the user chose. */
  function Chosen(entries: seq<(string, string)>, flags: seq<bool>): seq<string>
    requires |entries| == |flags|
  {
    if entries == [] then []
    else (if flags[0] then [entries[0].0] else []) + Chosen(entries[1..], flags[1..])
  }

  lemma {:induction false} ChosenAppend(entries: seq<(string, string)>, flags: seq<bool>, e: (string, string), f: bool)
    requires |entries| == |flags|
    ensures Chosen(entries + [e], flags + [f]) == Chosen(entries, flags) + (if f then [e.0] else [])
    decreases |entries|
  {
    if entries == [] {
      assert (entries + [e])[1..] == [] && (flags + [f])[1..] == [];
    } else {
      assert (entries + [e])[1..] == entries[1..] + [e];
      assert (flags + [f])[1..] == flags[1..] + [f];
      ChosenAppend(entries[1..], flags[1..], e, f);
    }
  }

  /** The item texts of a list of entries. */
  function Labels(entries: seq<(string, string)>): (texts: seq<string>)
    ensures |texts| == |entries|
    ensures forall i :: 0 <= i < |texts| ==> texts[i] == Label(entries[i].0, entries[i].1)
  {
    seq(|entries|, i requires 0 <= i < |entries| => Label(entries[i].0, entries[i].1))
  }

  /**
   * Reading the selection back from the displayed list gives exactly the chosen tools, in map
   * order, as long as no tool name holds a dash.
   */
  lemma {:induction false} SelectionRecoversTools(entries: seq<(string, string)>, flags: seq<bool>)
    requires |entries| == |flags|
    requires forall i :: 0 <= i < |entries| ==> '-' !in entries[i].0
    ensures Selected(Shown(Labels(entries), flags)) == Chosen(entries, flags)
    decreases |entries|
  {
    if entries != [] {
      var n := |entries| - 1;
      var items := Shown(Labels(entries), flags);
      assert items[..n] == Shown(Labels(entries[..n]), flags[..n]);
      SelectionRecoversTools(entries[..n], flags[..n]);
      LabelRoundTrip(entries[n].0, entries[n].1);
      assert entries == entries[..n] + [entries[n]] && flags == flags[..n] + [flags[n]];
      ChosenAppend(entries[..n], flags[..n], entries[n], flags[n]);
    }
  }

  // ---------------------------------------------------------------- the form

  /** The configuration fields both windows show, as the texts and flags they hold. */
  datatype Form = Form(calculationName: string, workflowType: string, inpFile: string, opFile: string,
                       dbFolder: string, quanticsExecutable: string, workingDirectory: string,
                       analysisItems: seq<Item>, rdgpopNz: string, rdgpopDof: string, showCmdline: bool)

  /** `text.strip() or default`. */
  function OrDefault(text: string, default: string): (r: string)
    ensures Strip(text) != "" ==> r == Strip(text)
    ensures Strip(text) == "" ==> r == default
  {
    if Strip(text) != "" then Strip(text) else default
  }

  /** `text if text else None`. */
  function NonEmpty(text: string): (r: Option<string>)
    ensures r.Some? <==> text != ""
    ensures r.Some? ==> r.value == text
  {
    if text != "" then Some(text) else None
  }

  /** A defaulted field is never blank and never has surrounding whitespace. */
  lemma OrDefaultClean(text: string, default: string)
    requires default != "" && default == Strip(default)
    ensures OrDefault(text, default) != ""
    ensures Strip(OrDefault(text, default)) == OrDefault(text, default)
  {
    var t := Strip(text);
    if t != "" {
      StripSpec(text);
      StripClean(t);
    }
  }

  /** The outcome of `validate_inputs`: go on, or the warning box it shows before returning `False`. */
  datatype Check = Passed | Warning(title: string, message: string)

  /** `text and Path(text).exists()`, a relative path being looked up from the current directory. */
  predicate PathGiven(fs: FileSystem, cwd: string, text: string) {
    text != "" && Exists(fs, Join(cwd, text))
  }

  /** `validate_inputs`: the checks run in order and the first failing one decides the warning. */
  function ValidateInputs(form: Form, fs: FileSystem, cwd: string): (c: Check)
    ensures c.Passed? <==> && Strip(form.calculationName) != ""
                           && PathGiven(fs, cwd, form.inpFile) && PathGiven(fs, cwd, form.opFile)
                           && (form.workflowType == "DD-vMCG" ==> PathGiven(fs, cwd, form.dbFolder))
    ensures Strip(form.calculationName) == "" <==> c.Warning? && c.title == "Input Error"
    ensures c.Warning? && c.title == "Folder Error" ==> form.workflowType == "DD-vMCG"
    ensures c.Warning? ==> c.title in {"Input Error", "File Error", "Folder Error"}
  {
    if Strip(form.calculationName) == "" then
      Warning("Input Error", "Please provide a calculation name")
    else if !PathGiven(fs, cwd, form.inpFile) then
      Warning("File Error", "Please select a valid .inp file")
    else if !PathGiven(fs, cwd, form.opFile) then
      Warning("File Error", "Please select a valid .op file")
    else if form.workflowType == "DD-vMCG" && !PathGiven(fs, cwd, form.dbFolder) then
      Warning("Folder Error", "DD-vMCG workflow requires a valid DB folder")
    else Passed
  }

  /** Only DD-vMCG looks at the database folder: for any other type the folder field cannot change the verdict. */
  lemma ValidateIgnoresFolder(form: Form, fs: FileSystem, cwd: string, folder: string)
    requires form.workflowType != "DD-vMCG"
    ensures ValidateInputs(form.(dbFolder := folder), fs, cwd) == ValidateInputs(form, fs, cwd)
  {
  }
}
