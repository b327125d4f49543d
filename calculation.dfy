/**
 * `QuanticsCalculation` (src/runners/local_runner.py): the mutable record of one run, its
 * dictionary form for `calculations.json`, and the reconstruction from that form.
 */
module Calculations {
  import opened Wrappers
  import opened Json
  import opened Clock

  const CREATED := "created"
  const RUNNING := "running"
  const COMPLETED := "completed"
  const FAILED := "failed"

  /** The fields of a calculation at one moment. */
  datatype Record = Record(
    name: string,
    inpFile: Option<string>,
    opFile: Option<string>,
    dbFolder: Option<string>,
    workflowType: string,
    workingDirectory: Option<string>,
    status: string,
    startTime: Option<DateTime>,
    endTime: Option<DateTime>,
    results: map<string, Value>)

  /** The state `QuanticsCalculation(name)` starts in. */
  function Initial(name: string): Record {
    Record(name, None, None, None, "MCTDH", None, CREATED, None, None, map[])
  }

  /** Paths are non-empty texts and instants are in `datetime`'s range. */
  predicate WellFormed(r: Record) {
    && (r.inpFile.Some? ==> r.inpFile.value != "")
    && (r.opFile.Some? ==> r.opFile.value != "")
    && (r.dbFolder.Some? ==> r.dbFolder.value != "")
    && (r.workingDirectory.Some? ==> r.workingDirectory.value != "")
    && (r.startTime.Some? ==> Valid(r.startTime.value))
    && (r.endTime.Some? ==> Valid(r.endTime.value))
  }

  const DictKeys: set<string> :=
    {"name", "inp_file", "op_file", "db_folder", "workflow_type", "working_directory",
     "status", "start_time", "end_time", "results"}

  /** `str(p) if p else None`. */
  function PathText(p: Option<string>): Value {
    if p.Some? then Str(p.value) else Null
  }

  /** `t.isoformat() if t else None`. */
  function TimeText(t: Option<DateTime>): Value {
    if t.Some? then Str(IsoFormat(t.value)) else Null
  }

  /** `to_dict()`. */
  function Encode(r: Record): (d: map<string, Value>)
    ensures d.Keys == DictKeys
  {
    map[
      "name" := Str(r.name),
      "inp_file" := PathText(r.inpFile),
      "op_file" := PathText(r.opFile),
      "db_folder" := PathText(r.dbFolder),
      "workflow_type" := Str(r.workflowType),
      "working_directory" := PathText(r.workingDirectory),
      "status" := Str(r.status),
      "start_time" := TimeText(r.startTime),
      "end_time" := TimeText(r.endTime),
      "results" := Dict(r.results)
    ]
  }

  /** `Path(v) if v else None`; the outer `None` is the `TypeError` a truthy non-string raises. */
  function PathField(v: Value): Option<Option<string>> {
    if !Truthy(v) then Some(None)
    else if v.Str? then Some(Some(v.s))
    else if v.Path? then Some(Some(v.p))
    else None
  }

  /** `datetime.fromisoformat(v) if v else None`; the outer `None` is the error it raises. */
  function TimeField(v: Value): Option<Option<DateTime>> {
    if !Truthy(v) then Some(None)
    else if v.Str? then
      match FromIsoFormat(v.s)
      case None => None
      case Some(t) => Some(Some(t))
    else None
  }

  /**
   * `from_dict(data)`; `None` when it raises (a missing key, a bad path or timestamp), and also
   * when `name`, `workflow_type` or `status` is not a string or `results` not a dict: `from_dict`
   * stores such values as given, and the typed record cannot hold them.
   */
  function Decode(d: map<string, Value>): (r: Option<Record>)
    ensures r.Some? ==> DictKeys <= d.Keys && WellFormedTimes(r.value)
  {
    if !(DictKeys <= d.Keys) then None
    else if !d["name"].Str? || !d["workflow_type"].Str? || !d["status"].Str? || !d["results"].Dict? then None
    else
      var inp, op, db, wd := PathField(d["inp_file"]), PathField(d["op_file"]), PathField(d["db_folder"]),
                             PathField(d["working_directory"]);
      var start, end := TimeField(d["start_time"]), TimeField(d["end_time"]);
      if inp.None? || op.None? || db.None? || wd.None? || start.None? || end.None? then None
      else
        Some(Record(d["name"].s, inp.value, op.value, db.value, d["workflow_type"].s, wd.value,
                    d["status"].s, start.value, end.value, d["results"].fields))
  }

  predicate WellFormedTimes(r: Record) {
    (r.startTime.Some? ==> Valid(r.startTime.value)) && (r.endTime.Some? ==> Valid(r.endTime.value))
  }

  lemma PathFieldOfText(p: Option<string>)
    requires p.Some? ==> p.value != ""
    ensures PathField(PathText(p)) == Some(p)
  {
  }

  lemma {:induction false} TimeFieldOfText(t: Option<DateTime>)
    requires t.Some? ==> Valid(t.value)
    ensures TimeField(TimeText(t)) == Some(t)
  {
    if t.Some? {
      IsoRoundTrip(t.value);
      var s := IsoFormat(t.value);
      assert Truthy(Str(s));
    }
  }

  /** `from_dict(to_dict(c))` reproduces every field: paths through their text, instants through ISO text. */
  lemma {:induction false} DecodeEncode(r: Record)
    requires WellFormed(r)
    ensures Decode(Encode(r)) == Some(r)
  {
    PathFieldOfText(r.inpFile);
    PathFieldOfText(r.opFile);
    PathFieldOfText(r.dbFolder);
    PathFieldOfText(r.workingDirectory);
    TimeFieldOfText(r.startTime);
    TimeFieldOfText(r.endTime);
    EncodeFields(r);
    DecodeFields(Encode(r), r);
  }

  /** `from_dict` of any dict whose entries decode to the fields of `r`. */
  lemma DecodeFields(d: map<string, Value>, r: Record)
    requires DictKeys <= d.Keys
    requires d["name"] == Str(r.name) && d["workflow_type"] == Str(r.workflowType)
    requires d["status"] == Str(r.status) && d["results"] == Dict(r.results)
    requires PathField(d["inp_file"]) == Some(r.inpFile) && PathField(d["op_file"]) == Some(r.opFile)
    requires PathField(d["db_folder"]) == Some(r.dbFolder)
    requires PathField(d["working_directory"]) == Some(r.workingDirectory)
    requires TimeField(d["start_time"]) == Some(r.startTime) && TimeField(d["end_time"]) == Some(r.endTime)
    ensures Decode(d) == Some(r)
  {
  }

  lemma EncodeFields(r: Record)
    ensures var d := Encode(r);
            && d["name"] == Str(r.name) && d["workflow_type"] == Str(r.workflowType)
            && d["status"] == Str(r.status) && d["results"] == Dict(r.results)
            && d["inp_file"] == PathText(r.inpFile) && d["op_file"] == PathText(r.opFile)
            && d["db_folder"] == PathText(r.dbFolder) && d["working_directory"] == PathText(r.workingDirectory)
            && d["start_time"] == TimeText(r.startTime) && d["end_time"] == TimeText(r.endTime)
  {
  }

  /** A calculation object; the runner and its callers share it and update its fields in place. */
  class Calculation {
    var name: string
    var inpFile: Option<string>
    var opFile: Option<string>
    var dbFolder: Option<string>
    var workflowType: string
    var workingDirectory: Option<string>
    var status: string
    var startTime: Option<DateTime>
    var endTime: Option<DateTime>
    var results: map<string, Value>

    /** `QuanticsCalculation(name)`. */
    constructor (name: string)
      ensures Snapshot() == Initial(name)
    {
      this.name := name;
      inpFile, opFile, dbFolder := None, None, None;
      workflowType := "MCTDH";
      workingDirectory := None;
      status := CREATED;
      startTime, endTime := None, None;
      results := map[];
    }

    function Snapshot(): Record
      reads this
    {
      Record(name, inpFile, opFile, dbFolder, workflowType, workingDirectory, status, startTime, endTime, results)
    }

    /** `to_dict()`. */
    function ToDict(): (d: map<string, Value>)
      reads this
      ensures d.Keys == DictKeys
      ensures WellFormed(Snapshot()) ==> Decode(d) == Some(Snapshot())
    {
      if WellFormed(Snapshot()) then
        DecodeEncode(Snapshot());
        Encode(Snapshot())
      else Encode(Snapshot())
    }

    /** Overwrites every field with `r`. */
    method Assign(r: Record)
      modifies this
      ensures Snapshot() == r
    {
      name, inpFile, opFile, dbFolder := r.name, r.inpFile, r.opFile, r.dbFolder;
      workflowType, workingDirectory, status := r.workflowType, r.workingDirectory, r.status;
      startTime, endTime, results := r.startTime, r.endTime, r.results;
    }

    /** `QuanticsCalculation.from_dict(data)`: a new object, or `None` when the data does not decode (see `Decode`). */
    static method FromDict(data: map<string, Value>) returns (c: Option<Calculation>)
      ensures c.None? <==> Decode(data).None?
      ensures c.Some? ==> fresh(c.value) && c.value.Snapshot() == Decode(data).value
    {
      var r := Decode(data);
      if r.None? {
        return None;
      }
      var obj := new Calculation(r.value.name);
      obj.Assign(r.value);
      return Some(obj);
    }
  }
}
