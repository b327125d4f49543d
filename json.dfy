/**
 * The Python values held in configuration dicts, calculation records and result dicts:
 * the JSON types plus `pathlib.Path`.  A dict is a `map` (key order is not modelled).
 */
module Json {

  datatype Value =
    | Null
    | Bool(b: bool)
    | Int(i: int)
    | Float(x: real)
    | Str(s: string)
    | Path(p: string)
    | List(items: seq<Value>)
    | Dict(fields: map<string, Value>)

  /** Python truthiness (`if value:`); a `Path` object is always true. */
  predicate Truthy(v: Value) {
    match v
    case Null => false
    case Bool(b) => b
    case Int(i) => i != 0
    case Float(x) => x != 0.0
    case Str(s) => s != ""
    case Path(_) => true
    case List(xs) => xs != []
    case Dict(m) => m != map[]
  }

  /** No `Path` anywhere inside `v`: what `json.dump` accepts. */
  predicate NoPath(v: Value) {
    match v
    case Path(_) => false
    case List(xs) => forall i :: 0 <= i < |xs| ==> NoPath(xs[i])
    case Dict(m) => forall k :: k in m ==> NoPath(m[k])
    case _ => true
  }

  /** A list of Python strings. */
  function StrList(xs: seq<string>): (v: Value)
    ensures v.List? && |v.items| == |xs|
    ensures forall i :: 0 <= i < |xs| ==> v.items[i] == Str(xs[i])
  {
    List(seq(|xs|, i requires 0 <= i < |xs| => Str(xs[i])))
  }

  /** A dict of Python strings. */
  function StrDict(m: map<string, string>): (v: Value)
    ensures v.Dict? && v.fields.Keys == m.Keys
    ensures forall k :: k in m ==> v.fields[k] == Str(m[k])
  {
    Dict(map k | k in m :: Str(m[k]))
  }
}
