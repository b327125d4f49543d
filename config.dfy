/**
 * Saving and loading the GUI configuration (src/utils/config.py): the two recursive
 * transforms between a config dict holding `Path` values and its JSON form, the defaults,
 * and load/save over a store of JSON documents.
 */
module Config {
  import opened Wrappers
  import opened Json
  import Clock

  /** The keys whose truthy values `_deserialize_config` turns into `Path` objects. */
  const PathKeys: set<string> :=
    {"inp_file", "op_file", "db_folder", "working_directory", "quantics_executable", "base_directory"}

  /** `_serialize_config` on one value. */
  function SerializeValue(v: Value): Value {
    match v
    case Path(p) => Str(p)
    case Dict(m) => Dict(map k | k in m :: SerializeValue(m[k]))
    case List(xs) => List(seq(|xs|, i requires 0 <= i < |xs| => if xs[i].Path? then Str(xs[i].p) else xs[i]))
    case _ => v
  }

  /** `_serialize_config(config)`: every key kept. */
  function Serialize(config: map<string, Value>): (r: map<string, Value>)
    ensures r.Keys == config.Keys
  {
    map k | k in config :: SerializeValue(config[k])
  }

  /** `Path(value)`: a string or a path is accepted, anything else raises `TypeError`. */
  function ToPath(v: Value): Option<Value> {
    match v
    case Str(s) => Some(Path(s))
    case Path(p) => Some(Path(p))
    case _ => None
  }

  /** `_deserialize_config` on the value stored under `key`; `None` when it raises. */
  function DeserializeValue(key: string, v: Value): Option<Value>
    decreases v, 1
  {
    if key in PathKeys && Truthy(v) then ToPath(v)
    else if v.Dict? then
      match Deserialize(v.fields)
      case None => None
      case Some(m) => Some(Dict(m))
    else Some(v)
  }

  /** `_deserialize_config(config)`; `None` when it raises. */
  function Deserialize(config: map<string, Value>): (r: Option<map<string, Value>>)
    ensures r.Some? ==> r.value.Keys == config.Keys
    decreases Dict(config), 0
  {
    if forall k | k in config :: DeserializeValue(k, config[k]).Some? then
      Some(map k | k in config :: DeserializeValue(k, config[k]).value)
    else None
  }

  /** `get_default_config()`. */
  function DefaultConfig(): (c: map<string, Value>)
    ensures "workflow_type" in c && "quantics_executable" in c && "rdgpop_nz" in c && "rdgpop_dof" in c
    ensures "calculation_name" in c && "analysis_tools" in c
    ensures c["workflow_type"] == Str("MCTDH") && c["quantics_executable"] == Str("quantics")
    ensures c["rdgpop_nz"] == Str("2") && c["rdgpop_dof"] == Str("1")
    ensures c["calculation_name"] == Str("my_quantics_run") && c["analysis_tools"] == List([])
  {
    map[
      "calculation_name" := Str("my_quantics_run"),
      "workflow_type" := Str("MCTDH"),
      "quantics_executable" := Str("quantics"),
      "working_directory" := Null,
      "inp_file" := Null,
      "op_file" := Null,
      "db_folder" := Null,
      "save_inputs" := Bool(true),
      "cleanup_on_success" := Bool(false),
      "analysis_tools" := List([]),
      "rdgpop_nz" := Str("2"),
      "rdgpop_dof" := Str("1"),
      "show_cmdline" := Bool(true),
      "execution_mode" := Str("local"),
      "aiida_resources" := Int(1),
      "aiida_walltime" := Int(3600),
      "aiida_queue" := Null
    ]
  }

  /** What a JSON file holds once `json.load` has read it, or text it cannot parse. */
  datatype Document = Parsed(v: Value) | Malformed

  /** `load_config(path)` over the JSON files in `store`. */
  function LoadConfig(store: map<string, Document>, path: string): (r: Option<map<string, Value>>)
    ensures path !in store ==> r.None?
    ensures path in store && store[path].Parsed? && store[path].v.Dict? ==> r == Deserialize(store[path].v.fields)
    ensures !(path in store && store[path].Parsed? && store[path].v.Dict?) ==> r.None?
  {
    if path !in store then None
    else match store[path]
      case Malformed => None
      case Parsed(v) => if v.Dict? then Deserialize(v.fields) else None
  }

  /**
   * `save_config(config, path)`: the file is `path`, or `quantics_config_<stamp>.json` for the
   * instant `now`.  `writable(target)` says whether creating the parent directory and opening the
   * file for writing succeed; when either raises, nothing is written.  `json.dump` fails on a `Path`
   * the serialiser left in place, leaving the file partly written.
   */
  function SaveConfig(store: map<string, Document>, writable: string -> bool, path: Option<string>,
                      now: Clock.DateTime, config: map<string, Value>): (r: (bool, map<string, Document>))
    ensures !writable(SaveTarget(path, now)) ==> r == (false, store)
    ensures writable(SaveTarget(path, now)) ==> r.1.Keys == store.Keys + {SaveTarget(path, now)}
    ensures forall p :: p in store && p != SaveTarget(path, now) ==> r.1[p] == store[p]
    ensures r.0 ==> r.1[SaveTarget(path, now)] == Parsed(Dict(Serialize(config)))
  {
    var target := SaveTarget(path, now);
    var json := Dict(Serialize(config));
    if !writable(target) then (false, store)
    else if NoPath(json) then (true, store[target := Parsed(json)])
    else (false, store[target := Malformed])
  }

  function SaveTarget(path: Option<string>, now: Clock.DateTime): string {
    match path
    case Some(p) => p
    case None => "quantics_config_" + Clock.Stamp(now) + ".json"
  }

  /** `Path` values sit only where the serialiser reaches them: under dict keys at any depth, or directly in a list. */
  predicate ShallowPaths(v: Value) {
    match v
    case Dict(m) => forall k :: k in m ==> ShallowPaths(m[k])
    case List(xs) => forall i :: 0 <= i < |xs| ==> xs[i].Path? || NoPath(xs[i])
    case _ => true
  }

  /** Serialising leaves no `Path` behind exactly when every `Path` is within its reach. */
  lemma {:induction false} SerializeRemovesPaths(v: Value)
    ensures NoPath(SerializeValue(v)) <==> ShallowPaths(v)
  {
    match v
    case Dict(m) =>
      var sm := map k | k in m :: SerializeValue(m[k]);
      assert SerializeValue(v) == Dict(sm);
      forall k | k in m ensures NoPath(sm[k]) <==> ShallowPaths(m[k]) {
        SerializeRemovesPaths(m[k]);
      }
      assert NoPath(Dict(sm)) <==> forall k :: k in sm ==> NoPath(sm[k]);
    case List(xs) =>
      var ys := SerializeValue(v).items;
      assert forall i :: 0 <= i < |xs| ==> (NoPath(ys[i]) <==> xs[i].Path? || NoPath(xs[i]));
    case _ =>
  }

  /** Saving succeeds exactly when the file can be written and every `Path` is within the serialiser's reach. */
  lemma SaveSucceeds(store: map<string, Document>, writable: string -> bool, path: Option<string>,
                     now: Clock.DateTime, config: map<string, Value>)
    ensures SaveConfig(store, writable, path, now, config).0
        <==> writable(SaveTarget(path, now)) && ShallowPaths(Dict(config))
  {
    SerializeRemovesPaths(Dict(config));
    assert Dict(Serialize(config)) == SerializeValue(Dict(config));
  }

  /** The value under `key` survives serialising then deserialising unchanged. */
  predicate RoundTrips(key: string, v: Value)
    decreases v
  {
    match v
    case Path(p) => key in PathKeys && p != ""
    case Dict(m) => !(key in PathKeys && Truthy(v)) && forall k :: k in m ==> RoundTrips(k, m[k])
    case List(xs) => !(key in PathKeys && Truthy(v)) && forall i :: 0 <= i < |xs| ==> !xs[i].Path?
    case _ => !(key in PathKeys && Truthy(v))
  }

  /** A config whose paths sit under path keys, and whose path keys hold only paths or falsy values. */
  predicate RoundTripSafe(config: map<string, Value>) {
    forall k :: k in config ==> RoundTrips(k, config[k])
  }

  lemma {:induction false} RoundTripValue(key: string, v: Value)
    requires RoundTrips(key, v)
    ensures DeserializeValue(key, SerializeValue(v)) == Some(v)
    decreases v
  {
    match v
    case Path(p) =>
    case Dict(m) =>
      forall k | k in m ensures DeserializeValue(k, SerializeValue(m[k])) == Some(m[k]) {
        RoundTripValue(k, m[k]);
      }
      var sm := map k | k in m :: SerializeValue(m[k]);
      assert SerializeValue(v) == Dict(sm);
      assert !Truthy(Dict(sm)) <==> !Truthy(v);
      forall k | k in sm ensures DeserializeValue(k, sm[k]) == Some(m[k]) {
      }
      assert (map k | k in sm :: DeserializeValue(k, sm[k]).value) == m;
      assert Deserialize(sm) == Some(m);
    case List(xs) =>
      assert SerializeValue(v).items == xs;
    case _ =>
  }

  /** `_deserialize_config(_serialize_config(c)) == c` for a round-trip-safe config. */
  lemma RoundTrip(config: map<string, Value>)
    requires RoundTripSafe(config)
    ensures Deserialize(Serialize(config)) == Some(config)
  {
    var s := Serialize(config);
    forall k | k in s ensures DeserializeValue(k, s[k]) == Some(config[k]) {
      RoundTripValue(k, config[k]);
    }
    assert (map k | k in s :: DeserializeValue(k, s[k]).value) == config;
  }

  /** Saving a round-trip-safe config succeeds iff its file can be written, and loading it then gives it back. */
  lemma SaveThenLoad(store: map<string, Document>, writable: string -> bool, path: string,
                     now: Clock.DateTime, config: map<string, Value>)
    requires RoundTripSafe(config) && ShallowPaths(Dict(config))
    ensures SaveConfig(store, writable, Some(path), now, config).0 <==> writable(path)
    ensures writable(path) ==> LoadConfig(SaveConfig(store, writable, Some(path), now, config).1, path) == Some(config)
  {
    SaveSucceeds(store, writable, Some(path), now, config);
    RoundTrip(config);
  }

  /** A `Path` under an ordinary key comes back as its string. */
  lemma PathBecomesString(config: map<string, Value>, key: string)
    requires key in config && key !in PathKeys && config[key].Path?
    ensures var r := Deserialize(Serialize(config));
            r.Some? ==> r.value[key] == Str(config[key].p)
  {
  }

  /** A non-empty string under a path key comes back as a `Path`. */
  lemma StringBecomesPath(config: map<string, Value>, key: string)
    requires key in config && key in PathKeys && config[key].Str? && config[key].s != ""
    ensures var r := Deserialize(Serialize(config));
            r.Some? ==> r.value[key] == Path(config[key].s)
  {
  }

  /** Deserialising converts exactly the truthy values under path keys; other values keep their shape. */
  lemma {:induction false} DeserializeShape(config: map<string, Value>, key: string)
    requires key in config && Deserialize(config).Some?
    ensures var r := Deserialize(config).value[key]; var v := config[key];
            && (key in PathKeys && Truthy(v) ==> (v.Str? && r == Path(v.s)) || (v.Path? && r == v))
            && (!(key in PathKeys && Truthy(v)) && !v.Dict? ==> r == v)
            && (!(key in PathKeys && Truthy(v)) && v.Dict? ==> r.Dict? && r.fields.Keys == v.fields.Keys)
  {
    var v := config[key];
    assert DeserializeValue(key, v).Some?;
    if key in PathKeys && Truthy(v) {
      assert v.Str? || v.Path?;
    }
  }

  /** Deserialising fails exactly when some truthy value under a path key is neither a string nor a path. */
  lemma {:induction false} DeserializeFails(config: map<string, Value>)
    ensures Deserialize(config).None? <==> exists k :: k in config && !Loadable(k, config[k])
  {
    forall k | k in config ensures DeserializeValue(k, config[k]).Some? <==> Loadable(k, config[k]) {
      LoadableValue(k, config[k]);
    }
  }

  predicate Loadable(key: string, v: Value)
    decreases v
  {
    if key in PathKeys && Truthy(v) then v.Str? || v.Path?
    else match v
      case Dict(m) => forall k :: k in m ==> Loadable(k, m[k])
      case _ => true
  }

  lemma {:induction false} LoadableValue(key: string, v: Value)
    ensures DeserializeValue(key, v).Some? <==> Loadable(key, v)
    decreases v
  {
    if !(key in PathKeys && Truthy(v)) && v.Dict? {
      forall k | k in v.fields ensures DeserializeValue(k, v.fields[k]).Some? <==> Loadable(k, v.fields[k]) {
        LoadableValue(k, v.fields[k]);
      }
    }
  }

  /** Reloading the saved defaults turns the executable name into a `Path` and keeps everything else. */
  lemma DefaultsReload()
    ensures Deserialize(Serialize(DefaultConfig()))
         == Some(DefaultConfig()["quantics_executable" := Path("quantics")])
  {
    DefaultsAreJson();
    DefaultsDeserialize();
  }

  lemma DefaultsAreJson()
    ensures Serialize(DefaultConfig()) == DefaultConfig()
  {
    var c := DefaultConfig();
    SerializeJson(Dict(c));
    assert Dict(Serialize(c)) == SerializeValue(Dict(c));
  }

  lemma DefaultsDeserialize()
    ensures Deserialize(DefaultConfig()) == Some(DefaultConfig()["quantics_executable" := Path("quantics")])
  {
    var c := DefaultConfig();
    var e := c["quantics_executable" := Path("quantics")];
    forall k | k in c ensures DeserializeValue(k, c[k]) == Some(e[k]) {
      if k != "quantics_executable" {
        assert !(k in PathKeys && Truthy(c[k]));
        assert !c[k].Dict?;
      }
    }
    assert (map k | k in c :: DeserializeValue(k, c[k]).value) == e;
  }

  /** On a value that is already JSON the serialiser changes nothing. */
  lemma {:induction false} SerializeJson(v: Value)
    requires NoPath(v)
    ensures SerializeValue(v) == v
  {
    match v
    case Dict(m) =>
      forall k | k in m ensures SerializeValue(m[k]) == m[k] {
        SerializeJson(m[k]);
      }
      assert (map k | k in m :: SerializeValue(m[k])) == m;
    case List(xs) =>
      assert SerializeValue(v).items == xs;
    case _ =>
  }
}
