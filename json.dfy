/**
 * An already-parsed JSON value, as `JSON.parse` returns it in the browser and
 * `json.dump` writes it on the simulator side. Text parsing itself is not modelled.
 */
module Json {
  import opened Wrappers

  datatype Value =
    | Null
    | Bool(b: bool)
    | Number(n: real)
    | Str(s: string)
    | Array(elems: seq<Value>)
    | Object(fields: map<string, Value>)

  /** What a browser storage key holds: nothing (or an empty string), text `JSON.parse` rejects, or a parsed value. */
  datatype Stored = Absent | Unparsable | Parsed(value: Value)

  /** Property access `v.key`: `None` stands for `undefined` (absent key, or not an object). */
  function Get(v: Value, key: string): (r: Option<Value>)
    ensures r.Some? <==> v.Object? && key in v.fields
    ensures r.Some? ==> r.value == v.fields[key]
  {
    if v.Object? && key in v.fields then Some(v.fields[key]) else None
  }

  /** JavaScript truthiness of a possibly-undefined value. */
  predicate Truthy(v: Option<Value>)
  {
    match v
    case None => false
    case Some(Null) => false
    case Some(Bool(b)) => b
    case Some(Number(n)) => n != 0.0
    case Some(Str(s)) => s != ""
    case Some(_) => true
  }

  /** `v.key` when it is a number. */
  predicate HasNumber(v: Value, key: string)
  {
    v.Object? && key in v.fields && v.fields[key].Number?
  }

  function NumberAt(v: Value, key: string): real
    requires HasNumber(v, key)
  {
    v.fields[key].n
  }

  /** `vs.map(d => d.key)` over samples that all carry the numeric field. */
  function Column(vs: seq<Value>, key: string): (c: seq<real>)
    requires forall i :: 0 <= i < |vs| ==> HasNumber(vs[i], key)
    ensures |c| == |vs|
    ensures forall i :: 0 <= i < |vs| ==> c[i] == NumberAt(vs[i], key)
  {
    seq(|vs|, i requires 0 <= i < |vs| => NumberAt(vs[i], key))
  }
}
