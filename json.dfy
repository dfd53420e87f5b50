/** Parsed JSON values, as `JSON.parse` and `express.json()` hand them to the server. */
module Json {
  import opened Wrappers

  /**
   * A JSON value. Numbers are the reals a JSON text can spell (JSON has no NaN
   * or Infinity); object key order is not modelled.
   */
  datatype Value =
    | Null
    | Bool(b: bool)
    | Num(n: real)
    | Str(s: string)
    | Arr(items: seq<Value>)
    | Obj(fields: map<string, Value>)

  /** `v.key` in JavaScript: only objects carry own keys, anything else reads `undefined`. */
  function Field(v: Value, key: string): (r: Option<Value>)
    ensures r.Some? <==> v.Obj? && key in v.fields
    ensures r.Some? ==> r.value == v.fields[key]
  {
    if v.Obj? && key in v.fields then Some(v.fields[key]) else None
  }

  /** `v.key` on an optional body (`body?.key`). */
  function FieldOf(body: Option<Value>, key: string): (r: Option<Value>)
    ensures r.Some? <==> body.Some? && body.value.Obj? && key in body.value.fields
  {
    if body.Some? then Field(body.value, key) else None
  }

  /** True when the number has no fractional part (`Number.isInteger`). */
  predicate IsInteger(n: real)
  {
    n.Floor as real == n
  }
}
