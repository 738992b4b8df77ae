/** The JSON values the gateway sends and receives, with the Python semantics
    of truthiness, `dict.get` and indexing that the code relies on. */
module Json {
  import opened Wrappers

  datatype Json =
    | JNull
    | JBool(b: bool)
    | JInt(i: int)
    | JReal(r: real)
    | JStr(s: string)
    | JArr(items: seq<Json>)
    | JObj(fields: map<string, Json>)

  /** Python's `bool(v)` on a decoded JSON value. */
  predicate Truthy(v: Json) {
    match v
    case JNull => false
    case JBool(b) => b
    case JInt(i) => i != 0
    case JReal(r) => r != 0.0
    case JStr(s) => s != ""
    case JArr(items) => items != []
    case JObj(fields) => fields != map[]
  }

  /** Python's truthiness of an optional string (`None` and `""` are false). */
  predicate TruthyStr(v: Option<string>) {
    v.Some? && v.value != ""
  }

  /** `d.get(k, default)` on a dictionary of keyword arguments: the stored value
      when the key is present (even when that value is null), else the default. */
  function GetOr(d: map<string, Json>, k: string, default: Json): (v: Json)
  {
    if k in d then d[k] else default
  }

  /** `v[k]` for a string key: defined only on an object holding the key
      (on anything else Python raises KeyError or TypeError). */
  function Field(v: Json, k: string): (r: Option<Json>)
  {
    if v.JObj? && k in v.fields then Some(v.fields[k]) else None
  }

  /** `v[0]`: the first element of a non-empty array. Indexing a string yields a
      one-character string on which every later key lookup of the gateway fails,
      so it is folded into the failure here. */
  function First(v: Json): (r: Option<Json>)
  {
    if v.JArr? && |v.items| > 0 then Some(v.items[0]) else None
  }

  /** `v.get(k)` on a decoded object: `None` when the key is absent or null. */
  function GetOpt(v: Json, k: string): (r: Option<Json>)
  {
    if v.JObj? && k in v.fields && v.fields[k] != JNull then Some(v.fields[k]) else None
  }
}
