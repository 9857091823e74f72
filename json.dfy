/**
 * The shape of a decoded JSON document (`serde_json::Value`) as far as the
 * client inspects it: indexing an object by key and reading a string.
 * Decoding text into a value is not modelled; decoded values are inputs.
 */
module Json {
  import opened Wrappers

  datatype Value =
    | Null
    | Bool(b: bool)
    | Number(text: string)
    | String(s: string)
    | Array(items: seq<Value>)
    | Object(fields: map<string, Value>)

  /** `v[key]`: the member's value, or Null for a missing key or a value that is not an object. */
  function Index(v: Value, key: string): (r: Value)
    ensures r != Null ==> v.Object? && key in v.fields && r == v.fields[key]
  {
    if v.Object? && key in v.fields then v.fields[key] else Null
  }

  /** `Value::as_str`: the text of a String value, None for every other kind. */
  function AsStr(v: Value): (r: Option<string>)
    ensures r.Some? <==> v.String?
    ensures r.Some? ==> r.value == v.s
  {
    if v.String? then Some(v.s) else None
  }
}
