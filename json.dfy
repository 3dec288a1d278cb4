/** `serde_json::Value`, the open JSON that a credential subject and a schema are made of.
    Numbers are integers; an object is a map from keys to values, as serde_json's default
    (sorted, duplicate-free) `Map` is. */
module Json {
  import opened Base

  datatype Json =
    | Null
    | Bool(b: bool)
    | Number(n: int)
    | String(s: string)
    | Array(items: seq<Json>)
    | Object(fields: map<string, Json>)

  /** `value.get(key)`: the member of an object, nothing for a missing key or a non-object. */
  function Get(v: Json, key: string): (r: Option<Json>)
    ensures r.Some? <==> v.Object? && key in v.fields
    ensures r.Some? ==> r.value == v.fields[key]
  {
    if v.Object? && key in v.fields then Some(v.fields[key]) else None
  }

  /** `value.as_str()`. */
  function AsStr(v: Json): (r: Option<string>)
    ensures r.Some? <==> v.String?
    ensures r.Some? ==> r.value == v.s
  {
    if v.String? then Some(v.s) else None
  }

  /** serde_json's text form: `Value::to_string` and `serde_json::from_str`.  The library
      promises that what it prints it parses back unchanged. */
  datatype TextCodec = TextCodec(toText: Json -> string, fromText: string -> Option<Json>)

  ghost predicate LawfulText(c: TextCodec) {
    forall v :: c.fromText(c.toText(v)) == Some(v)
  }
}
