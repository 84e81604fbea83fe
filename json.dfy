/** The part of `serde_json::Value` the core relies on: the value tree, the
    read-only `v["key"]` lookup and the `as_str` / array accessors. */
module Json {
  import opened Wrappers

  datatype Json =
    | Null
    | Bool(b: bool)
    | Num(n: int)
    | Str(s: string)
    | Arr(items: seq<Json>)
    | Obj(fields: map<string, Json>)

  /** `v[key]` on a shared value: a missing key, or a value that is not an
      object, reads as `Null`. */
  function Index(v: Json, key: string): (r: Json)
    ensures v.Obj? && key in v.fields ==> r == v.fields[key]
    ensures !(v.Obj? && key in v.fields) ==> r == Null
  {
    if v.Obj? && key in v.fields then v.fields[key] else Null
  }

  /** `v.as_str()`: the text of a JSON string, nothing for any other value. */
  function AsStr(v: Json): (r: Option<string>)
    ensures r.Some? <==> v.Str?
    ensures r.Some? ==> v == Str(r.value)
  {
    if v.Str? then Some(v.s) else None
  }

  /** The string stored under `key`, as `v[key].as_str()` reads it. */
  function StrField(v: Json, key: string): (r: Option<string>)
    ensures r.Some? <==> v.Obj? && key in v.fields && v.fields[key].Str?
    ensures r.Some? ==> v.fields[key] == Str(r.value)
  {
    AsStr(Index(v, key))
  }
}
