/** JSON values as they reach a schema check or leave a handler. */
module Json {
  import opened Wrappers

  /** An object is a map from keys to values; a key that is absent reads as `undefined`.
      Numbers are kept as integers: no schema of the model inspects a number. */
  datatype Json =
    | JNull
    | JBool(b: bool)
    | JNum(n: int)
    | JStr(s: string)
    | JArr(items: seq<Json>)
    | JObj(fields: map<string, Json>)

  /** The value of `key` in an object value, `None` when the key is absent or the value is no object. */
  function Get(v: Json, key: string): (r: Option<Json>)
    ensures r.Some? <==> v.JObj? && key in v.fields
    ensures r.Some? ==> r.value == v.fields[key]
  {
    if v.JObj? && key in v.fields then Some(v.fields[key]) else None
  }

  /** JSON text for a nullable string: `null` or the string. */
  function NullableStr(o: Option<string>): (r: Json)
    ensures r.JNull? <==> o.None?
    ensures o.Some? ==> r == JStr(o.value)
  {
    match o
    case None => JNull
    case Some(s) => JStr(s)
  }

  /** An object holding `key := value` when the value is present, and nothing otherwise:
      how a field set to `undefined` is dropped when the object is serialised. */
  function OptionalField(m: map<string, Json>, key: string, value: Option<Json>): (r: map<string, Json>)
    ensures value.None? ==> r == m
    ensures value.Some? ==> r == m[key := value.value]
  {
    if value.Some? then m[key := value.value] else m
  }
}
