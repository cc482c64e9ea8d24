/** JSON tokens as the order processor sees them through Newtonsoft.Json's JToken.
    Orders and items are JSON objects; a key that is not present reads as null. */
module JsonTokens {

  datatype Option<+T> = None | Some(value: T)

  /** A JSON token. Integers are unbounded here; the places where the source
      narrows them to a 32-bit int do so explicitly. */
  datatype Json =
    | JNull
    | JBool(b: bool)
    | JInt(n: int)
    | JString(s: string)
    | JArray(elems: seq<Json>)
    | JObject(fields: map<string, Json>)

  /** A JSON object: its properties by name. Orders and items are objects. */
  type Obj = map<string, Json>

  /** `obj[key]` on a JObject: the property's token, or null (None) when absent. */
  function Lookup(obj: Obj, key: string): Option<Json>
  {
    if key in obj then Some(obj[key]) else None
  }
}
