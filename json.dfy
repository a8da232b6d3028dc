/** Parsed JSON request bodies: what `request.json()` hands to the zod schemas. */
module Json {
  import opened Wrappers

  /** A JSON value. An object maps each present key to its value; an absent key is `undefined`. */
  datatype Json =
    | JNull
    | JBool(b: bool)
    | JNum(n: real)
    | JStr(s: string)
    | JArr(elems: seq<Json>)
    | JObj(fields: map<string, Json>)

  /** `obj[key]`, `None` when the key is absent (`undefined`). */
  function Get(fields: map<string, Json>, key: string): Option<Json> {
    if key in fields then Some(fields[key]) else None
  }
}
