/**
 * The JSON values of the Rust `json` crate, as the Rust prototype sees them
 * after parsing. Short strings and long strings are distinct variants, as in
 * the crate; numbers are integers.
 */
module RsJson {
  import opened Wrappers

  datatype JsonValue =
    | Null
    | Short(s: string)
    | Str(s: string)
    | Number(n: int)
    | Boolean(b: bool)
    | Object(fields: map<string, JsonValue>)
    | Array(items: seq<JsonValue>)

  /** `as_str`: the text of either kind of string, and nothing for any other value. */
  function AsStr(v: JsonValue): (r: Option<string>)
    ensures r.Some? <==> v.Short? || v.Str?
    ensures r.Some? ==> r.value == v.s
  {
    match v
    case Short(s) => Some(s)
    case Str(s) => Some(s)
    case _ => None
  }
}
