/**
 * A decoded JSON value as the Go server sees it after `json.Unmarshal` into
 * `any` (nil, bool, float64, string, []any, map[string]any) and as the PHP
 * client sees it after `json_decode`. Numbers are integers in this model.
 */
module Json {

  datatype Json =
    | Null
    | Bool(b: bool)
    | Number(n: int)
    | Str(s: string)
    | Array(items: seq<Json>)
    | Object(fields: map<string, Json>)

  /** The JSON value of a list of strings, such as a column name list. */
  function Strings(ss: seq<string>): (r: Json)
    ensures r.Array? && |r.items| == |ss|
    ensures forall i :: 0 <= i < |ss| ==> r.items[i] == Str(ss[i])
  {
    Array(seq(|ss|, i requires 0 <= i < |ss| => Str(ss[i])))
  }

  /** The JSON value of a list of rows, each row a list of values. */
  function Rows(rows: seq<seq<Json>>): (r: Json)
    ensures r.Array? && |r.items| == |rows|
    ensures forall i :: 0 <= i < |rows| ==> r.items[i] == Array(rows[i])
  {
    Array(seq(|rows|, i requires 0 <= i < |rows| => Array(rows[i])))
  }
}
