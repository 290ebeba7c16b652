/**
 * io.go: the command tags, the decoding of one request line into a command
 * tag and an argument map, and the validation of a query's `q` and `p`.
 */
module GoIo {
  import opened Wrappers
  import opened Json
  import opened GoUtil

  const CommandExecute: string := "e"
  const CommandEnd: string := "x"
  const CommandQueryImmediate: string := "qq"
  const CommandQuery: string := "q"
  const CommandQueryFetch: string := "qf"
  const CommandQueryRelease: string := "qx"
  const CommandAppender: string := "a"
  const CommandAppenderInsert: string := "ai"
  const CommandAppenderRelease: string := "ax"

  /** Every command tag, in declaration order. */
  function Tags(): seq<string>
  {
    [CommandExecute, CommandEnd, CommandQueryImmediate, CommandQuery, CommandQueryFetch,
     CommandQueryRelease, CommandAppender, CommandAppenderInsert, CommandAppenderRelease]
  }

  /** No two commands share a tag, so dispatch on the tag is unambiguous. */
  lemma TagsDistinct()
    ensures |Tags()| == 9
    ensures forall i, j :: 0 <= i < j < |Tags()| ==> Tags()[i] != Tags()[j]
  {
  }

  /**
   * What the JSON decoder made of a request line: a well-formed JSON value,
   * or a syntax error. The text itself is not modelled.
   */
  datatype Decoded = Parsed(value: Json) | SyntaxError(msg: string)

  /** `RpcMsg`: the command tag and the remaining arguments. */
  datatype RpcMsg = RpcMsg(command: string, args: map<string, Json>)

  /** The JSON type name `encoding/json` reports when a value cannot fill a map. */
  function KindName(v: Json): string
  {
    match v
    case Null => "null"
    case Bool(_) => "bool"
    case Number(_) => "number"
    case Str(_) => "string"
    case Array(_) => "array"
    case Object(_) => "object"
  }

  /** True when `v` is an object whose "@" member is a string. */
  predicate HasMethod(v: Json)
  {
    v.Object? && "@" in v.fields && v.fields["@"].Str?
  }

  /**
   * `RpcMsg.UnmarshalJSON`. Decoding into a `map[string]any` accepts an
   * object, leaves the map nil for `null` and fails for any other value; the
   * command is the string under "@" and the arguments are everything else.
   */
  function Unmarshal(d: Decoded): (r: Result<RpcMsg, Error>)
    ensures r.Ok? <==> d.Parsed? && HasMethod(d.value)
    ensures r.Ok? ==> r.value.command == d.value.fields["@"].s
    ensures r.Ok? ==> r.value.args == d.value.fields - {"@"} && "@" !in r.value.args
    ensures r.Ok? ==> forall k :: k in d.value.fields && k != "@" ==> k in r.value.args && r.value.args[k] == d.value.fields[k]
    ensures d.Parsed? && (d.value.Null? || d.value.Object?) && !HasMethod(d.value) ==> r == Err(Failure("no method key"))
    ensures d.SyntaxError? ==> r == Err(Failure(d.msg))
  {
    match d
    case SyntaxError(m) => Err(Failure(m))
    case Parsed(v) =>
      if v.Object? || v.Null? then
        var data := if v.Object? then v.fields else map[];
        if "@" in data && data["@"].Str? then Ok(RpcMsg(data["@"].s, data - {"@"}))
        else Err(Failure("no method key"))
      else Err(Failure("json: cannot unmarshal " + KindName(v) + " into Go value of type map[string]interface {}"))
  }

  /** `Query`: the SQL text and its positional arguments. */
  datatype Query = Query(sql: string, args: seq<Json>)

  /**
   * `parseQuery`: `q` must be a string; `p` is optional but, when present,
   * must be a list. `q` is checked first.
   */
  function ParseQuery(data: map<string, Json>): (r: Result<Query, Error>)
    ensures r.Ok? <==> "q" in data && data["q"].Str? && ("p" in data ==> data["p"].Array?)
    ensures r.Ok? ==> r.value.sql == data["q"].s
    ensures r.Ok? ==> r.value.args == (if "p" in data then data["p"].items else [])
    ensures !("q" in data && data["q"].Str?) ==> r == Err(GetString(data, "q").error)
    ensures "q" in data && data["q"].Str? && "p" in data && !data["p"].Array? ==> r == Err(InvalidType("p"))
  {
    match GetString(data, "q")
    case Err(e) => Err(e)
    case Ok(sql) =>
      match GetArray(data, "p")
      case Err(e) => if e.MissingKey? then Ok(Query(sql, [])) else Err(e)
      case Ok(args) => Ok(Query(sql, args))
  }
}
