/**
 * src/eval.rs: turns a request envelope into one of four requests: start an
 * append ("as"), append a row ("a"), end the append ("ae") or run SQL
 * ("sql").
 */
module RsEval {
  import opened Wrappers
  import opened RsJson
  import opened RsIo

  /** `Params`: positional or named SQL parameters. */
  datatype Params = List(values: seq<JsonValue>) | Map(named: map<string, JsonValue>)

  /** `Request`. */
  datatype Request =
    | StartAppend(table: string)
    | EndAppend
    | AppendRow(row: seq<JsonValue>)
    | RunSql(sql: string, params: Option<Params>)

  /** `Error`: an unknown method or a parameter error with a fixed message. */
  datatype Error = UnknownMethod(name: string) | ParamsError(msg: string)

  /** `Display for Error`. */
  function Display(e: Error): (r: string)
    ensures e.UnknownMethod? ==> r == "unknown method: " + e.name
    ensures e.ParamsError? ==> r == "invalid params: " + e.msg
  {
    match e
    case UnknownMethod(m) => "unknown method: " + m
    case ParamsError(m) => "invalid params: " + m
  }

  /** `Params::try_from`: an array is positional, an object is named, anything else fails. */
  function ParamsFrom(v: JsonValue): (r: Result<Params, Error>)
    ensures r.Ok? <==> v.Array? || v.Object?
    ensures v.Array? ==> r == Ok(List(v.items))
    ensures v.Object? ==> r == Ok(Map(v.fields))
    ensures r.Err? ==> r.error == ParamsError("invalid params type")
  {
    match v
    case Array(a) => Ok(List(a))
    case Object(o) => Ok(Map(o))
    case _ => Err(ParamsError("invalid params type"))
  }

  /** `parse_start_append`: `t` must be present and a string. */
  function ParseStartAppend(params: map<string, JsonValue>): (r: Result<Request, Error>)
    ensures r.Ok? <==> "t" in params && AsStr(params["t"]).Some?
    ensures r.Ok? ==> r.value == StartAppend(AsStr(params["t"]).value)
    ensures "t" !in params ==> r == Err(ParamsError("param `t` not specified"))
    ensures "t" in params && AsStr(params["t"]).None? ==> r == Err(ParamsError("invalid type for param `t`"))
  {
    if "t" !in params then Err(ParamsError("param `t` not specified"))
    else match AsStr(params["t"])
      case None => Err(ParamsError("invalid type for param `t`"))
      case Some(t) => Ok(StartAppend(t))
  }

  /** `parse_append`: `r` must be present and an array, whose items are the row. */
  function ParseAppend(params: map<string, JsonValue>): (r: Result<Request, Error>)
    ensures r.Ok? <==> "r" in params && params["r"].Array?
    ensures r.Ok? ==> r.value == AppendRow(params["r"].items)
    ensures "r" !in params ==> r == Err(ParamsError("param `r` not specified"))
    ensures "r" in params && !params["r"].Array? ==> r == Err(ParamsError("invalid type for param `r`"))
  {
    if "r" !in params then Err(ParamsError("param `r` not specified"))
    else if params["r"].Array? then Ok(AppendRow(params["r"].items))
    else Err(ParamsError("invalid type for param `r`"))
  }

  /**
   * `parse_sql`: `q` must be a string (a missing and a mistyped `q` give the
   * same error); `p` is optional and checked only after `q`.
   */
  function ParseSql(params: map<string, JsonValue>): (r: Result<Request, Error>)
    ensures ("q" !in params || AsStr(params["q"]).None?) ==> r == Err(ParamsError("invalid query type"))
    ensures "q" in params && AsStr(params["q"]).Some? && "p" in params && ParamsFrom(params["p"]).Err? ==>
      r == Err(ParamsError("invalid params type"))
    ensures r.Ok? <==> "q" in params && AsStr(params["q"]).Some? && ("p" in params ==> ParamsFrom(params["p"]).Ok?)
    ensures r.Ok? ==> r.value.RunSql? && r.value.sql == AsStr(params["q"]).value
    ensures r.Ok? ==> (r.value.params.None? <==> "p" !in params)
    ensures r.Ok? && "p" in params ==> r.value.params == Some(ParamsFrom(params["p"]).value)
  {
    if "q" !in params || AsStr(params["q"]).None? then Err(ParamsError("invalid query type"))
    else
      var sql := AsStr(params["q"]).value;
      if "p" !in params then Ok(RunSql(sql, None))
      else match ParamsFrom(params["p"])
        case Err(e) => Err(e)
        case Ok(p) => Ok(RunSql(sql, Some(p)))
  }

  /** `parse`: dispatch on the method name. */
  function Parse(req: RpcRequest): (r: Result<Request, Error>)
    ensures req.methodName !in {"as", "a", "ae", "sql"} ==> r == Err(UnknownMethod(req.methodName))
    ensures req.methodName == "ae" ==> r == Ok(EndAppend)
    ensures req.methodName == "as" ==> r == ParseStartAppend(req.params)
    ensures req.methodName == "a" ==> r == ParseAppend(req.params)
    ensures req.methodName == "sql" ==> r == ParseSql(req.params)
  {
    match req.methodName
    case "as" => ParseStartAppend(req.params)
    case "a" => ParseAppend(req.params)
    case "ae" => Ok(EndAppend)
    case "sql" => ParseSql(req.params)
    case m => Err(UnknownMethod(m))
  }

  /** The method name and parameters a client sends for `r`. */
  function Encode(r: Request): (string, map<string, JsonValue>)
  {
    match r
    case StartAppend(t) => ("as", map["t" := Str(t)])
    case EndAppend => ("ae", map[])
    case AppendRow(row) => ("a", map["r" := Array(row)])
    case RunSql(q, None) => ("sql", map["q" := Str(q)])
    case RunSql(q, Some(List(vs))) => ("sql", map["q" := Str(q), "p" := Array(vs)])
    case RunSql(q, Some(Map(m))) => ("sql", map["q" := Str(q), "p" := Object(m)])
  }

  /** Every request survives being sent: parsing what a client sends for it gives it back. */
  lemma ParseEncode(r: Request, id: RequestId)
    ensures Parse(RpcRequest(id, Encode(r).0, Encode(r).1)) == Ok(r)
  {
    match r
    case StartAppend(t) =>
    case EndAppend =>
    case AppendRow(row) =>
    case RunSql(q, p) =>
  }

  /** "ae" ignores its parameters entirely. */
  lemma EndAppendIgnoresParams(id: RequestId, p1: map<string, JsonValue>, p2: map<string, JsonValue>)
    ensures Parse(RpcRequest(id, "ae", p1)) == Parse(RpcRequest(id, "ae", p2)) == Ok(EndAppend)
  {
  }
}
