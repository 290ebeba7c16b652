/**
 * src/io.rs: the request envelope of the Rust prototype. A request line is a
 * JSON object with the method name under "@", a request id under "_", and
 * the parameters under every other key.
 */
module RsIo {
  import opened Wrappers
  import opened RsJson

  /** `RequestId`. The `Short` variant exists but is never built: short strings become `IdString`. */
  datatype RequestId = IdString(s: string) | IdShort(s: string) | IdNumber(n: int)

  /** `Error`: an I/O error, a JSON syntax error, or a format error with a fixed message. */
  datatype Error = Io(msg: string) | JsonError(msg: string) | Format(msg: string)

  /** `Display for Error`: I/O and JSON errors show their own text, format errors get a prefix. */
  function Display(e: Error): (r: string)
    ensures e.Format? ==> r == "format error: " + e.msg
    ensures !e.Format? ==> r == e.msg
  {
    match e
    case Io(m) => m
    case JsonError(m) => m
    case Format(m) => "format error: " + m
  }

  /** `RequestId::try_from`: strings of either kind and numbers are ids; anything else is a format error. */
  function RequestIdFrom(v: JsonValue): (r: Result<RequestId, Error>)
    ensures r.Ok? <==> v.Short? || v.Str? || v.Number?
    ensures r.Ok? ==> !r.value.IdShort?
    ensures (v.Short? || v.Str?) ==> r == Ok(IdString(v.s))
    ensures v.Number? ==> r == Ok(IdNumber(v.n))
    ensures r.Err? ==> r.error == Format("invalid request id type")
  {
    match v
    case Short(s) => Ok(IdString(s))
    case Str(s) => Ok(IdString(s))
    case Number(n) => Ok(IdNumber(n))
    case _ => Err(Format("invalid request id type"))
  }

  /** The JSON form of an id, as a client writes it. */
  function IdJson(id: RequestId): JsonValue
  {
    match id
    case IdString(s) => Str(s)
    case IdShort(s) => Short(s)
    case IdNumber(n) => Number(n)
  }

  datatype RpcRequest = RpcRequest(id: RequestId, methodName: string, params: map<string, JsonValue>)

  /** The outcome of `json::parse` on a line. */
  datatype Parse = Parsed(value: JsonValue) | Malformed(msg: string)

  /** The outcome of `read_line` followed by `json::parse`. */
  datatype LineRead = ReadFailed(io: string) | ReadLine(parsed: Parse)

  /**
   * `read_command` after the line read. The checks run in order: the line
   * parses, it is an object, "@" is present and a string, "_" is present
   * and a valid id. The parameters are the object without those two keys.
   */
  function ReadCommand(line: LineRead): (r: Result<RpcRequest, Error>)
    ensures line.ReadFailed? ==> r == Err(Io(line.io))
    ensures line.ReadLine? && line.parsed.Malformed? ==> r == Err(JsonError(line.parsed.msg))
    ensures line.ReadLine? && line.parsed.Parsed? && !line.parsed.value.Object? ==>
      r == Err(Format("request is not an object"))
    ensures line.ReadLine? && line.parsed.Parsed? && line.parsed.value.Object? ==>
      var obj := line.parsed.value.fields;
      && ("@" !in obj ==> r == Err(Format("method name key not present")))
      && ("@" in obj && AsStr(obj["@"]).None? ==> r == Err(Format("invalid method name value")))
      && ("@" in obj && AsStr(obj["@"]).Some? && "_" !in obj ==> r == Err(Format("request id key not present")))
      && ("@" in obj && AsStr(obj["@"]).Some? && "_" in obj && RequestIdFrom(obj["_"]).Err? ==>
            r == Err(Format("invalid request id type")))
    ensures r.Ok? ==>
      && line.ReadLine? && line.parsed.Parsed? && line.parsed.value.Object?
      && var obj := line.parsed.value.fields;
      && "@" in obj && "_" in obj
      && Some(r.value.methodName) == AsStr(obj["@"])
      && Ok(r.value.id) == RequestIdFrom(obj["_"])
      && r.value.params.Keys == obj.Keys - {"_", "@"}
      && (forall k :: k in r.value.params ==> r.value.params[k] == obj[k])
  {
    match line
    case ReadFailed(io) => Err(Io(io))
    case ReadLine(Malformed(m)) => Err(JsonError(m))
    case ReadLine(Parsed(v)) =>
      if !v.Object? then Err(Format("request is not an object"))
      else
        var obj := v.fields;
        if "@" !in obj then Err(Format("method name key not present"))
        else if AsStr(obj["@"]).None? then Err(Format("invalid method name value"))
        else if "_" !in obj then Err(Format("request id key not present"))
        else match RequestIdFrom(obj["_"])
          case Err(e) => Err(e)
          case Ok(id) => Ok(RpcRequest(id, AsStr(obj["@"]).value, obj - {"_", "@"}))
  }

  /** The request line a client writes for `req`. */
  function Envelope(req: RpcRequest): JsonValue
  {
    Object(req.params["@" := Str(req.methodName)]["_" := IdJson(req.id)])
  }

  /**
   * Reading back an envelope gives the request, provided its parameters do
   * not use the two reserved keys and its id is not the `Short` variant
   * (which reading never produces).
   */
  lemma ReadEnvelope(req: RpcRequest)
    requires "_" !in req.params && "@" !in req.params
    requires !req.id.IdShort?
    ensures ReadCommand(ReadLine(Parsed(Envelope(req)))) == Ok(req)
  {
    var obj := Envelope(req).fields;
    assert obj - {"_", "@"} == req.params;
  }

  /**
   * The method is checked before the id: a request whose method and id are
   * both bad reports the method.
   */
  lemma MethodBeforeId(obj: map<string, JsonValue>)
    requires "@" !in obj || AsStr(obj["@"]).None?
    ensures var r := ReadCommand(ReadLine(Parsed(Object(obj))));
      r.Err? && r.error.Format? && r.error.msg in {"method name key not present", "invalid method name value"}
  {
  }
}
