/**
 * src/input.rs: the newer command reader of the Rust prototype. It reads the
 * method from "@" and the query from "q" and "p" of the same object; only
 * "e" and "q" are implemented.
 */
module RsInput {
  import opened Wrappers
  import opened RsJson
  import RsIo

  /** The crate-level `Error` as this reader produces it. */
  datatype Error = Eof | General(msg: string) | Io(io: string) | JsonError(json: string)

  /**
   * `Query`: the SQL text and, when "p" was given, its items converted to
   * the engine's value type `V`.
   */
  datatype Query<V> = Query(sql: string, params: Option<seq<V>>)

  /** The two commands `read_command` builds. */
  datatype Command<V> = Execute(query: Query<V>) | QueryImmediate(query: Query<V>)

  /** What `read_command` does: return a command or an error, or stop at a `todo!()`. */
  datatype Outcome<V> = Read(cmd: Command<V>) | Failed(err: Error) | Unimplemented(tag: string)

  /** One `read_line`: it fails, reads nothing (end of input), or reads a line that is then parsed. */
  datatype LineIn = ReadError(io: string) | NothingRead | Line(parsed: RsIo.Parse)

  /** The tags that are recognised but reach `todo!()`. */
  function Pending(): set<string>
  {
    {"qh", "qr", "qrr", "a", "ar", "arr", "ae"}
  }

  /**
   * `read_query`: `q` must be present and a string; `p`, when present,
   * must be an array, whose items are converted one by one in order.
   */
  function ReadQuery<V>(obj: map<string, JsonValue>, into: JsonValue -> V): (r: Result<Query<V>, Error>)
    ensures "q" !in obj ==> r == Err(General("query key absent"))
    ensures "q" in obj && AsStr(obj["q"]).None? ==> r == Err(General("query not string"))
    ensures "q" in obj && AsStr(obj["q"]).Some? && "p" in obj && !obj["p"].Array? ==>
      r == Err(General("params not array"))
    ensures r.Ok? <==> "q" in obj && AsStr(obj["q"]).Some? && ("p" in obj ==> obj["p"].Array?)
    ensures r.Ok? ==> r.value.sql == AsStr(obj["q"]).value && (r.value.params.None? <==> "p" !in obj)
    ensures r.Ok? && "p" in obj ==>
      && |r.value.params.value| == |obj["p"].items|
      && forall i :: 0 <= i < |obj["p"].items| ==> r.value.params.value[i] == into(obj["p"].items[i])
  {
    if "q" !in obj then Err(General("query key absent"))
    else if AsStr(obj["q"]).None? then Err(General("query not string"))
    else
      var sql := AsStr(obj["q"]).value;
      if "p" !in obj then Ok(Query(sql, None))
      else if !obj["p"].Array? then Err(General("params not array"))
      else
        var arr := obj["p"].items;
        Ok(Query(sql, Some(seq(|arr|, i requires 0 <= i < |arr| => into(arr[i])))))
  }

  /**
   * `read_command`: end of input, a read error, a syntax error, a value that
   * is not an object, a missing or non-string "@", an unknown tag, or a bad
   * query each give an error; "e" and "q" give a command.
   */
  function ReadCommand<V>(line: LineIn, into: JsonValue -> V): (r: Outcome<V>)
    ensures line.NothingRead? ==> r == Failed(Eof)
    ensures line.ReadError? ==> r == Failed(Io(line.io))
    ensures line.Line? && line.parsed.Malformed? ==> r == Failed(JsonError(line.parsed.msg))
    ensures line.Line? && line.parsed.Parsed? && !line.parsed.value.Object? ==> r == Failed(General("request not object"))
    ensures line.Line? && line.parsed.Parsed? && line.parsed.value.Object? ==>
      var obj := line.parsed.value.fields;
      && ("@" !in obj ==> r == Failed(General("method key absent")))
      && ("@" in obj && AsStr(obj["@"]).None? ==> r == Failed(General("method not string")))
      && ("@" in obj && AsStr(obj["@"]).Some? ==>
            var tag := AsStr(obj["@"]).value;
            && (tag in Pending() ==> r == Unimplemented(tag))
            && (tag !in Pending() && tag != "e" && tag != "q" ==> r == Failed(General("method unknown")))
            && ((tag == "e" || tag == "q") && ReadQuery(obj, into).Err? ==> r == Failed(ReadQuery(obj, into).error))
            && (tag == "e" && ReadQuery(obj, into).Ok? ==> r == Read(Execute(ReadQuery(obj, into).value)))
            && (tag == "q" && ReadQuery(obj, into).Ok? ==> r == Read(QueryImmediate(ReadQuery(obj, into).value))))
  {
    match line
    case NothingRead => Failed(Eof)
    case ReadError(io) => Failed(Io(io))
    case Line(parsed) =>
      if parsed.Malformed? then Failed(JsonError(parsed.msg))
      else if !parsed.value.Object? then Failed(General("request not object"))
      else
        var obj := parsed.value.fields;
        if "@" !in obj then Failed(General("method key absent"))
        else match AsStr(obj["@"])
          case None => Failed(General("method not string"))
          case Some(tag) =>
            if tag == "e" || tag == "q" then
              match ReadQuery(obj, into)
              case Err(e) => Failed(e)
              case Ok(q) => if tag == "e" then Read(Execute(q)) else Read(QueryImmediate(q))
            else if tag in Pending() then Unimplemented(tag)
            else Failed(General("method unknown"))
  }

  /** The request line a client writes for `c`, with the parameters as JSON values. */
  function Request(c: Command<JsonValue>): JsonValue
  {
    var q := c.query;
    var fields := map["@" := Str(if c.Execute? then "e" else "q"), "q" := Str(q.sql)];
    Object(if q.params.Some? then fields["p" := Array(q.params.value)] else fields)
  }

  /** Reading back what a client writes gives the command, when values are kept as JSON. */
  lemma ReadRequest(c: Command<JsonValue>)
    ensures ReadCommand(Line(RsIo.Parsed(Request(c))), (v: JsonValue) => v) == Read(c)
  {
    var into := (v: JsonValue) => v;
    var obj := Request(c).fields;
    var r := ReadQuery(obj, into);
    assert r.Ok?;
    if c.query.params.Some? {
      assert r.value.params.value == c.query.params.value;
    }
    assert r.value == c.query;
  }
}
