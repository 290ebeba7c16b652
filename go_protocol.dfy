/**
 * What the two Go servers (server/server.go and the older server.go) share:
 * the shape of their input, the answers of the database for one request,
 * the outcome of one turn of the session, and the response objects.
 */
module GoProtocol {
  import opened Wrappers
  import opened Json
  import opened GoUtil
  import opened GoIo
  import opened GoRows
  import opened GoAppender

  /** One `ReadBytes('\n')` on stdin. */
  datatype ReadResult = Line(doc: Decoded) | Eof | UnexpectedEof | ReadError(msg: string)

  /**
   * The database's answers to whatever one request asks of it: `Exec`,
   * `Query`, a fresh `Conn`, opening an appender, each row append (by row
   * index; a missing entry is success), the flush and the close.
   */
  datatype Env = Env(
    exec: Option<string>,
    query: QueryOutcome,
    conn: Option<string>,
    open: OpenOutcome,
    appendErrs: seq<Option<string>>,
    flushErr: Option<string>,
    closeErr: Option<string>)

  /** One line of stdin together with the database's answers while it is handled. */
  datatype Request = Request(read: ReadResult, env: Env)

  /** `ProcessOne`'s `(cont, err)`, plus a panic that ends the process. */
  datatype Turn = Continue | End | Abort(err: Error) | Crash(msg: string)

  /** What a handler that can panic does: return an error (or nil), or panic. */
  datatype Exit = Return(err: Option<Error>) | Panic(msg: string)

  function AppendErr(env: Env, i: nat): Option<string>
  {
    if i < |env.appendErrs| then env.appendErrs[i] else None
  }

  /** `respondOk`. */
  function OkResponse(): Json
  {
    Object(map["ok" := Bool(true)])
  }

  /** `respondErr`. */
  function ErrResponse(e: Error): Json
  {
    Object(map["ok" := Bool(false), "err" := Str(Message(e))])
  }

  /** The reply to opening a query cursor. */
  function HandleResponse(k: int, cols: seq<string>): Json
  {
    Object(map["ok" := Bool(true), "h" := Number(k), "c" := Strings(cols)])
  }

  /** The reply to opening an appender. */
  function AppenderResponse(k: int): Json
  {
    Object(map["ok" := Bool(true), "h" := Number(k)])
  }

  /** `ok` is false and `err` is set exactly when the iterator reported an error. */
  function WithIterErr(m: map<string, Json>, iterErr: Option<string>): map<string, Json>
  {
    match iterErr
    case None => m["ok" := Bool(true)]
    case Some(e) => m["ok" := Bool(false)]["err" := Str(e)]
  }

  /** The reply to a fetch that collected `rows`. */
  function FetchResponse(rows: seq<seq<Json>>, eof: bool, iterErr: Option<string>): Json
  {
    Object(WithIterErr(map["r" := Rows(rows), "eof" := Bool(eof)], iterErr))
  }

  /** The reply to an immediate query that collected `rows`. */
  function ImmediateResponse(rows: seq<seq<Json>>, cols: seq<string>, iterErr: Option<string>): Json
  {
    Object(WithIterErr(map["r" := Rows(rows), "c" := Strings(cols)], iterErr))
  }

  /**
   * What one handler does, stated on the state it starts from: the one
   * response it writes when it succeeds, the error it returns, or the panic
   * it raises.
   */
  datatype Reply = Wrote(resp: Json) | Failed(err: Error) | Panicked(msg: string)

  /**
   * A handler of the newer server that returned `x` and took the output from
   * `before` to `after` did what `r` says.
   */
  predicate Reports(r: Reply, x: Exit, before: seq<Json>, after: seq<Json>)
  {
    match r
    case Wrote(resp) => x == Return(None) && after == before + [resp]
    case Failed(e) => x == Return(Some(e)) && after == before
    case Panicked(m) => x == Panic(m) && after == before
  }

  /**
   * The session engine answered a handler that did what `r` says: its one
   * response, or one error response for its error, and the session goes
   * on; or the panic ends the process with nothing written.
   */
  predicate Answers(r: Reply, t: Turn, before: seq<Json>, after: seq<Json>)
  {
    match r
    case Wrote(resp) => t == Continue && after == before + [resp]
    case Failed(e) => t == Continue && after == before + [ErrResponse(e)]
    case Panicked(m) => t == Crash(m) && after == before
  }

  /** The responses the older server's handlers write themselves for `r`. */
  function Said(r: Reply): seq<Json>
  {
    match r
    case Wrote(resp) => [resp]
    case Failed(e) => [ErrResponse(e)]
    case Panicked(_) => []
  }

  /** `cmdExecute`. */
  function ExecuteReply(args: map<string, Json>, env: Env): Reply
  {
    if ParseQuery(args).Err? then Failed(ParseQuery(args).error)
    else if env.exec.Some? then Failed(Failure(env.exec.value))
    else Wrote(OkResponse())
  }

  /** Running a query whose cursor would be registered under `k`. */
  function OpenReply(q: QueryOutcome, k: int): Reply
  {
    match q
    case QueryFailed(m) => Failed(Failure("query: " + m))
    case QueryOpened(colsErr, cols, _, _) =>
      if colsErr.Some? then Failed(Failure("get columns: " + colsErr.value))
      else Wrote(HandleResponse(k, cols))
  }

  /** `cmdQueryImmediate`. */
  function ImmediateReply(args: map<string, Json>, env: Env): Reply
  {
    if ParseQuery(args).Err? then Failed(ParseQuery(args).error)
    else match env.query
      case QueryFailed(m) => Failed(Failure("query: " + m))
      case QueryOpened(colsErr, cols, items, lastErr) =>
        if colsErr.Some? then Failed(Failure("get columns: " + colsErr.value))
        else match CollectAll(items)
          case ScanFailed(m, _) => Failed(Failure("row scan: " + m))
          case Fetched(rows, _) => Wrote(ImmediateResponse(rows, cols, lastErr))
  }

  /**
   * Fetching up to `n` rows from a cursor that was found under its handle:
   * a cursor that cannot give its columns any more panics; the iterator's
   * error is reported once the fetch reached the end.
   */
  function CursorReply(c: Cursor, n: int): Reply
    requires c.Valid()
    reads c
  {
    if c.Columns().Err? then Panicked("consistency error: could not fetch cols anymore: " + c.Columns().error)
    else match Collect(c.items[c.pos..], n)
      case ScanFailed(m, _) => Failed(Failure("row scan: " + m))
      case Fetched(rows, eof) => Wrote(FetchResponse(rows, eof, if eof then c.lastErr else None))
  }

  function Digit(d: nat): char
    requires d < 10
  {
    "0123456789"[d]
  }

  /** `%d` of a non-negative number. */
  function Decimal(n: nat): (s: string)
    ensures |s| > 0
    decreases n
  {
    if n < 10 then [Digit(n)] else Decimal(n / 10) + [Digit(n % 10)]
  }

  /** The line decodes to a command, so the session answers it. */
  predicate Decodes(r: Request)
  {
    r.read.Line? && Unmarshal(r.read.doc).Ok?
  }

  function Tag(r: Request): string
    requires Decodes(r)
  {
    Unmarshal(r.read.doc).value.command
  }

  /** The session goes on after this request. */
  predicate Continues(r: Request)
  {
    Decodes(r) && Tag(r) != CommandEnd
  }

  /** How the session ends on a request that does not continue it. */
  function Stop(r: Request): (t: Turn)
    requires !Continues(r)
    ensures t != Continue && !t.Crash?
  {
    match r.read
    case Eof => End
    case UnexpectedEof => End
    case ReadError(m) => Abort(Failure("stdin read: " + m))
    case Line(doc) =>
      match Unmarshal(doc)
      case Err(e) => Abort(Wrap("stdin json: ", e))
      case Ok(_) => End
  }

  /** How many of `reqs` decode to a command. */
  function Answered(reqs: seq<Request>): nat
  {
    if reqs == [] then 0
    else Answered(reqs[..|reqs| - 1]) + (if Decodes(reqs[|reqs| - 1]) then 1 else 0)
  }
}
