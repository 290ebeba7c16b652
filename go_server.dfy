/**
 * server/server.go: the session engine with a handler table, two handle
 * tables (query cursors and appenders) and the command handlers. A handler
 * that succeeds writes its own response; one that fails returns the error
 * and the engine writes it.
 */
module GoServer {
  import opened Wrappers
  import opened Json
  import opened GoUtil
  import opened GoIo
  import opened GoRows
  import opened GoAppender
  import opened GoProtocol

  /** The handlers of `Server`. */
  datatype Cmd =
    | Execute | QueryImmediate | QueryHandle | QueryFetch | QueryRelease
    | AppenderOpen | AppenderInsert | AppenderRelease

  /**
   * The table `NewServer` builds. Every tag but the end tag has a handler;
   * the release tag is wired to the query-handle handler, so nothing
   * reaches the query-release handler.
   */
  function Handlers(): (r: map<string, Cmd>)
    ensures r.Keys == {CommandExecute, CommandQueryImmediate, CommandQuery, CommandQueryFetch,
                       CommandQueryRelease, CommandAppender, CommandAppenderInsert, CommandAppenderRelease}
    ensures CommandEnd !in r
    ensures r[CommandQueryRelease] == QueryHandle && r[CommandQuery] == QueryHandle
    ensures QueryRelease !in r.Values
  {
    map[
      CommandExecute := Execute,
      CommandQueryImmediate := QueryImmediate,
      CommandQuery := QueryHandle,
      CommandQueryFetch := QueryFetch,
      CommandQueryRelease := QueryHandle,
      CommandAppender := AppenderOpen,
      CommandAppenderInsert := AppenderInsert,
      CommandAppenderRelease := AppenderRelease
    ]
  }

  /** Where inserting a batch of rows stops: after all of them, at a non-array row, or at a failed append. */
  datatype InsertEnd = AllInserted | BadRow(at: nat) | AppendFailed(at: nat, msg: string)

  /** The insert loop of `cmdAppenderInsert`, from row `i` on. */
  function InsertPlan(rows: seq<Json>, env: Env, i: nat): (r: InsertEnd)
    requires i <= |rows|
    ensures !r.AllInserted? ==> i <= r.at < |rows|
    decreases |rows| - i
  {
    if i == |rows| then AllInserted
    else if !rows[i].Array? then BadRow(i)
    else if AppendErr(env, i).Some? then AppendFailed(i, AppendErr(env, i).value)
    else InsertPlan(rows, env, i + 1)
  }

  /** How many rows were appended before the loop stopped. */
  function Inserted(p: InsertEnd, total: nat): nat
  {
    match p
    case AllInserted => total
    case BadRow(i) => i
    case AppendFailed(i, _) => i
  }

  /**
   * The loop stops at the FIRST row that is not an array or whose append
   * fails, and runs to the end exactly when there is no such row.
   */
  lemma {:induction false} InsertPlanSpec(rows: seq<Json>, env: Env, i: nat)
    requires i <= |rows|
    ensures var p := InsertPlan(rows, env, i);
      && (p.AllInserted? <==> forall j :: i <= j < |rows| ==> rows[j].Array? && AppendErr(env, j).None?)
      && (forall j :: i <= j < Inserted(p, |rows|) ==> rows[j].Array? && AppendErr(env, j).None?)
      && (p.BadRow? ==> !rows[p.at].Array?)
      && (p.AppendFailed? ==> rows[p.at].Array? && AppendErr(env, p.at) == Some(p.msg))
    decreases |rows| - i
  {
    if i < |rows| && rows[i].Array? && AppendErr(env, i).None? {
      InsertPlanSpec(rows, env, i + 1);
    }
  }

  /** The values of each row that is an array. */
  function RowValues(rows: seq<Json>): (r: seq<seq<Json>>)
    ensures |r| == |rows|
    ensures forall j :: 0 <= j < |rows| && rows[j].Array? ==> r[j] == rows[j].items
  {
    seq(|rows|, j requires 0 <= j < |rows| => if rows[j].Array? then rows[j].items else [])
  }

  /**
   * The row loop of `cmdAppenderInsert`: append rows in order until one is
   * not an array or its append fails. A failed append leaves the worker
   * exited; otherwise it keeps serving.
   */
  method AppendRows(app: Appender, rows: seq<Json>, env: Env) returns (p: InsertEnd)
    requires app.Valid() && app.Phase() == Serving
    modifies app
    ensures p == InsertPlan(rows, env, 0)
    ensures app.appended == old(app.appended) + RowValues(rows)[..Inserted(p, |rows|)]
    ensures app.Valid()
    ensures p.AppendFailed? <==> app.Phase() == Exited
    ensures !p.AppendFailed? ==> app.Phase() == Serving
  {
    var i := 0;
    while i < |rows|
      invariant i <= |rows|
      invariant app.Valid() && app.Phase() == Serving
      invariant InsertPlan(rows, env, 0) == InsertPlan(rows, env, i)
      invariant app.appended == old(app.appended) + RowValues(rows)[..i]
    {
      if !rows[i].Array? {
        return BadRow(i);
      }
      var e := app.Insert(rows[i].items, AppendErr(env, i));
      if e.Some? {
        return AppendFailed(i, AppendErr(env, i).value);
      }
      assert RowValues(rows)[..i + 1] == RowValues(rows)[..i] + [rows[i].items];
      i := i + 1;
    }
    p := AllInserted;
  }

  class Server {
    const qs: Prober<Cursor>
    const apps: Prober<Appender>
    const hdls: map<string, Cmd>
    /** What is left to read on stdin. */
    var stdin: seq<Request>
    /** Every response written to stdout, in order. */
    var out: seq<Json>

    /**
     * The tables are well formed; every registered cursor had readable
     * columns when it was registered; every registered appender is a
     * distinct worker that is still serving.
     */
    ghost predicate Valid()
      reads this, qs, apps, qs.vals.Values, apps.vals.Values
    {
      && qs.Valid() && apps.Valid() && hdls == Handlers()
      && (forall k :: k in qs.vals ==> qs.vals[k].Valid() && qs.vals[k].colsErr.None?)
      && (forall h :: h in apps.vals ==> apps.vals[h].Valid() && apps.vals[h].Phase() == Serving)
      && (forall h1, h2 :: h1 in apps.vals && h2 in apps.vals && h1 != h2 ==> apps.vals[h1] != apps.vals[h2])
    }

    /** Every live cursor and appender was live at the start or is new. */
    twostate predicate OnlyNewValues()
      reads this, qs, apps
    {
      && (forall c :: c in qs.vals.Values ==> c in old(qs.vals.Values) || fresh(c))
      && (forall a :: a in apps.vals.Values ==> a in old(apps.vals.Values) || fresh(a))
    }

    /** `cmdQueryFetch`, from the current cursor table. */
    function FetchReply(args: map<string, Json>): Reply
      requires Valid()
      reads this, qs, apps, qs.vals.Values, apps.vals.Values
    {
      var n := GetInt(args, "n");
      var h := GetInt(args, "h");
      if n.Err? then Failed(n.error)
      else if h.Err? then Failed(h.error)
      else if h.value !in qs.vals then Failed(Failure("no such handle"))
      else CursorReply(qs.vals[h.value], n.value)
    }

    /** `cmdQueryRelease`, from the current cursor table. */
    function ReleaseReply(args: map<string, Json>): Reply
      reads this, qs
    {
      var h := GetInt(args, "h");
      if h.Err? then Failed(h.error)
      else if h.value !in qs.vals then Failed(Failure("no such query"))
      else Wrote(OkResponse())
    }

    /** What the handler `c` does when it runs from the current state. */
    function Outcome(c: Cmd, args: map<string, Json>, env: Env): Reply
      requires Valid()
      reads this, qs, apps, qs.vals.Values, apps.vals.Values
    {
      match c
      case Execute => ExecuteReply(args, env)
      case QueryImmediate => ImmediateReply(args, env)
      case QueryHandle =>
        if ParseQuery(args).Err? then Failed(ParseQuery(args).error) else OpenReply(env.query, qs.next)
      case QueryFetch => FetchReply(args)
      case QueryRelease => ReleaseReply(args)
      case AppenderOpen =>
        var t := GetString(args, "t");
        if t.Err? then Failed(t.error)
        else if env.conn.Some? then Failed(Failure("connect: " + env.conn.value))
        else (match env.open
          case CastFailed => Failed(Failure("raw conn cast failed"))
          case OpenFailed(m) => Failed(Failure("open appender: " + m))
          case Opened => Wrote(AppenderResponse(apps.next)))
      case AppenderInsert =>
        var h := GetInt(args, "h");
        var r := GetArray(args, "r");
        if h.Err? then Failed(h.error)
        else if r.Err? then Failed(r.error)
        else if h.value !in apps.vals then Failed(Failure("no such handle"))
        else (match InsertPlan(r.value, env, 0)
          case AllInserted => Wrote(OkResponse())
          case BadRow(i) => Failed(Failure("incorrect row type: expected array (at " + Decimal(i) + ")"))
          case AppendFailed(_, m) => Failed(Failure("append: " + m)))
      case AppenderRelease =>
        var h := GetInt(args, "h");
        if h.Err? then Failed(h.error)
        else if h.value !in apps.vals then Failed(Failure("no such handle"))
        else if env.flushErr.Some? then Failed(Failure("flush appender: " + env.flushErr.value))
        else if env.closeErr.Some? then Failed(Failure("close appender: " + env.closeErr.value))
        else Wrote(OkResponse())
    }

    constructor (input: seq<Request>)
      ensures Valid() && fresh(qs) && fresh(apps)
      ensures qs.vals == map[] && qs.next == 0 && apps.vals == map[] && apps.next == 0
      ensures stdin == input && out == []
    {
      qs := new Prober<Cursor>();
      apps := new Prober<Appender>();
      hdls := Handlers();
      stdin := input;
      out := [];
    }

    /** `NewServer`: fails only when the shared connection cannot be opened. */
    static method NewServer(conn: Option<string>, input: seq<Request>) returns (s: Server?, err: Option<Error>)
      ensures s != null <==> conn.None?
      ensures err == (if conn.Some? then Some(Failure(conn.value)) else None)
      ensures s != null ==> fresh(s) && fresh(s.qs) && fresh(s.apps) && s.Valid()
      ensures s != null ==> s.qs.vals == map[] && s.qs.next == 0 && s.apps.vals == map[] && s.apps.next == 0
      ensures s != null ==> s.stdin == input && s.out == []
    {
      if conn.Some? {
        return null, Some(Failure(conn.value));
      }
      s := new Server(input);
      err := None;
    }

    /**
     * `Loop`: an ok response first, then one turn per request until a turn
     * ends the session. Every request that decodes to a command gets exactly
     * one response, except the one a panic interrupts.
     */
    method Loop() returns (t: Turn, ghost consumed: nat)
      requires Valid()
      modifies this, qs, apps, qs.vals.Values, apps.vals.Values
      ensures Valid() && OnlyNewValues()
      ensures t != Continue
      ensures consumed <= |old(stdin)| && stdin == old(stdin)[consumed..]
      ensures |out| > |old(out)| && out[..|old(out)| + 1] == old(out) + [OkResponse()]
      ensures forall i :: 0 <= i < consumed - 1 ==> Continues(old(stdin)[i])
      ensures t.Crash? ==> 0 < consumed && Continues(old(stdin)[consumed - 1])
      ensures !t.Crash? ==>
        || (consumed == |old(stdin)| && t == End && forall i :: 0 <= i < consumed ==> Continues(old(stdin)[i]))
        || (0 < consumed && !Continues(old(stdin)[consumed - 1]) && t == Stop(old(stdin)[consumed - 1]))
      ensures |out| == |old(out)| + 1 + Answered(old(stdin)[..consumed]) - (if t.Crash? then 1 else 0)
    {
      ghost var input := stdin;
      out := out + [OkResponse()];
      consumed := 0;
      while true
        invariant Valid() && OnlyNewValues()
        invariant consumed <= |input| && stdin == input[consumed..]
        invariant forall i :: 0 <= i < consumed ==> Continues(input[i])
        invariant |out| == |old(out)| + 1 + Answered(input[..consumed])
        invariant out[..|old(out)| + 1] == old(out) + [OkResponse()]
        decreases |stdin|
      {
        ghost var before := out;
        ghost var wasEmpty := stdin == [];
        t := ProcessOne();
        if !wasEmpty {
          assert input[..consumed + 1][..consumed] == input[..consumed];
          consumed := consumed + 1;
        }
        assert out[..|old(out)| + 1] == before[..|old(out)| + 1];
        if t != Continue {
          return;
        }
      }
    }

    /**
     * `ProcessOne`: read one line and act on it. End of input ends the
     * session silently; a read or decode error aborts it; the end tag is
     * answered ok; an unknown tag is answered with one error; a handler's
     * error is answered with one error response.
     */
    method ProcessOne() returns (t: Turn)
      requires Valid()
      modifies this, qs, apps, qs.vals.Values, apps.vals.Values
      ensures Valid() && OnlyNewValues()
      ensures old(stdin) == [] ==> t == End && stdin == [] && out == old(out)
      ensures old(stdin) != [] ==> stdin == old(stdin)[1..]
      ensures old(stdin) != [] && !Continues(old(stdin)[0]) ==>
        && t == Stop(old(stdin)[0])
        && out == old(out) + (if Decodes(old(stdin)[0]) then [OkResponse()] else [])
      ensures old(stdin) != [] && Continues(old(stdin)[0]) ==>
        || (t == Continue && |out| == |old(out)| + 1 && out[..|old(out)|] == old(out))
        || (t.Crash? && out == old(out) && Tag(old(stdin)[0]) in Handlers() && Handlers()[Tag(old(stdin)[0])] == QueryFetch)
      ensures old(stdin) != [] && Continues(old(stdin)[0]) && Tag(old(stdin)[0]) !in Handlers() ==>
        t == Continue && out == old(out) + [ErrResponse(Failure("unknown command: " + Tag(old(stdin)[0])))]
    {
      if stdin == [] {
        return End;
      }
      var req := stdin[0];
      stdin := stdin[1..];
      match req.read
      case Eof => t := End;
      case UnexpectedEof => t := End;
      case ReadError(m) => t := Abort(Failure("stdin read: " + m));
      case Line(doc) =>
        var msg := Unmarshal(doc);
        if msg.Err? {
          return Abort(Wrap("stdin json: ", msg.error));
        }
        t := Answer(msg.value, req.env);
    }

    /**
     * The part of `ProcessOne` after a command has been decoded: the end
     * tag is answered ok and ends the session, an unknown tag is answered
     * with one error, and a handler's error with one error response.
     */
    method Answer(msg: RpcMsg, env: Env) returns (t: Turn)
      requires Valid()
      modifies this, qs, apps, qs.vals.Values, apps.vals.Values
      ensures Valid() && OnlyNewValues()
      ensures stdin == old(stdin)
      ensures msg.command == CommandEnd ==> t == End && out == old(out) + [OkResponse()]
      ensures msg.command != CommandEnd ==>
        || (t == Continue && |out| == |old(out)| + 1 && out[..|old(out)|] == old(out))
        || (t.Crash? && out == old(out) && msg.command in Handlers() && Handlers()[msg.command] == QueryFetch)
      ensures msg.command != CommandEnd && msg.command !in Handlers() ==>
        t == Continue && out == old(out) + [ErrResponse(Failure("unknown command: " + msg.command))]
      ensures msg.command in Handlers() ==>
        Answers(old(Outcome(Handlers()[msg.command], msg.args, env)), t, old(out), out)
    {
      var cmd := msg.command;
      if cmd == CommandEnd {
        out := out + [OkResponse()];
        return End;
      }
      if cmd !in hdls {
        out := out + [ErrResponse(Failure("unknown command: " + cmd))];
        return Continue;
      }
      var x := Dispatch(hdls[cmd], msg.args, env);
      match x
      case Return(None) => t := Continue;
      case Return(Some(e)) =>
        out := out + [ErrResponse(e)];
        t := Continue;
      case Panic(m) => t := Crash(m);
    }

    /**
     * `hdl(msg.Args)`: run the handler registered for the tag. It does what
     * `Outcome` says of that handler; only the fetch handler can panic.
     */
    method Dispatch(c: Cmd, args: map<string, Json>, env: Env) returns (x: Exit)
      requires Valid()
      modifies this, qs, apps, qs.vals.Values, apps.vals.Values
      ensures Valid() && OnlyNewValues()
      ensures Reports(old(Outcome(c, args, env)), x, old(out), out)
      ensures x.Panic? ==> c == QueryFetch
      ensures stdin == old(stdin)
    {
      var err: Option<Error>;
      if c == QueryFetch {
        x := CmdQueryFetch(args);
        return;
      }
      match c {
        case Execute => err := CmdExecute(args, env);
        case QueryImmediate => err := CmdQueryImmediate(args, env);
        case QueryHandle => err := CmdQueryHandle(args, env);
        case QueryRelease => err := CmdQueryRelease(args);
        case AppenderOpen => err := CmdAppender(args, env);
        case AppenderInsert => err := CmdAppenderInsert(args, env);
        case AppenderRelease => err := CmdAppenderRelease(args, env);
      }
      x := Return(err);
    }

    /** `cmdExecute`: run the statement; its affected-row and id fields are not modelled. */
    method CmdExecute(args: map<string, Json>, env: Env) returns (err: Option<Error>)
      requires Valid()
      modifies this
      ensures Valid()
      ensures stdin == old(stdin)
      ensures Reports(old(Outcome(Execute, args, env)), Return(err), old(out), out)
      ensures err.None? <==> ParseQuery(args).Ok? && env.exec.None?
      ensures err.None? ==> out == old(out) + [OkResponse()]
      ensures err.Some? ==> out == old(out)
      ensures ParseQuery(args).Err? ==> err == Some(ParseQuery(args).error)
      ensures ParseQuery(args).Ok? && env.exec.Some? ==> err == Some(Failure(env.exec.value))
    {
      var q := ParseQuery(args);
      if q.Err? {
        return Some(q.error);
      }
      if env.exec.Some? {
        return Some(Failure(env.exec.value));
      }
      out := out + [OkResponse()];
      err := None;
    }

    /**
     * `cmdQueryHandle`: run the query and register its open result set
     * under a fresh key; nothing is registered when the query or its
     * columns fail.
     */
    method CmdQueryHandle(args: map<string, Json>, env: Env) returns (err: Option<Error>)
      requires Valid()
      modifies this, qs
      ensures Valid() && OnlyNewValues()
      ensures stdin == old(stdin)
      ensures Reports(old(Outcome(QueryHandle, args, env)), Return(err), old(out), out)
      ensures err.None? <==> ParseQuery(args).Ok? && env.query.QueryOpened? && env.query.colsErr.None?
      ensures ParseQuery(args).Err? ==> err == Some(ParseQuery(args).error)
      ensures ParseQuery(args).Ok? && env.query.QueryFailed? ==> err == Some(Failure("query: " + env.query.msg))
      ensures ParseQuery(args).Ok? && env.query.QueryOpened? && env.query.colsErr.Some? ==>
        err == Some(Failure("get columns: " + env.query.colsErr.value))
      ensures err.Some? ==> out == old(out) && qs.vals == old(qs.vals) && qs.next == old(qs.next)
      ensures err.None? ==>
        && qs.next == old(qs.next) + 1
        && qs.vals.Keys == old(qs.vals.Keys) + {old(qs.next)}
        && (forall k :: k in old(qs.vals) ==> qs.vals[k] == old(qs.vals)[k])
        && fresh(qs.vals[old(qs.next)])
        && qs.vals[old(qs.next)].items == env.query.items && qs.vals[old(qs.next)].pos == 0
        && !qs.vals[old(qs.next)].closed
        && out == old(out) + [HandleResponse(old(qs.next), env.query.cols)]
    {
      var q := ParseQuery(args);
      if q.Err? {
        return Some(q.error);
      }
      if env.query.QueryFailed? {
        return Some(Failure("query: " + env.query.msg));
      }
      var rows := new Cursor(env.query);
      var cols := rows.Columns();
      if cols.Err? {
        return Some(Failure("get columns: " + cols.error));
      }
      var k := qs.Insert(rows);
      out := out + [HandleResponse(k, cols.value)];
      err := None;
    }

    /**
     * `cmdQueryFetch`: `n` is read before `h`; an unknown handle fails; a
     * cursor that can no longer give its columns (it is closed, which
     * happens once a fetch has reached its end) makes the process panic;
     * otherwise up to `n` rows are collected.
     */
    method CmdQueryFetch(args: map<string, Json>) returns (x: Exit)
      requires Valid()
      modifies this, qs.vals.Values
      ensures Valid() && OnlyNewValues()
      ensures stdin == old(stdin)
      ensures forall c :: c in qs.vals.Values && (GetInt(args, "n").Err? || GetInt(args, "h").Err? || GetInt(args, "h").value !in qs.vals || c != qs.vals[GetInt(args, "h").value]) ==>
        unchanged(c)
      ensures Reports(old(FetchReply(args)), x, old(out), out)
      ensures x != Return(None) ==> out == old(out)
      ensures GetInt(args, "n").Err? ==> x == Return(Some(GetInt(args, "n").error))
      ensures GetInt(args, "n").Ok? && GetInt(args, "h").Err? ==> x == Return(Some(GetInt(args, "h").error))
      ensures GetInt(args, "n").Ok? && GetInt(args, "h").Ok? && GetInt(args, "h").value !in qs.vals ==>
        x == Return(Some(Failure("no such handle")))
      ensures GetInt(args, "n").Ok? && GetInt(args, "h").Ok? && GetInt(args, "h").value in qs.vals ==>
        var c := qs.vals[GetInt(args, "h").value];
        var f := Collect(c.items[old(c.pos)..], GetInt(args, "n").value);
        && (old(c.closed) ==> x.Panic? && c.pos == old(c.pos))
        && (!old(c.closed) && f.ScanFailed? ==> x == Return(Some(Failure("row scan: " + f.msg))))
        && (!old(c.closed) && f.Fetched? ==>
              && x == Return(None)
              && out == old(out) + [FetchResponse(f.rows, f.eof, c.Err())]
              && c.closed == f.eof && c.pos == old(c.pos) + |f.rows|)
      ensures forall c :: c in qs.vals.Values && c.pos != old(c.pos) ==>
        GetInt(args, "h").Ok? && GetInt(args, "h").value in qs.vals && c == qs.vals[GetInt(args, "h").value]
    {
      var n := GetInt(args, "n");
      if n.Err? {
        return Return(Some(n.error));
      }
      var h := GetInt(args, "h");
      if h.Err? {
        return Return(Some(h.error));
      }
      var found := qs.Get(h.value);
      if found.None? {
        return Return(Some(Failure("no such handle")));
      }
      var query := found.value;
      var cols := query.Columns();
      if cols.Err? {
        return Panic("consistency error: could not fetch cols anymore: " + cols.error);
      }
      var f := FetchUpTo(query, n.value);
      if f.ScanFailed? {
        return Return(Some(Failure("row scan: " + f.msg)));
      }
      out := out + [FetchResponse(f.rows, f.eof, query.Err())];
      x := Return(None);
    }

    /**
     * `cmdQueryRelease`: close and forget the cursor. No tag dispatches
     * here (see `Handlers`).
     */
    method CmdQueryRelease(args: map<string, Json>) returns (err: Option<Error>)
      requires Valid()
      modifies this, qs, qs.vals.Values
      ensures Valid() && OnlyNewValues()
      ensures stdin == old(stdin)
      ensures forall c :: c in old(qs.vals.Values) && (GetInt(args, "h").Err? || GetInt(args, "h").value !in old(qs.vals) || c != old(qs.vals)[GetInt(args, "h").value]) ==>
        unchanged(c)
      ensures Reports(old(ReleaseReply(args)), Return(err), old(out), out)
      ensures qs.next == old(qs.next)
      ensures err.None? ==> out == old(out) + [OkResponse()]
      ensures err.Some? ==> out == old(out) && qs.vals == old(qs.vals)
      ensures GetInt(args, "h").Err? ==> err == Some(GetInt(args, "h").error)
      ensures GetInt(args, "h").Ok? && GetInt(args, "h").value !in old(qs.vals) ==> err == Some(Failure("no such query"))
      ensures GetInt(args, "h").Ok? && GetInt(args, "h").value in old(qs.vals) ==>
        && err.None?
        && old(qs.vals)[GetInt(args, "h").value].closed
        && qs.vals == old(qs.vals) - {GetInt(args, "h").value}
    {
      var h := GetInt(args, "h");
      if h.Err? {
        return Some(h.error);
      }
      var found := qs.Get(h.value);
      if found.None? {
        return Some(Failure("no such query"));
      }
      found.value.Close();
      qs.Release(h.value);
      out := out + [OkResponse()];
      err := None;
    }

    /**
     * `cmdQueryImmediate`: run the query and collect every row into one
     * response together with the column names; nothing is registered.
     */
    method CmdQueryImmediate(args: map<string, Json>, env: Env) returns (err: Option<Error>)
      requires Valid()
      modifies this
      ensures Valid()
      ensures stdin == old(stdin)
      ensures Reports(old(Outcome(QueryImmediate, args, env)), Return(err), old(out), out)
      ensures err.Some? ==> out == old(out)
      ensures ParseQuery(args).Err? ==> err == Some(ParseQuery(args).error)
      ensures ParseQuery(args).Ok? && env.query.QueryFailed? ==> err == Some(Failure("query: " + env.query.msg))
      ensures ParseQuery(args).Ok? && env.query.QueryOpened? && env.query.colsErr.Some? ==>
        err == Some(Failure("get columns: " + env.query.colsErr.value))
      ensures ParseQuery(args).Ok? && env.query.QueryOpened? && env.query.colsErr.None? ==>
        var f := CollectAll(env.query.items);
        && (f.ScanFailed? ==> err == Some(Failure("row scan: " + f.msg)))
        && (f.Fetched? ==> err.None? && out == old(out) + [ImmediateResponse(f.rows, env.query.cols, env.query.lastErr)])
    {
      var q := ParseQuery(args);
      if q.Err? {
        return Some(q.error);
      }
      if env.query.QueryFailed? {
        return Some(Failure("query: " + env.query.msg));
      }
      var rows := new Cursor(env.query);
      var cols := rows.Columns();
      if cols.Err? {
        rows.Close();
        return Some(Failure("get columns: " + cols.error));
      }
      var f := FetchAll(rows);
      if f.ScanFailed? {
        rows.Close();
        return Some(Failure("row scan: " + f.msg));
      }
      out := out + [ImmediateResponse(f.rows, cols.value, rows.Err())];
      rows.Close();
      err := None;
    }

    /**
     * `cmdAppender`: open a dedicated connection, start a worker on table
     * `t` of schema "main" and register it; nothing is registered on failure.
     */
    method CmdAppender(args: map<string, Json>, env: Env) returns (err: Option<Error>)
      requires Valid()
      modifies this, apps
      ensures Valid() && OnlyNewValues()
      ensures stdin == old(stdin)
      ensures Reports(old(Outcome(AppenderOpen, args, env)), Return(err), old(out), out)
      ensures err.None? <==> GetString(args, "t").Ok? && env.conn.None? && env.open.Opened?
      ensures GetString(args, "t").Err? ==> err == Some(GetString(args, "t").error)
      ensures GetString(args, "t").Ok? && env.conn.Some? ==> err == Some(Failure("connect: " + env.conn.value))
      ensures GetString(args, "t").Ok? && env.conn.None? && env.open.CastFailed? ==>
        err == Some(Failure("raw conn cast failed"))
      ensures GetString(args, "t").Ok? && env.conn.None? && env.open.OpenFailed? ==>
        err == Some(Failure("open appender: " + env.open.msg))
      ensures err.Some? ==> out == old(out) && apps.vals == old(apps.vals) && apps.next == old(apps.next)
      ensures err.None? ==>
        && apps.next == old(apps.next) + 1
        && apps.vals.Keys == old(apps.vals.Keys) + {old(apps.next)}
        && (forall k :: k in old(apps.vals) ==> apps.vals[k] == old(apps.vals)[k])
        && fresh(apps.vals[old(apps.next)])
        && apps.vals[old(apps.next)].schema == "main" && apps.vals[old(apps.next)].table == GetString(args, "t").value
        && apps.vals[old(apps.next)].appended == []
        && out == old(out) + [AppenderResponse(old(apps.next))]
    {
      var table := GetString(args, "t");
      if table.Err? {
        return Some(table.error);
      }
      if env.conn.Some? {
        return Some(Failure("connect: " + env.conn.value));
      }
      var app, e := Appender.Start("main", table.value, env.open);
      if e.Some? {
        return e;
      }
      var handle := apps.Insert(app);
      out := out + [AppenderResponse(handle)];
      err := None;
    }

    /**
     * `cmdAppenderInsert`: append the rows in order. A row that is not an
     * array stops the call and keeps the handle; a failed append stops the
     * call and releases the handle. Rows before the stop stay appended.
     */
    method CmdAppenderInsert(args: map<string, Json>, env: Env) returns (err: Option<Error>)
      requires Valid()
      modifies this, apps, apps.vals.Values
      ensures Valid() && OnlyNewValues()
      ensures stdin == old(stdin)
      ensures forall a :: a in old(apps.vals.Values) && (GetInt(args, "h").Err? || GetArray(args, "r").Err? || GetInt(args, "h").value !in old(apps.vals) || a != old(apps.vals)[GetInt(args, "h").value]) ==>
        unchanged(a)
      ensures Reports(old(Outcome(AppenderInsert, args, env)), Return(err), old(out), out)
      ensures apps.next == old(apps.next)
      ensures err.None? ==> out == old(out) + [OkResponse()]
      ensures err.Some? ==> out == old(out)
      ensures GetInt(args, "h").Err? ==> err == Some(GetInt(args, "h").error) && apps.vals == old(apps.vals)
      ensures GetInt(args, "h").Ok? && GetArray(args, "r").Err? ==>
        err == Some(GetArray(args, "r").error) && apps.vals == old(apps.vals)
      ensures GetInt(args, "h").Ok? && GetArray(args, "r").Ok? && GetInt(args, "h").value !in old(apps.vals) ==>
        err == Some(Failure("no such handle")) && apps.vals == old(apps.vals)
      ensures GetInt(args, "h").Ok? && GetArray(args, "r").Ok? && GetInt(args, "h").value in old(apps.vals) ==>
        var h := GetInt(args, "h").value;
        var rows := GetArray(args, "r").value;
        var app := old(apps.vals)[h];
        var p := InsertPlan(rows, env, 0);
        && app.appended == old(app.appended) + RowValues(rows)[..Inserted(p, |rows|)]
        && (p.AllInserted? ==> err.None? && apps.vals == old(apps.vals))
        && (p.BadRow? ==>
              && err == Some(Failure("incorrect row type: expected array (at " + Decimal(p.at) + ")"))
              && apps.vals == old(apps.vals))
        && (p.AppendFailed? ==>
              && err == Some(Failure("append: " + p.msg))
              && apps.vals == old(apps.vals) - {h} && app.Phase() == Exited)
    {
      var h := GetInt(args, "h");
      if h.Err? {
        return Some(h.error);
      }
      var r := GetArray(args, "r");
      if r.Err? {
        return Some(r.error);
      }
      var found := apps.Get(h.value);
      if found.None? {
        return Some(Failure("no such handle"));
      }
      var p := AppendRows(found.value, r.value, env);
      match p {
        case AllInserted =>
          out := out + [OkResponse()];
          err := None;
        case BadRow(i) =>
          err := Some(Failure("incorrect row type: expected array (at " + Decimal(i) + ")"));
        case AppendFailed(_, m) =>
          apps.Release(h.value);
          err := Some(Failure("append: " + m));
      }
    }

    /**
     * `cmdAppenderRelease`: flush and close the worker's appender; the
     * handle is released whether or not that worked.
     */
    method CmdAppenderRelease(args: map<string, Json>, env: Env) returns (err: Option<Error>)
      requires Valid()
      modifies this, apps, apps.vals.Values
      ensures Valid() && OnlyNewValues()
      ensures stdin == old(stdin)
      ensures forall a :: a in old(apps.vals.Values) && (GetInt(args, "h").Err? || GetInt(args, "h").value !in old(apps.vals) || a != old(apps.vals)[GetInt(args, "h").value]) ==>
        unchanged(a)
      ensures Reports(old(Outcome(AppenderRelease, args, env)), Return(err), old(out), out)
      ensures apps.next == old(apps.next)
      ensures err.None? ==> out == old(out) + [OkResponse()]
      ensures err.Some? ==> out == old(out)
      ensures GetInt(args, "h").Err? ==> err == Some(GetInt(args, "h").error) && apps.vals == old(apps.vals)
      ensures GetInt(args, "h").Ok? && GetInt(args, "h").value !in old(apps.vals) ==>
        err == Some(Failure("no such handle")) && apps.vals == old(apps.vals)
      ensures GetInt(args, "h").Ok? && GetInt(args, "h").value in old(apps.vals) ==>
        var app := old(apps.vals)[GetInt(args, "h").value];
        && apps.vals == old(apps.vals) - {GetInt(args, "h").value}
        && app.comm == old(app.comm) + [CloseRequest, Reply(err)]
        && (env.flushErr.Some? ==> err == Some(Failure("flush appender: " + env.flushErr.value)))
        && (env.flushErr.None? && env.closeErr.Some? ==> err == Some(Failure("close appender: " + env.closeErr.value)))
        && (env.flushErr.None? && env.closeErr.None? ==> err.None? && app.closed && app.flushed == app.appended)
    {
      var h := GetInt(args, "h");
      if h.Err? {
        return Some(h.error);
      }
      var found := apps.Get(h.value);
      if found.None? {
        return Some(Failure("no such handle"));
      }
      var app := found.value;
      var e := app.Close(env.flushErr, env.closeErr);
      apps.Release(h.value);
      if e.Some? {
        return e;
      }
      out := out + [OkResponse()];
      err := None;
    }
  }
}
