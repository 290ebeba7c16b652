/**
 * server.go: the older single-connection server. It knows only the query
 * commands, every handler writes its own responses, and two handlers are
 * missing a `return` after an error response:
 *  - `cmdQueryHandle` answers a bad query with an error and then still runs
 *    whatever SQL `parseQuery` filled in (the request's own SQL when only
 *    `p` was bad, empty SQL otherwise), without arguments, so that request
 *    is answered twice;
 *  - `cmdQueryFetch` answers an unknown handle with an error and then asks
 *    a nil cursor for its columns, which panics.
 */
module GoLegacyServer {
  import opened Wrappers
  import opened Json
  import opened GoUtil
  import opened GoIo
  import opened GoRows
  import opened GoProtocol

  /** The panic of a method call on a nil `*sql.Rows`. */
  const NilDeref: string := "runtime error: invalid memory address or nil pointer dereference"

  /** The tags the `switch` of `ProcessOne` knows, besides the end tag. */
  function Known(): (r: set<string>)
    ensures CommandEnd !in r && CommandAppender !in r
    ensures CommandQueryRelease in r && CommandQueryFetch in r
  {
    {CommandExecute, CommandQueryImmediate, CommandQuery, CommandQueryFetch, CommandQueryRelease}
  }

  /** How many responses a request that does not panic receives. */
  function Responses(r: Request): nat
  {
    if !Decodes(r) then 0
    else if Tag(r) == CommandQuery && ParseQuery(Unmarshal(r.read.doc).value.args).Err? then 2
    else 1
  }

  /** The responses the requests in `reqs` receive when none of them panics. */
  function Responded(reqs: seq<Request>): nat
  {
    if reqs == [] then 0 else Responded(reqs[..|reqs| - 1]) + Responses(reqs[|reqs| - 1])
  }

  /**
   * Every request that decodes receives at least one response, and only a
   * bad query to the query-handle command receives a second.
   */
  lemma {:induction false} RespondedBounds(reqs: seq<Request>)
    ensures Answered(reqs) <= Responded(reqs)
    ensures Responded(reqs) == Answered(reqs)
      <==> forall i :: 0 <= i < |reqs| ==> Responses(reqs[i]) <= 1
    decreases |reqs|
  {
    if reqs != [] {
      var init := reqs[..|reqs| - 1];
      RespondedBounds(init);
      assert forall i :: 0 <= i < |init| ==> init[i] == reqs[i];
      if Responded(reqs) == Answered(reqs) {
        assert Responded(init) == Answered(init);
        forall i | 0 <= i < |reqs| ensures Responses(reqs[i]) <= 1 {
          if i < |init| {
            assert init[i] == reqs[i];
          }
        }
      }
    }
  }

  /** What a handler of this server does: the responses it writes, then the panic, if any. */
  datatype Handled = Handled(said: seq<Json>, crash: Option<string>)

  /** A handler that answers `r` and does not panic. */
  function Plain(r: Reply): (h: Handled)
    requires !r.Panicked?
    ensures |h.said| == 1 && h.crash.None?
  {
    Handled(Said(r), None)
  }

  class Server {
    const qs: Prober<Cursor>
    var stdin: seq<Request>
    var out: seq<Json>

    /** The table is well formed and every cursor had readable columns when registered. */
    ghost predicate Valid()
      reads this, qs, qs.vals.Values
    {
      && qs.Valid()
      && (forall k :: k in qs.vals ==> qs.vals[k].Valid() && qs.vals[k].colsErr.None?)
    }

    twostate predicate OnlyNewValues()
      reads this, qs
    {
      forall c :: c in qs.vals.Values ==> c in old(qs.vals.Values) || fresh(c)
    }

    /** `cmdQueryFetch`, from the current cursor table. */
    function FetchHandled(args: map<string, Json>): Handled
      requires Valid()
      reads this, qs, qs.vals.Values
    {
      var n := GetInt(args, "n");
      var h := GetInt(args, "h");
      if n.Err? then Plain(Failed(n.error))
      else if h.Err? then Plain(Failed(h.error))
      else if h.value !in qs.vals then Handled([ErrResponse(Failure("no such handle"))], Some(NilDeref))
      else
        var r := CursorReply(qs.vals[h.value], n.value);
        Handled(Said(r), if r.Panicked? then Some(r.msg) else None)
    }

    /** `cmdQueryRelease`, from the current cursor table. */
    function ReleaseHandled(args: map<string, Json>): Handled
      reads this, qs
    {
      var h := GetInt(args, "h");
      if h.Err? then Plain(Failed(h.error))
      else if h.value !in qs.vals then Plain(Failed(Failure("no such query")))
      else Plain(Wrote(OkResponse()))
    }

    /**
     * What the `switch` of `ProcessOne` runs for a tag other than the end
     * tag, from the current state. A bad query to the query-handle command
     * is answered and the query still runs.
     */
    function Handle(cmd: string, args: map<string, Json>, env: Env): Handled
      requires Valid()
      reads this, qs, qs.vals.Values
    {
      if cmd == CommandExecute then Plain(ExecuteReply(args, env))
      else if cmd == CommandQueryImmediate then Plain(ImmediateReply(args, env))
      else if cmd == CommandQuery then
        var first := if ParseQuery(args).Err? then [ErrResponse(ParseQuery(args).error)] else [];
        Handled(first + Said(OpenReply(env.query, qs.next)), None)
      else if cmd == CommandQueryFetch then FetchHandled(args)
      else if cmd == CommandQueryRelease then ReleaseHandled(args)
      else Plain(Failed(Failure("unknown command: " + cmd)))
    }

    /** `NewServer`: an empty cursor table over the given input. */
    constructor NewServer(input: seq<Request>)
      ensures Valid() && fresh(qs)
      ensures qs.vals == map[] && qs.next == 0
      ensures stdin == input && out == []
    {
      qs := new Prober<Cursor>();
      stdin := input;
      out := [];
    }

    /**
     * `Loop`: an ok response first, then one turn per request until a turn
     * ends the session. Without a panic every request receives the
     * responses `Responses` counts; a panic leaves its request with at most
     * one.
     */
    method Loop() returns (t: Turn, ghost consumed: nat)
      requires Valid()
      modifies this, qs, qs.vals.Values
      ensures Valid() && OnlyNewValues()
      ensures t != Continue
      ensures consumed <= |old(stdin)| && stdin == old(stdin)[consumed..]
      ensures |out| > |old(out)| && out[..|old(out)| + 1] == old(out) + [OkResponse()]
      ensures forall i :: 0 <= i < consumed - 1 ==> Continues(old(stdin)[i])
      ensures t.Crash? ==> 0 < consumed && Continues(old(stdin)[consumed - 1])
      ensures !t.Crash? ==>
        || (consumed == |old(stdin)| && t == End && forall i :: 0 <= i < consumed ==> Continues(old(stdin)[i]))
        || (0 < consumed && !Continues(old(stdin)[consumed - 1]) && t == Stop(old(stdin)[consumed - 1]))
      ensures !t.Crash? ==> |out| == |old(out)| + 1 + Responded(old(stdin)[..consumed])
      ensures t.Crash? ==>
        var before := |old(out)| + 1 + Responded(old(stdin)[..consumed - 1]);
        before <= |out| <= before + 1
    {
      ghost var input := stdin;
      out := out + [OkResponse()];
      consumed := 0;
      while true
        invariant Valid() && OnlyNewValues()
        invariant consumed <= |input| && stdin == input[consumed..]
        invariant forall i :: 0 <= i < consumed ==> Continues(input[i])
        invariant |out| == |old(out)| + 1 + Responded(input[..consumed])
        invariant out[..|old(out)| + 1] == old(out) + [OkResponse()]
        decreases |stdin|
      {
        ghost var before := out;
        ghost var wasEmpty := stdin == [];
        t := ProcessOne();
        if !wasEmpty {
          assert input[..consumed + 1][..consumed] == input[..consumed];
          consumed := consumed + 1;
        }
        assert out[..|old(out)| + 1] == before[..|old(out)| + 1];
        if t != Continue {
          return;
        }
      }
    }

    /**
     * `ProcessOne`: read one line and act on it, as in the newer server,
     * except that the handlers answer for themselves.
     */
    method ProcessOne() returns (t: Turn)
      requires Valid()
      modifies this, qs, qs.vals.Values
      ensures Valid() && OnlyNewValues()
      ensures old(stdin) == [] ==> t == End && stdin == [] && out == old(out)
      ensures old(stdin) != [] ==> stdin == old(stdin)[1..]
      ensures old(stdin) != [] && !Continues(old(stdin)[0]) ==>
        && t == Stop(old(stdin)[0])
        && out == old(out) + (if Decodes(old(stdin)[0]) then [OkResponse()] else [])
      ensures old(stdin) != [] && Continues(old(stdin)[0]) ==>
        && |out| >= |old(out)| && out[..|old(out)|] == old(out)
        && ((t == Continue && |out| == |old(out)| + Responses(old(stdin)[0]))
            || (t.Crash? && |out| <= |old(out)| + 1 && Tag(old(stdin)[0]) == CommandQueryFetch))
      ensures old(stdin) != [] && Continues(old(stdin)[0]) && Tag(old(stdin)[0]) !in Known() ==>
        t == Continue && out == old(out) + [ErrResponse(Failure("unknown command: " + Tag(old(stdin)[0])))]
    {
      if stdin == [] {
        return End;
      }
      var req := stdin[0];
      stdin := stdin[1..];
      match req.read
      case Eof => t := End;
      case UnexpectedEof => t := End;
      case ReadError(m) => t := Abort(Failure("stdin read: " + m));
      case Line(doc) =>
        var msg := Unmarshal(doc);
        if msg.Err? {
          return Abort(Wrap("stdin json: ", msg.error));
        }
        t := Answer(msg.value, req.env);
    }

    /** The `switch` of `ProcessOne` on a decoded command. */
    method Answer(msg: RpcMsg, env: Env) returns (t: Turn)
      requires Valid()
      modifies this, qs, qs.vals.Values
      ensures Valid() && OnlyNewValues()
      ensures stdin == old(stdin)
      ensures |out| >= |old(out)| && out[..|old(out)|] == old(out)
      ensures msg.command == CommandEnd ==> t == End && out == old(out) + [OkResponse()]
      ensures msg.command != CommandEnd ==>
        || (t == Continue && |out| == |old(out)| +
              (if msg.command == CommandQuery && ParseQuery(msg.args).Err? then 2 else 1))
        || (t.Crash? && |out| <= |old(out)| + 1 && msg.command == CommandQueryFetch)
      ensures msg.command != CommandEnd && msg.command !in Known() ==>
        t == Continue && out == old(out) + [ErrResponse(Failure("unknown command: " + msg.command))]
      ensures msg.command != CommandEnd ==>
        var h := old(Handle(msg.command, msg.args, env));
        out == old(out) + h.said && t == (if h.crash.Some? then Crash(h.crash.value) else Continue)
    {
      var cmd := msg.command;
      if cmd == CommandEnd {
        out := out + [OkResponse()];
        t := End;
      } else if cmd == CommandExecute {
        CmdExecute(msg.args, env);
        t := Continue;
      } else if cmd == CommandQueryImmediate {
        CmdQueryImmediate(msg.args, env);
        t := Continue;
      } else if cmd == CommandQuery {
        CmdQueryHandle(msg.args, env);
        t := Continue;
      } else if cmd == CommandQueryFetch {
        var crash := CmdQueryFetch(msg.args);
        t := if crash.Some? then Crash(crash.value) else Continue;
      } else if cmd == CommandQueryRelease {
        CmdQueryRelease(msg.args);
        t := Continue;
      } else {
        out := out + [ErrResponse(Failure("unknown command: " + cmd))];
        t := Continue;
      }
    }

    /** `cmdExecute`: one response, an error or ok. */
    method CmdExecute(args: map<string, Json>, env: Env)
      requires Valid()
      modifies this
      ensures Valid() && stdin == old(stdin)
      ensures out == old(out) + old(Handle(CommandExecute, args, env)).said
      ensures ParseQuery(args).Err? ==> out == old(out) + [ErrResponse(ParseQuery(args).error)]
      ensures ParseQuery(args).Ok? && env.exec.Some? ==> out == old(out) + [ErrResponse(Failure(env.exec.value))]
      ensures ParseQuery(args).Ok? && env.exec.None? ==> out == old(out) + [OkResponse()]
    {
      var q := ParseQuery(args);
      if q.Err? {
        out := out + [ErrResponse(q.error)];
        return;
      }
      if env.exec.Some? {
        out := out + [ErrResponse(Failure(env.exec.value))];
        return;
      }
      out := out + [OkResponse()];
    }

    /**
     * `cmdQueryHandle`: a bad query is answered with its error and then the
     * partly filled query runs anyway, without arguments, with the
     * database's answer in `env`; its outcome is answered and, when it
     * opens, registered.
     */
    method CmdQueryHandle(args: map<string, Json>, env: Env)
      requires Valid()
      modifies this, qs
      ensures Valid() && OnlyNewValues() && stdin == old(stdin)
      ensures out == old(out) + old(Handle(CommandQuery, args, env)).said
      ensures var first := if ParseQuery(args).Err? then [ErrResponse(ParseQuery(args).error)] else [];
        && (env.query.QueryFailed? ==>
              && out == old(out) + first + [ErrResponse(Failure("query: " + env.query.msg))]
              && qs.vals == old(qs.vals) && qs.next == old(qs.next))
        && (env.query.QueryOpened? && env.query.colsErr.Some? ==>
              && out == old(out) + first + [ErrResponse(Failure("get columns: " + env.query.colsErr.value))]
              && qs.vals == old(qs.vals) && qs.next == old(qs.next))
        && (env.query.QueryOpened? && env.query.colsErr.None? ==>
              && out == old(out) + first + [HandleResponse(old(qs.next), env.query.cols)]
              && qs.next == old(qs.next) + 1
              && qs.vals.Keys == old(qs.vals.Keys) + {old(qs.next)}
              && (forall k :: k in old(qs.vals) ==> qs.vals[k] == old(qs.vals)[k])
              && fresh(qs.vals[old(qs.next)])
              && qs.vals[old(qs.next)].items == env.query.items && qs.vals[old(qs.next)].pos == 0
              && !qs.vals[old(qs.next)].closed)
    {
      var q := ParseQuery(args);
      if q.Err? {
        out := out + [ErrResponse(q.error)];
      }
      if env.query.QueryFailed? {
        out := out + [ErrResponse(Failure("query: " + env.query.msg))];
        return;
      }
      var rows := new Cursor(env.query);
      var cols := rows.Columns();
      if cols.Err? {
        out := out + [ErrResponse(Failure("get columns: " + cols.error))];
        return;
      }
      var k := qs.Insert(rows);
      out := out + [HandleResponse(k, cols.value)];
    }

    /**
     * `cmdQueryFetch`: as in the newer server, except that an unknown handle
     * is answered with an error and then panics, and that every outcome is
     * answered here. Returns the panic, if any.
     */
    method CmdQueryFetch(args: map<string, Json>) returns (crash: Option<string>)
      requires Valid()
      modifies this, qs.vals.Values
      ensures Valid() && OnlyNewValues() && stdin == old(stdin)
      ensures forall c :: c in qs.vals.Values && (GetInt(args, "n").Err? || GetInt(args, "h").Err? || GetInt(args, "h").value !in qs.vals || c != qs.vals[GetInt(args, "h").value]) ==>
        unchanged(c)
      ensures out == old(out) + old(FetchHandled(args)).said && crash == old(FetchHandled(args)).crash
      ensures GetInt(args, "n").Err? ==> crash.None? && out == old(out) + [ErrResponse(GetInt(args, "n").error)]
      ensures GetInt(args, "n").Ok? && GetInt(args, "h").Err? ==>
        crash.None? && out == old(out) + [ErrResponse(GetInt(args, "h").error)]
      ensures GetInt(args, "n").Ok? && GetInt(args, "h").Ok? && GetInt(args, "h").value !in qs.vals ==>
        crash == Some(NilDeref) && out == old(out) + [ErrResponse(Failure("no such handle"))]
      ensures GetInt(args, "n").Ok? && GetInt(args, "h").Ok? && GetInt(args, "h").value in qs.vals ==>
        var c := qs.vals[GetInt(args, "h").value];
        var f := Collect(c.items[old(c.pos)..], GetInt(args, "n").value);
        && (old(c.closed) ==> crash.Some? && out == old(out) && c.pos == old(c.pos))
        && (!old(c.closed) && f.ScanFailed? ==>
              crash.None? && out == old(out) + [ErrResponse(Failure("row scan: " + f.msg))])
        && (!old(c.closed) && f.Fetched? ==>
              && crash.None?
              && out == old(out) + [FetchResponse(f.rows, f.eof, c.Err())]
              && c.closed == f.eof && c.pos == old(c.pos) + |f.rows|)
    {
      var n := GetInt(args, "n");
      if n.Err? {
        out := out + [ErrResponse(n.error)];
        return None;
      }
      var h := GetInt(args, "h");
      if h.Err? {
        out := out + [ErrResponse(h.error)];
        return None;
      }
      var found := qs.Get(h.value);
      if found.None? {
        out := out + [ErrResponse(Failure("no such handle"))];
        return Some(NilDeref);
      }
      var query := found.value;
      var cols := query.Columns();
      if cols.Err? {
        return Some("consistency error: could not fetch cols anymore: " + cols.error);
      }
      var f := FetchUpTo(query, n.value);
      if f.ScanFailed? {
        out := out + [ErrResponse(Failure("row scan: " + f.msg))];
        return None;
      }
      out := out + [FetchResponse(f.rows, f.eof, query.Err())];
      crash := None;
    }

    /** `cmdQueryRelease`: close and forget the cursor. */
    method CmdQueryRelease(args: map<string, Json>)
      requires Valid()
      modifies this, qs, qs.vals.Values
      ensures Valid() && OnlyNewValues() && stdin == old(stdin)
      ensures forall c :: c in old(qs.vals.Values) && (GetInt(args, "h").Err? || GetInt(args, "h").value !in old(qs.vals) || c != old(qs.vals)[GetInt(args, "h").value]) ==>
        unchanged(c)
      ensures out == old(out) + old(ReleaseHandled(args)).said
      ensures qs.next == old(qs.next)
      ensures GetInt(args, "h").Err? ==>
        out == old(out) + [ErrResponse(GetInt(args, "h").error)] && qs.vals == old(qs.vals)
      ensures GetInt(args, "h").Ok? && GetInt(args, "h").value !in old(qs.vals) ==>
        out == old(out) + [ErrResponse(Failure("no such query"))] && qs.vals == old(qs.vals)
      ensures GetInt(args, "h").Ok? && GetInt(args, "h").value in old(qs.vals) ==>
        && out == old(out) + [OkResponse()]
        && old(qs.vals)[GetInt(args, "h").value].closed
        && qs.vals == old(qs.vals) - {GetInt(args, "h").value}
    {
      var h := GetInt(args, "h");
      if h.Err? {
        out := out + [ErrResponse(h.error)];
        return;
      }
      var found := qs.Get(h.value);
      if found.None? {
        out := out + [ErrResponse(Failure("no such query"))];
        return;
      }
      found.value.Close();
      qs.Release(h.value);
      out := out + [OkResponse()];
    }

    /** `cmdQueryImmediate`: one response, an error or every row with the column names. */
    method CmdQueryImmediate(args: map<string, Json>, env: Env)
      requires Valid()
      modifies this
      ensures Valid() && stdin == old(stdin)
      ensures out == old(out) + old(Handle(CommandQueryImmediate, args, env)).said
      ensures ParseQuery(args).Err? ==> out == old(out) + [ErrResponse(ParseQuery(args).error)]
      ensures ParseQuery(args).Ok? && env.query.QueryFailed? ==>
        out == old(out) + [ErrResponse(Failure("query: " + env.query.msg))]
      ensures ParseQuery(args).Ok? && env.query.QueryOpened? && env.query.colsErr.Some? ==>
        out == old(out) + [ErrResponse(Failure("get columns: " + env.query.colsErr.value))]
      ensures ParseQuery(args).Ok? && env.query.QueryOpened? && env.query.colsErr.None? ==>
        var f := CollectAll(env.query.items);
        && (f.ScanFailed? ==> out == old(out) + [ErrResponse(Failure("row scan: " + f.msg))])
        && (f.Fetched? ==> out == old(out) + [ImmediateResponse(f.rows, env.query.cols, env.query.lastErr)])
    {
      var q := ParseQuery(args);
      if q.Err? {
        out := out + [ErrResponse(q.error)];
        return;
      }
      if env.query.QueryFailed? {
        out := out + [ErrResponse(Failure("query: " + env.query.msg))];
        return;
      }
      var rows := new Cursor(env.query);
      var cols := rows.Columns();
      if cols.Err? {
        rows.Close();
        out := out + [ErrResponse(Failure("get columns: " + cols.error))];
        return;
      }
      var f := FetchAll(rows);
      if f.ScanFailed? {
        rows.Close();
        out := out + [ErrResponse(Failure("row scan: " + f.msg))];
        return;
      }
      out := out + [ImmediateResponse(f.rows, cols.value, rows.Err())];
      rows.Close();
    }
  }
}
