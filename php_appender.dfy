/**
 * client/php/src/Appender.php: the client side of an appender. It sends
 * rows with `ai` and releases the appender with `ax`, either on `commit` or,
 * failing that, in its destructor. Once committed, or once any call has
 * thrown, the destructor sends nothing.
 */
module PhpAppender {
  import opened Wrappers
  import opened Json
  import opened PhpCall

  /** Whether the appender is committed after a call through the guarded `call`. */
  function CommittedAfter(committed: bool, raised: Option<string>): (r: bool)
    ensures r <==> committed || raised.Some?
  {
    committed || raised.Some?
  }

  /** The client operations on an appender. */
  datatype Op = InsertRows(rows: seq<seq<Json>>) | Commit

  /** The call an operation sends. */
  function CallOf(handle: int, op: Op): Call
  {
    match op
    case InsertRows(rows) => InsertCall(handle, rows)
    case Commit => ReleaseCall("ax", handle)
  }

  /** The committed flag after an operation whose call had the given outcome. */
  function FlagAfter(committed: bool, op: Op, raised: Option<string>): bool
  {
    if op.Commit? then true else CommittedAfter(committed, raised)
  }

  /**
   * The calls a whole lifetime sends: each operation's call until one
   * throws (which ends the caller's use), then the destructor's release
   * unless the appender is committed by then.
   */
  function Lifetime(handle: int, committed: bool, ops: seq<Op>, raised: seq<Option<string>>): seq<Call>
    requires |raised| == |ops|
    decreases |ops|
  {
    if ops == [] then (if committed then [] else [ReleaseCall("ax", handle)])
    else
      var c := CallOf(handle, ops[0]);
      var flag := FlagAfter(committed, ops[0], raised[0]);
      if raised[0].Some? then [c] + (if flag then [] else [ReleaseCall("ax", handle)])
      else [c] + Lifetime(handle, flag, ops[1..], raised[1..])
  }

  function Releases(calls: seq<Call>): nat
  {
    if calls == [] then 0 else (if calls[0].name == "ax" then 1 else 0) + Releases(calls[1..])
  }

  function Commits(ops: seq<Op>): nat
  {
    if ops == [] then 0 else (if ops[0].Commit? then 1 else 0) + Commits(ops[1..])
  }

  /**
   * Over a lifetime in which no call throws, the appender is released once
   * per `commit`, and by the destructor exactly when there was none (and it
   * was not committed already).
   */
  lemma {:induction false} LifetimeReleases(handle: int, committed: bool, ops: seq<Op>, raised: seq<Option<string>>)
    requires |raised| == |ops|
    requires forall i :: 0 <= i < |raised| ==> raised[i].None?
    ensures Releases(Lifetime(handle, committed, ops, raised))
      == Commits(ops) + (if committed || Commits(ops) > 0 then 0 else 1)
    decreases |ops|
  {
    if ops != [] {
      var flag := FlagAfter(committed, ops[0], raised[0]);
      LifetimeReleases(handle, flag, ops[1..], raised[1..]);
      var rest := Lifetime(handle, flag, ops[1..], raised[1..]);
      assert Lifetime(handle, committed, ops, raised) == [CallOf(handle, ops[0])] + rest;
      assert ([CallOf(handle, ops[0])] + rest)[1..] == rest;
    }
  }

  /**
   * If any call throws, the lifetime sends nothing after it: the
   * destructor does not release an appender whose call failed.
   */
  lemma {:induction false} ThrowEndsLifetime(handle: int, committed: bool, ops: seq<Op>, raised: seq<Option<string>>)
    requires |raised| == |ops| && 0 < |ops| && raised[0].Some?
    ensures Lifetime(handle, committed, ops, raised) == [CallOf(handle, ops[0])]
  {
  }

  class Appender {
    const handle: int
    var isCommitted: bool
    /** The calls sent so far, in order. */
    ghost var calls: seq<Call>

    constructor (handle: int)
      ensures this.handle == handle && !isCommitted && calls == []
    {
      this.handle := handle;
      isCommitted := false;
      calls := [];
    }

    /** The private `call`: an exception marks the appender committed before it propagates. */
    method Call(c: Call, raised: Option<string>) returns (thrown: Option<string>)
      modifies this
      ensures calls == old(calls) + [c]
      ensures thrown == raised
      ensures isCommitted == CommittedAfter(old(isCommitted), raised)
    {
      calls := calls + [c];
      if raised.Some? {
        isCommitted := true;
        return raised;
      }
      thrown := None;
    }

    /** `insertRows`: one `ai` with the handle and the rows unchanged. */
    method InsertRows(rows: seq<seq<Json>>, raised: Option<string>) returns (thrown: Option<string>)
      modifies this
      ensures calls == old(calls) + [CallOf(handle, Op.InsertRows(rows))]
      ensures thrown == raised
      ensures isCommitted == FlagAfter(old(isCommitted), Op.InsertRows(rows), raised)
    {
      thrown := Call(InsertCall(handle, rows), raised);
    }

    /** `insertRow`: exactly `insertRows` of a one-row batch. */
    method InsertRow(row: seq<Json>, raised: Option<string>) returns (thrown: Option<string>)
      modifies this
      ensures calls == old(calls) + [CallOf(handle, Op.InsertRows([row]))]
      ensures thrown == raised
      ensures isCommitted == FlagAfter(old(isCommitted), Op.InsertRows([row]), raised)
    {
      thrown := InsertRows([row], raised);
    }

    /** `commit`: send `ax`; the appender is committed whether or not it throws. */
    method Commit(raised: Option<string>) returns (thrown: Option<string>)
      modifies this
      ensures calls == old(calls) + [CallOf(handle, Op.Commit)]
      ensures thrown == raised
      ensures isCommitted && isCommitted == FlagAfter(old(isCommitted), Op.Commit, raised)
    {
      thrown := Call(ReleaseCall("ax", handle), raised);
      isCommitted := true;
    }

    /**
     * `__destruct`: nothing when committed; otherwise `ax` through the raw
     * closure, which leaves the flag alone even if it throws.
     */
    method Destruct(raised: Option<string>) returns (thrown: Option<string>)
      modifies this
      ensures old(isCommitted) ==> calls == old(calls) && thrown.None?
      ensures !old(isCommitted) ==> calls == old(calls) + [ReleaseCall("ax", handle)] && thrown == raised
      ensures isCommitted == old(isCommitted)
    {
      if isCommitted {
        return None;
      }
      calls := calls + [ReleaseCall("ax", handle)];
      thrown := raised;
    }
  }
}
