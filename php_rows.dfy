/**
 * client/php/src/Rows.php: the client side of a query cursor. It fetches
 * chunks of rows with `qf`, turns each row into an object keyed by column
 * name, and remembers when the server reported the end.
 */
module PhpRows {
  import opened Wrappers
  import opened Json
  import opened PhpCall

  /** A `\stdClass` row: column name to value. */
  type RowObject = map<string, Json>

  /** The outcome of one `qf` call: an exception, or the decoded reply's `eof` and `r`. */
  datatype FetchReply = Raised(msg: string) | Fetched(eof: bool, rows: seq<seq<Json>>)

  /** A PHP call that returns a value or throws. */
  datatype Outcome<T> = Returned(value: T) | Thrown(msg: string)

  /** `$row[$i]`: a missing index reads as null. */
  function Cell(row: seq<Json>, i: nat): Json
  {
    if i < |row| then row[i] else Null
  }

  /** The object the `foreach` over the columns builds: later columns overwrite earlier ones of the same name. */
  function ObjectOf(columns: seq<string>, row: seq<Json>): RowObject
    decreases |columns|
  {
    if columns == [] then map[]
    else ObjectOf(columns[..|columns| - 1], row)[columns[|columns| - 1] := Cell(row, |columns| - 1)]
  }

  /**
   * The object has one property per distinct column name, and the value of
   * a name is the cell at its last position among the columns; with
   * distinct names, column `i` holds cell `i`.
   */
  lemma {:induction false} ObjectOfSpec(columns: seq<string>, row: seq<Json>)
    ensures ObjectOf(columns, row).Keys == set c | c in columns
    ensures forall i :: 0 <= i < |columns| && (forall j :: i < j < |columns| ==> columns[j] != columns[i]) ==>
      ObjectOf(columns, row)[columns[i]] == Cell(row, i)
    decreases |columns|
  {
    if columns != [] {
      var init := columns[..|columns| - 1];
      ObjectOfSpec(init, row);
      assert forall c :: c in columns <==> c in init || c == columns[|columns| - 1];
      forall i | 0 <= i < |columns| && (forall j :: i < j < |columns| ==> columns[j] != columns[i])
        ensures ObjectOf(columns, row)[columns[i]] == Cell(row, i)
      {
        if i < |columns| - 1 {
          assert columns[i] == init[i];
          assert forall j :: i < j < |init| ==> init[j] == columns[j];
        }
      }
    }
  }

  /** `array_map` of the row-to-object closure. */
  function Objects(columns: seq<string>, rows: seq<seq<Json>>): (r: seq<RowObject>)
    ensures |r| == |rows|
    ensures forall i :: 0 <= i < |rows| ==> r[i] == ObjectOf(columns, rows[i])
  {
    seq(|rows|, i requires 0 <= i < |rows| => ObjectOf(columns, rows[i]))
  }

  /** The closure passed to `array_map`: the `foreach` over the columns. */
  method BuildObject(columns: seq<string>, row: seq<Json>) returns (obj: RowObject)
    ensures obj == ObjectOf(columns, row)
  {
    obj := map[];
    var i := 0;
    while i < |columns|
      invariant i <= |columns|
      invariant obj == ObjectOf(columns[..i], row)
    {
      assert columns[..i + 1][..i] == columns[..i];
      obj := obj[columns[i] := Cell(row, i)];
      i := i + 1;
    }
    assert columns[..|columns|] == columns;
  }

  /** The rows of the fetched replies, in order. */
  function AllRows(replies: seq<FetchReply>): seq<seq<Json>>
  {
    if replies == [] then []
    else (if replies[0].Fetched? then replies[0].rows else []) + AllRows(replies[1..])
  }

  /**
   * What iterating yields from the given `qf` replies: the rows, how many
   * replies it used, the exception it ended with, whether the cursor ended
   * exhausted, and whether it needed more replies than were given.
   */
  datatype Drained = Drained(rows: seq<RowObject>, used: nat, thrown: Option<string>, exhausted: bool, starved: bool)

  /** `getIterator`: fetch chunks until one is null (exhausted) or empty, or a call throws. */
  function Drain(columns: seq<string>, replies: seq<FetchReply>, exhausted: bool): Drained
    decreases |replies|
  {
    if exhausted then Drained([], 0, None, true, false)
    else if replies == [] then Drained([], 0, None, false, true)
    else match replies[0]
      case Raised(m) => Drained([], 1, Some(m), false, false)
      case Fetched(eof, rows) =>
        if rows == [] then Drained([], 1, None, eof, false)
        else
          var d := Drain(columns, replies[1..], eof);
          d.(rows := Objects(columns, rows) + d.rows, used := d.used + 1)
  }

  /**
   * Iteration uses a prefix of the replies in which every reply but the
   * last brought rows without `eof`; it stops at the first reply that
   * throws, is empty or reports `eof` (after yielding that reply's rows),
   * and yields every row of the used replies, in order.
   */
  lemma {:induction false} DrainSpec(columns: seq<string>, replies: seq<FetchReply>)
    ensures var d := Drain(columns, replies, false);
      && d.used <= |replies|
      && (forall j :: 0 <= j < d.used - 1 ==> replies[j].Fetched? && replies[j].rows != [] && !replies[j].eof)
      && (!d.starved ==>
            && 0 < d.used
            && (replies[d.used - 1].Raised? || replies[d.used - 1].rows == [] || replies[d.used - 1].eof))
      && (d.starved <==> d.used == |replies| && forall j :: 0 <= j < |replies| ==>
            replies[j].Fetched? && replies[j].rows != [] && !replies[j].eof)
      && (d.thrown.Some? <==> !d.starved && replies[d.used - 1].Raised?)
      && d.rows == Objects(columns, AllRows(replies[..d.used]))
    decreases |replies|
  {
    var d := Drain(columns, replies, false);
    if replies == [] {
      assert replies[..0] == [];
    } else if replies[0].Raised? || replies[0].rows == [] {
      assert replies[..1] == [replies[0]];
      assert replies[..1][1..] == [];
    } else if replies[0].eof {
      assert replies[..1] == [replies[0]];
      assert replies[..1][1..] == [];
      assert AllRows(replies[..1]) == replies[0].rows;
    } else {
      var tail := replies[1..];
      DrainSpec(columns, tail);
      var dt := Drain(columns, tail, false);
      assert replies[..d.used][1..] == tail[..dt.used];
      assert AllRows(replies[..d.used]) == replies[0].rows + AllRows(tail[..dt.used]);
      ObjectsAppend(columns, replies[0].rows, AllRows(tail[..dt.used]));
      forall j | 0 <= j < d.used - 1
        ensures replies[j].Fetched? && replies[j].rows != [] && !replies[j].eof
      {
        if j > 0 {
          assert replies[j] == tail[j - 1];
        }
      }
      if d.starved {
        forall j | 0 <= j < |replies| ensures replies[j].Fetched? && replies[j].rows != [] && !replies[j].eof {
          if j > 0 {
            assert replies[j] == tail[j - 1];
          }
        }
      }
      if !d.starved {
        assert replies[d.used - 1] == tail[dt.used - 1];
      } else {
        assert dt.starved;
      }
    }
  }

  lemma ObjectsAppend(columns: seq<string>, a: seq<seq<Json>>, b: seq<seq<Json>>)
    ensures Objects(columns, a + b) == Objects(columns, a) + Objects(columns, b)
  {
  }

  class Rows {
    const handle: int
    const columns: seq<string>
    var isExhausted: bool
    /** The calls sent so far, in order. */
    ghost var calls: seq<Call>

    constructor (handle: int, columns: seq<string>)
      ensures this.handle == handle && this.columns == columns
      ensures !isExhausted && calls == []
    {
      this.handle := handle;
      this.columns := columns;
      isExhausted := false;
      calls := [];
    }

    /**
     * `fetchChunk`: once exhausted, return null without a call; otherwise
     * send `qf` with the handle and the size, take `eof` as the new
     * exhausted flag and return the rows as objects. An exception leaves
     * the flag as it was.
     */
    method FetchChunk(size: int, reply: FetchReply) returns (r: Outcome<Option<seq<RowObject>>>)
      modifies this
      ensures old(isExhausted) ==> r == Returned(None) && isExhausted && calls == old(calls)
      ensures !old(isExhausted) ==> calls == old(calls) + [FetchCall(handle, size)]
      ensures !old(isExhausted) && reply.Raised? ==> r == Thrown(reply.msg) && !isExhausted
      ensures !old(isExhausted) && reply.Fetched? ==>
        r == Returned(Some(Objects(columns, reply.rows))) && isExhausted == reply.eof
    {
      if isExhausted {
        return Returned(None);
      }
      calls := calls + [FetchCall(handle, size)];
      match reply {
        case Raised(m) =>
          return Thrown(m);
        case Fetched(eof, rows) =>
          isExhausted := eof;
          var objs: seq<RowObject> := [];
          var i := 0;
          while i < |rows|
            modifies {}
            invariant i <= |rows|
            invariant objs == Objects(columns, rows[..i])
          {
            var obj := BuildObject(columns, rows[i]);
            objs := objs + [obj];
            i := i + 1;
          }
          assert rows[..|rows|] == rows;
          r := Returned(Some(objs));
      }
    }

    /** `fetch`: a chunk of one; null when the chunk is null or empty, else its row. */
    method Fetch(reply: FetchReply) returns (r: Outcome<Option<RowObject>>)
      modifies this
      ensures old(isExhausted) ==> r == Returned(None) && isExhausted && calls == old(calls)
      ensures !old(isExhausted) ==> calls == old(calls) + [FetchCall(handle, 1)]
      ensures !old(isExhausted) && reply.Raised? ==> r == Thrown(reply.msg) && !isExhausted
      ensures !old(isExhausted) && reply.Fetched? ==>
        && isExhausted == reply.eof
        && r == Returned(if reply.rows == [] then None else Some(ObjectOf(columns, reply.rows[0])))
    {
      var chunk := FetchChunk(1, reply);
      match chunk {
        case Thrown(m) => r := Thrown(m);
        case Returned(c) =>
          if c.None? || c.value == [] {
            r := Returned(None);
          } else {
            r := Returned(Some(c.value[0]));
          }
      }
    }

    /**
     * `getIterator`, run to its end: fetch chunks of 100 and yield their
     * rows until a chunk is null or empty or a call throws. `replies` are
     * the outcomes of the `qf` calls in order, and must be enough.
     */
    method Iterate(replies: seq<FetchReply>) returns (objs: seq<RowObject>, thrown: Option<string>)
      requires !Drain(columns, replies, isExhausted).starved
      modifies this
      ensures var d := Drain(columns, replies, old(isExhausted));
        && objs == d.rows && thrown == d.thrown && isExhausted == d.exhausted
        && calls == old(calls) + seq(d.used, _ => FetchCall(handle, 100))
    {
      ghost var d0 := Drain(columns, replies, isExhausted);
      var used := 0;
      objs := [];
      thrown := None;
      while true
        invariant used <= |replies|
        invariant var d := Drain(columns, replies[used..], isExhausted);
          && d0.rows == objs + d.rows && d0.used == used + d.used
          && d0.thrown == d.thrown && d0.exhausted == d.exhausted && !d.starved
        invariant thrown.None?
        invariant calls == old(calls) + seq(used, _ => FetchCall(handle, 100))
        decreases |replies| - used, !isExhausted
      {
        if isExhausted {
          return;
        }
        var reply := replies[used];
        assert replies[used..][1..] == replies[used + 1..];
        var chunk := FetchChunk(100, reply);
        used := used + 1;
        assert calls == old(calls) + seq(used, _ => FetchCall(handle, 100));
        match chunk {
          case Thrown(m) =>
            thrown := Some(m);
            return;
          case Returned(c) =>
            if c.value == [] {
              return;
            }
            objs := objs + c.value;
        }
      }
    }

    /** `__destruct`: release the cursor with `qx` through the raw closure. */
    method Destruct(raised: Option<string>) returns (thrown: Option<string>)
      modifies this
      ensures calls == old(calls) + [ReleaseCall("qx", handle)]
      ensures isExhausted == old(isExhausted) && thrown == raised
    {
      calls := calls + [ReleaseCall("qx", handle)];
      thrown := raised;
    }
  }
}
