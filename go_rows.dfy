/**
 * The `database/sql` result-set iterator the Go servers hold behind a query
 * handle, and the two row-collecting loops both servers run over it: the
 * bounded loop of `cmdQueryFetch` and the unbounded one of
 * `cmdQueryImmediate`.
 */
module GoRows {
  import opened Wrappers
  import opened Json

  /** One row of a result set as `Scan` sees it: its values, or a scan error. */
  datatype RowItem = Row(values: seq<Json>) | ScanError(msg: string)

  /**
   * What running a query gives: a failure, or an open result set with its
   * column names (or the error reading them), its rows, and the error, if
   * any, that ends the iteration after the last row.
   */
  datatype QueryOutcome =
    | QueryFailed(msg: string)
    | QueryOpened(colsErr: Option<string>, cols: seq<string>, items: seq<RowItem>, lastErr: Option<string>)

  /**
   * `*sql.Rows`: the whole result set is fixed up front; `pos` counts the
   * rows `Next` has moved past. A `Next` that finds no further row closes
   * the iterator, as `database/sql` does.
   */
  class Cursor {
    const cols: seq<string>
    const colsErr: Option<string>
    const items: seq<RowItem>
    const lastErr: Option<string>
    var pos: nat
    var closed: bool
    var exhausted: bool

    ghost predicate Valid()
      reads this
    {
      pos <= |items| && (exhausted ==> closed && pos == |items|)
    }

    constructor (o: QueryOutcome)
      requires o.QueryOpened?
      ensures Valid()
      ensures cols == o.cols && colsErr == o.colsErr && items == o.items && lastErr == o.lastErr
      ensures pos == 0 && !closed && !exhausted
    {
      cols, colsErr, items, lastErr := o.cols, o.colsErr, o.items, o.lastErr;
      pos, closed, exhausted := 0, false, false;
    }

    /** `Columns`: the column names, unless the iterator is closed. */
    function Columns(): (r: Result<seq<string>, string>)
      reads this
      ensures r.Ok? <==> !closed && colsErr.None?
      ensures r.Ok? ==> r.value == cols
    {
      if closed then Result.Err(if exhausted && lastErr.Some? then lastErr.value else "sql: Rows are closed")
      else if colsErr.Some? then Result.Err(colsErr.value)
      else Ok(cols)
    }

    /** `Next`: moves onto the next row, or closes the iterator when there is none. */
    method Next() returns (more: bool)
      requires Valid()
      modifies this
      ensures Valid()
      ensures more <==> !old(closed) && old(pos) < |items|
      ensures more ==> pos == old(pos) + 1 && !closed && exhausted == old(exhausted)
      ensures !more && !old(closed) ==> closed && exhausted && pos == old(pos) == |items|
      ensures old(closed) ==> closed && pos == old(pos) && exhausted == old(exhausted)
    {
      if closed {
        more := false;
      } else if pos < |items| {
        pos := pos + 1;
        more := true;
      } else {
        closed, exhausted := true, true;
        more := false;
      }
    }

    /** `Scan` of the current row. */
    function Scan(): (r: RowItem)
      requires Valid()
      reads this
      ensures !closed && 0 < pos ==> r == items[pos - 1]
    {
      if closed then ScanError("sql: Rows are closed")
      else if pos == 0 then ScanError("sql: Scan called without calling Next")
      else items[pos - 1]
    }

    /** `Err`: the error that ended the iteration, once it has ended. */
    function Err(): (r: Option<string>)
      reads this
      ensures r.Some? ==> exhausted && lastErr == r
      ensures exhausted ==> r == lastErr
    {
      if exhausted then lastErr else None
    }

    /** `Close`. */
    method Close()
      requires Valid()
      modifies this
      ensures Valid()
      ensures closed && pos == old(pos) && exhausted == old(exhausted)
    {
      closed := true;
    }
  }

  /** The rows a fetch collected and whether it hit the end, or the scan error that stopped it at row `at`. */
  datatype Fetch = Fetched(rows: seq<seq<Json>>, eof: bool) | ScanFailed(msg: string, at: nat)

  /** `rows` collected in front of the fetch `f`. */
  function Prepend(rows: seq<seq<Json>>, f: Fetch): (r: Fetch)
  {
    match f
    case Fetched(rs, e) => Fetched(rows + rs, e)
    case ScanFailed(m, at) => ScanFailed(m, at + |rows|)
  }

  lemma PrependTwice(rows: seq<seq<Json>>, v: seq<Json>, f: Fetch)
    ensures Prepend(rows, Prepend([v], f)) == Prepend(rows + [v], f)
  {
    if f.Fetched? {
      assert rows + ([v] + f.rows) == (rows + [v]) + f.rows;
    }
  }

  /**
   * What fetching up to `n` rows from the remaining rows `items` gives:
   * one row per `Next`, stopping at the first scan error, after `n` rows,
   * or when the rows run out (`eof`).
   */
  function Collect(items: seq<RowItem>, n: int): Fetch
    decreases |items|
  {
    if n <= 0 then Fetched([], false)
    else if items == [] then Fetched([], true)
    else match items[0]
      case ScanError(m) => ScanFailed(m, 0)
      case Row(v) => Prepend([v], Collect(items[1..], n - 1))
  }

  /** How many rows a fetch of `n` can return from `len` remaining rows. */
  function Limit(n: int, len: nat): (k: nat)
    ensures k <= len && (n > 0 ==> k <= n) && (n <= 0 ==> k == 0)
    ensures 0 < n <= len ==> k == n
    ensures n > len ==> k == len
  {
    if n <= 0 then 0 else if n < len then n else len
  }

  /**
   * A fetch returns at most `n` rows, exactly the first `min(n, remaining)`
   * ones, in order, and reports `eof` exactly when fewer than `n` rows
   * remained; or it fails on the first unscannable row among those.
   */
  lemma {:induction false} CollectSpec(items: seq<RowItem>, n: int)
    ensures var r := Collect(items, n);
      && (r.Fetched? <==> forall i :: 0 <= i < Limit(n, |items|) ==> items[i].Row?)
      && (r.Fetched? ==>
            && |r.rows| == Limit(n, |items|)
            && (r.eof <==> |items| < n)
            && forall i :: 0 <= i < |r.rows| ==> items[i] == Row(r.rows[i]))
      && (r.ScanFailed? ==>
            && r.at < Limit(n, |items|)
            && items[r.at] == ScanError(r.msg)
            && forall i :: 0 <= i < r.at ==> items[i].Row?)
    decreases |items|
  {
    if n > 0 && items != [] && items[0].Row? {
      CollectSpec(items[1..], n - 1);
      var r := Collect(items[1..], n - 1);
      if r.Fetched? {
        forall i | 0 <= i < |r.rows| + 1
          ensures items[i] == Row(([items[0].values] + r.rows)[i])
        {
          if i > 0 { assert items[i] == items[1..][i - 1]; }
        }
      } else {
        assert items[r.at + 1] == items[1..][r.at];
        forall i | 0 <= i < r.at + 1 ensures items[i].Row? {
          if i > 0 { assert items[i] == items[1..][i - 1]; }
        }
      }
      forall i | 1 <= i < Limit(n, |items|) ensures items[i] == items[1..][i - 1] { }
    }
  }

  /** What collecting every remaining row gives: all of them, or the first scan error. */
  function CollectAll(items: seq<RowItem>): Fetch
    decreases |items|
  {
    if items == [] then Fetched([], true)
    else match items[0]
      case ScanError(m) => ScanFailed(m, 0)
      case Row(v) => Prepend([v], CollectAll(items[1..]))
  }

  /** Collecting every row is fetching with a bound larger than what remains. */
  lemma {:induction false} CollectAllIsUnbounded(items: seq<RowItem>)
    ensures CollectAll(items) == Collect(items, |items| + 1)
    decreases |items|
  {
    if items != [] {
      CollectAllIsUnbounded(items[1..]);
    }
  }

  /**
   * The fetch loop of `cmdQueryFetch`: up to `n` times, `Next` then scan.
   * The cursor ends right after the last row read, and is closed exactly
   * when the fetch reports `eof`.
   */
  method FetchUpTo(cur: Cursor, n: int) returns (r: Fetch)
    requires cur.Valid() && !cur.closed
    modifies cur
    ensures cur.Valid()
    ensures r == Collect(old(cur.items[cur.pos..]), n)
    ensures r.Fetched? ==> cur.pos == old(cur.pos) + |r.rows| && cur.closed == r.eof && cur.exhausted == r.eof
    ensures r.ScanFailed? ==> cur.pos == old(cur.pos) + r.at + 1 && !cur.closed
  {
    ghost var p0 := cur.pos;
    ghost var rest := cur.items[p0..];
    var rows: seq<seq<Json>> := [];
    var eof := false;
    var i := 0;
    while i < n
      invariant 0 <= i && (n > 0 ==> i <= n)
      invariant cur.Valid() && !cur.closed && cur.pos == p0 + i && |rows| == i
      invariant Collect(rest, n) == Prepend(rows, Collect(rest[i..], n - i))
    {
      var more := cur.Next();
      if !more {
        eof := true;
        assert rest[i..] == [];
        break;
      }
      var item := cur.Scan();
      assert item == rest[i];
      if item.ScanError? {
        return ScanFailed(item.msg, i);
      }
      assert rest[i..][1..] == rest[i + 1..];
      PrependTwice(rows, item.values, Collect(rest[i + 1..], n - i - 1));
      rows := rows + [item.values];
      i := i + 1;
    }
    r := Fetched(rows, eof);
  }

  /**
   * The loop of `cmdQueryImmediate`: `Next` then scan until `Next` fails.
   */
  method FetchAll(cur: Cursor) returns (r: Fetch)
    requires cur.Valid() && !cur.closed
    modifies cur
    ensures cur.Valid()
    ensures r == CollectAll(old(cur.items[cur.pos..]))
    ensures r.Fetched? ==> r.eof && cur.closed && cur.exhausted && cur.pos == |cur.items|
    ensures r.ScanFailed? ==> cur.pos == old(cur.pos) + r.at + 1 && !cur.closed
  {
    ghost var p0 := cur.pos;
    ghost var rest := cur.items[p0..];
    var rows: seq<seq<Json>> := [];
    while true
      invariant cur.Valid() && !cur.closed && cur.pos == p0 + |rows|
      invariant CollectAll(rest) == Prepend(rows, CollectAll(rest[|rows|..]))
      decreases |cur.items| - cur.pos
    {
      var more := cur.Next();
      if !more {
        assert rest[|rows|..] == [];
        return Fetched(rows, true);
      }
      var item := cur.Scan();
      assert item == rest[|rows|];
      if item.ScanError? {
        return ScanFailed(item.msg, |rows|);
      }
      assert rest[|rows|..][1..] == rest[|rows| + 1..];
      PrependTwice(rows, item.values, CollectAll(rest[|rows| + 1..]));
      rows := rows + [item.values];
    }
  }
}
