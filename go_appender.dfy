/**
 * appender.go: a worker that owns one DuckDB appender and its dedicated
 * connection. The unbuffered channel between caller and worker is modelled
 * as a synchronous call: each caller operation runs one turn of the worker's
 * loop to completion and `comm` records the messages that crossed the
 * channel.
 */
module GoAppender {
  import opened Wrappers
  import opened Json
  import opened GoUtil

  /** What opening the DuckDB appender on the raw connection gave. */
  datatype OpenOutcome = Opened | CastFailed | OpenFailed(msg: string)

  /** A message on the channel: a row (nil row = close signal) or a reply. */
  datatype ChannelMsg = RowRequest(row: seq<Json>) | CloseRequest | Reply(err: Option<Error>)

  /**
   * The worker's life: serving requests; stranded after a successful close
   * (its final send has no receiver, so its deferred cleanup never runs);
   * or exited after an error, with the cleanup done.
   */
  datatype Phase = Serving | Stranded | Exited

  class Appender {
    const schema: string
    const table: string
    /** The flag the callers check; only the worker's cleanup clears it. */
    var open: bool
    /** Rows handed to the DuckDB appender. */
    var appended: seq<seq<Json>>
    /** Rows the last successful flush wrote to the table. */
    var flushed: seq<seq<Json>>
    /** The DuckDB appender was closed successfully. */
    var closed: bool
    /** The worker's dedicated connection was closed. */
    var connClosed: bool
    ghost var comm: seq<ChannelMsg>

    function Phase(): Phase
      reads this
    {
      if !open then Exited else if closed then Stranded else Serving
    }

    ghost predicate Valid()
      reads this
    {
      && (Phase() == Exited <==> connClosed)
      && (Phase() == Serving ==> !closed)
    }

    constructor Running(schema: string, table: string)
      ensures Valid() && Phase() == Serving
      ensures this.schema == schema && this.table == table
      ensures appended == [] && flushed == [] && comm == [Reply(None)]
    {
      this.schema, this.table := schema, table;
      open := true;
      appended, flushed := [], [];
      closed, connClosed := false, false;
      comm := [Reply(None)];
    }

    /**
     * `startAppender`: the worker opens the DuckDB appender and reports the
     * result as its first message. An appender is returned exactly when that
     * message is nil.
     */
    static method Start(schema: string, table: string, o: OpenOutcome) returns (app: Appender?, err: Option<Error>)
      ensures app != null <==> o.Opened?
      ensures app != null <==> err.None?
      ensures app != null ==> fresh(app) && app.Valid() && app.Phase() == Serving
      ensures app != null ==> app.schema == schema && app.table == table
      ensures app != null ==> app.appended == [] && app.flushed == [] && app.comm == [Reply(None)]
      ensures o.CastFailed? ==> err == Some(Failure("raw conn cast failed"))
      ensures o.OpenFailed? ==> err == Some(Failure("open appender: " + o.msg))
    {
      if o.Opened? {
        app := new Appender.Running(schema, table);
        err := None;
      } else if o.CastFailed? {
        app, err := null, Some(Failure("raw conn cast failed"));
      } else {
        app, err := null, Some(Failure("open appender: " + o.msg));
      }
    }

    /** The worker's exit: the deferred cleanup after `loop` returns an error. */
    method Exit(e: Error)
      modifies this
      ensures !open && connClosed
      ensures appended == old(appended) && flushed == old(flushed) && closed == old(closed)
      ensures comm == old(comm) + [Reply(Some(e))]
    {
      comm := comm + [Reply(Some(e))];
      open := false;
      connClosed := true;
    }

    /**
     * `Insert`: one request, one reply. The row is appended as it is, or the
     * append fails, the failure is the reply and the worker exits.
     */
    method Insert(row: seq<Json>, appendErr: Option<string>) returns (err: Option<Error>)
      requires Valid() && Phase() == Serving
      modifies this
      ensures Valid()
      ensures comm == old(comm) + [RowRequest(row), Reply(err)]
      ensures flushed == old(flushed) && !closed
      ensures appendErr.None? ==> err.None? && appended == old(appended) + [row] && Phase() == Serving
      ensures appendErr.Some? ==> err == Some(Failure("append: " + appendErr.value))
      ensures appendErr.Some? ==> appended == old(appended) && Phase() == Exited
    {
      comm := comm + [RowRequest(row)];
      match appendErr
      case None =>
        appended := appended + [row];
        comm := comm + [Reply(None)];
        err := None;
      case Some(m) =>
        err := Some(Failure("append: " + m));
        Exit(err.value);
    }

    /**
     * `Close`: the nil row. The worker flushes, and only if that worked
     * closes the DuckDB appender, and only if that worked replies nil. After
     * a failure the worker exits; after success it is stranded, still `open`.
     */
    method Close(flushErr: Option<string>, closeErr: Option<string>) returns (err: Option<Error>)
      requires Valid() && Phase() == Serving
      modifies this
      ensures Valid()
      ensures comm == old(comm) + [CloseRequest, Reply(err)]
      ensures appended == old(appended)
      ensures flushErr.Some? ==> err == Some(Failure("flush appender: " + flushErr.value))
      ensures flushErr.Some? ==> flushed == old(flushed) && !closed && Phase() == Exited
      ensures flushErr.None? ==> flushed == appended
      ensures flushErr.None? && closeErr.Some? ==> err == Some(Failure("close appender: " + closeErr.value))
      ensures flushErr.None? && closeErr.Some? ==> !closed && Phase() == Exited
      ensures flushErr.None? && closeErr.None? ==> err.None? && closed && Phase() == Stranded && open && !connClosed
    {
      comm := comm + [CloseRequest];
      if flushErr.Some? {
        err := Some(Failure("flush appender: " + flushErr.value));
        Exit(err.value);
        return;
      }
      flushed := appended;
      if closeErr.Some? {
        err := Some(Failure("close appender: " + closeErr.value));
        Exit(err.value);
        return;
      }
      closed := true;
      err := None;
      comm := comm + [Reply(None)];
    }
  }
}
