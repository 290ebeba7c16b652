# duckrpc in Dafny

duckrpc puts a DuckDB database behind a line-oriented JSON protocol. A client
writes one JSON object per line to the server's stdin. The object holds a
command tag under `"@"` and the command's arguments under the other keys. The
server answers each command with one JSON object on stdout: `"ok"`, and
`"err"` on failure. Query results can be returned at once (`qq`), or kept
open behind an integer handle and fetched in chunks (`q`, `qf`, `qx`). Bulk
inserts go through an appender handle (`a`, `ai`, `ax`). Each appender is
served by its own worker goroutine on its own connection.

This project models the following parts and proves properties of them:

- the Go server's handle table and argument extraction (`util.go`, `io.go`);
- its appender worker (`appender.go`);
- the session engine and command handlers of the newer server
  (`server/server.go`);
- the older, switch-based server (`server.go`);
- the request validators and response builder of the Rust prototype
  (`src/io.rs`, `src/eval.rs`, `src/input.rs`, `src/output.rs`);
- the two stateful PHP client wrappers (`Rows.php`, `Appender.php`).

Modules follow the source files:

| module | source |
|---|---|
| `Wrappers` | Option and Result |
| `Json` | decoded JSON values, as Go's `map[string]any` and PHP's `json_decode` see them |
| `GoUtil` | `util.go` |
| `GoIo` | `io.go` |
| `GoRows` | the `*sql.Rows` iterator and the fetch loops of both servers |
| `GoAppender` | `appender.go` |
| `GoProtocol` | shared by both Go servers: input items, the database's answers, responses |
| `GoServer` | `server/server.go` |
| `GoLegacyServer` | `server.go` |
| `RsJson` | the `json` crate's values |
| `RsIo` | `src/io.rs` |
| `RsEval` | `src/eval.rs` |
| `RsInput` | `src/input.rs` |
| `RsOutput` | `src/output.rs` |
| `PhpCall` | the calls the PHP wrappers send |
| `PhpRows` | `Rows.php` |
| `PhpAppender` | `Appender.php` |

How the environment is modelled:

- **Stdin.** A server's `stdin` is a sequence of `Request`s.
  - Each item is the outcome of one `ReadBytes('\n')`: a decoded line, end
    of input, or a read error.
  - It also carries `Env`: the database's answers to whatever that request
    asks of it. These answers are the outcome of `Exec` and `Query`, the
    query's columns, rows, scan errors and final error, the outcome of a
    fresh connection and of opening an appender, each row append, the flush
    and the close.
  - Running out of items is end of input.
- **Stdout.** `out` is the sequence of response objects written so far.
- **Query cursors.** A cursor is a `Cursor` whose whole result set is fixed
  when it opens; `pos` counts the rows consumed. It follows `database/sql`:
  a `Next` that finds no row closes the iterator, and `Columns` on a closed
  iterator fails.
- **Appender worker.** The worker is modelled as a synchronous state
  machine. Every `Insert` or `Close` runs one turn of the worker loop.
  `comm` records the messages that crossed the channel.
- **Handlers.** `GoServer.Server.Outcome` and `GoLegacyServer.Server.Handle`
  define what each handler does, on the state before the call. For the newer
  server that is its one response, its error or its panic. For the older
  server it is the responses it writes and its panic. The handlers, `Dispatch`
  and both `Answer`s are proved to do exactly that.
- **PHP wrappers.** The wrappers take the outcome of each server call as a
  parameter and record the calls they send in `calls`.

Behaviour of the code that the model keeps as it is:

- In `server/server.go`, tag `qx` is wired to the query-handle handler
  (server/server.go:47). The query-release handler is therefore unreachable
  (`GoServer.Handlers`).
- In `server.go`:
  - `cmdQueryHandle` answers a bad query and then still runs whatever SQL
    `parseQuery` filled in, without arguments. That is the request's own SQL
    when only `p` was bad (io.go:52-56), and empty SQL otherwise. So the
    request gets two responses and may open a cursor
    (`GoLegacyServer.Server.CmdQueryHandle`).
  - `cmdQueryFetch` answers an unknown handle and then calls `Columns` on a
    nil cursor, which panics (`GoLegacyServer.Server.CmdQueryFetch`).
- A fetch after one that reported `eof` finds the iterator closed, and both
  servers panic with "consistency error".
- A failed append ends the appender worker.
- After a successful close, the worker's last send (appender.go:98) has no
  receiver. The worker stays blocked: its deferred cleanup never runs, `open`
  stays true and its connection is never closed (`GoAppender.Phase.Stranded`).
- There is no connect or disconnect command and no cascade release.

## Model

| member | source | states |
|---|---|---|
| GoUtil.Prober.constructor | util.go:18-23 | A new table is empty, its counter is 0 and no key has been issued, so the first key is 0. |
| GoUtil.Prober.Insert | util.go:25-30 | Returns the old counter and bumps it by one. The key is one never issued before and is larger than every live key. The value is stored under it, `Get` finds it there, and every other entry is unchanged. The invariant that every issued key is below the counter is kept. |
| GoUtil.Prober.Release | util.go:32-34 | Removes exactly `k` and leaves the counter and the issued keys alone. `Get(k)` is then absent. Releasing an absent key changes nothing. |
| GoUtil.Prober.Get | util.go:36-39 | Finds a value exactly for live keys, and that value is the stored one. It reads the table without changing it. |
| GoUtil.JsonGet | util.go:41-65 | An absent key gives exactly `MissingKey(k)`. A present value the type switch rejects gives exactly `InvalidType(k)`. Otherwise the result is the converted value; no other error is possible. |
| GoUtil.GetInt | util.go:49-57 | Succeeds exactly on a JSON number and returns its value. Any other present value is `InvalidType`, an absent one `MissingKey`. |
| GoUtil.GetString | util.go:59-62 | Succeeds exactly on a JSON string. Otherwise `InvalidType` or `MissingKey`. |
| GoUtil.GetArray | util.go:59-62 | Succeeds exactly on a JSON array, and `null` is not one. Otherwise `InvalidType` or `MissingKey`. |
| GoIo.TagsDistinct | io.go:9-19 | The nine command tags are pairwise distinct. |
| GoIo.Unmarshal | io.go:26-42 | Succeeds exactly on an object whose `"@"` is a string. The command is that string and the arguments are the object minus `"@"`. An object or `null` without such a key fails "no method key". A syntax error passes through. |
| GoIo.ParseQuery | io.go:49-67 | Succeeds exactly when `q` is a string and `p` is absent or a list. `Sql` is `q`, and `Args` is `p` or empty. A bad `q` is reported even when `p` is also bad; a non-list `p` is `InvalidType("p")`. |
| GoRows.Cursor.Columns | server/server.go:201-204 | The column names are returned exactly while the iterator is open and had readable columns. |
| GoRows.Cursor.Next | server/server.go:208-211 | Moves onto the next row exactly when there is one. At the end it closes the iterator and marks it exhausted. On a closed iterator it does nothing. |
| GoRows.CollectSpec | server/server.go:207-220 | A fetch of `n` returns exactly the first min(n, remaining) rows, in order. It reports `eof` exactly when fewer than `n` rows remained. Otherwise it fails at the first unscannable row within that range. |
| GoRows.FetchUpTo | server/server.go:207-220 | The fetch loop returns `Collect` of the remaining rows. The cursor moves past the rows returned and is closed exactly when `eof` is reported. |
| GoRows.CollectAllIsUnbounded | server/server.go:272-279 | Collecting every row equals fetching with a bound above the number of remaining rows. |
| GoRows.FetchAll | server/server.go:272-279 | The loop returns every remaining row, or fails at the first unscannable one. On success the iterator is exhausted and closed. |
| GoAppender.Appender.Running | appender.go:17-21 | A started worker is open and serving, has appended nothing, and has sent one nil message. |
| GoAppender.Appender.Start | appender.go:16-27 | An appender is returned exactly when opening worked, i.e. when the first message is nil. Otherwise the result is the "raw conn cast failed" or "open appender: …" error and no appender. |
| GoAppender.Appender.Exit | appender.go:54-58 | The deferred cleanup: the error is the last message, `open` is cleared and the connection is closed. Rows and the appender are left as they were. |
| GoAppender.Appender.Insert | appender.go:41-51 | Only a serving worker accepts it. It sends one request and takes one reply. The row is appended unchanged, or the reply is "append: …" and the worker exits. |
| GoAppender.Appender.Close | appender.go:29-39 | Only a serving worker accepts it. It sends one request (the nil row) and takes one reply. It flushes first and skips the close if the flush fails ("flush appender: …"), then closes ("close appender: …"), and replies nil only after both. A failure leaves the worker exited; success leaves it stranded, still `open`, with its connection open. |
| GoProtocol.Stop | server/server.go:70-85 | End of input and the end tag end the session without error. A read error aborts with "stdin read: …" and a decode error with "stdin json: …". |
| GoServer.Handlers | server/server.go:42-51 | Every tag except `x` has a handler. `qx` and `q` both go to the query-handle handler, so no tag reaches query-release. |
| GoServer.Server.NewServer | server/server.go:29-53 | Fails exactly when the shared connection cannot be opened. Otherwise the two tables are empty with counters at 0 and the handler table is installed. |
| GoServer.Server.Loop | server/server.go:55-67 | Writes one ok response first and then runs turns until one ends the session. Every request before the last continued the session. The last one ended it as `Stop` says, or input ran out, or a panic ended it. Every consumed request that decodes gets exactly one response, except the one a panic interrupts. |
| GoServer.Server.ProcessOne | server/server.go:69-82 | Consumes one item. End of input, read errors and decode errors behave as `Stop` says: they write nothing, and only `x` writes ok. A command that continues the session gets exactly one response, unless the fetch handler panics. |
| GoServer.Server.Answer | server/server.go:83-94 | `x` writes ok and ends the session. An unknown tag writes exactly "unknown command: <tag>" and continues. A registered tag runs its handler, as `Outcome` defines it on the state before the call. A success keeps the handler's one response and continues. A failure writes exactly `ErrResponse` of the handler's error and continues. A panic ends the process with nothing written. |
| GoServer.Server.Dispatch | server/server.go:86-90 | Runs the handler registered for the command, and it does exactly what `Outcome` says of that handler on the state before the call. Its one response is written on success; otherwise the returned error or panic is `Outcome`'s and nothing is written. Only the fetch handler can panic. |
| GoServer.Server.CmdExecute | server/server.go:120-144 | Fails with the query's validation error or the driver's error. Otherwise it writes one ok response. Its result and output are exactly what `Outcome` gives for this handler. |
| GoServer.Server.CmdQueryHandle | server/server.go:160-184 | A bad query, a failed query ("query: …") or unreadable columns ("get columns: …") register nothing. Otherwise the open cursor is registered under the next key and the response carries that key and the columns. Its result and output are exactly what `Outcome` gives for this handler. |
| GoServer.Server.CmdQueryFetch | server/server.go:186-235 | `n` is checked before `h`, and an unknown handle is "no such handle". A cursor already closed makes the server panic. Otherwise the response holds `Collect` of its remaining rows with `eof`, or the call fails "row scan: …". `ok` is false with `err` when the iterator ended with an error. Only that cursor moves. Its result and output are exactly what `Outcome` gives for this handler. Every other registered cursor is unchanged, and so is every cursor when `n` or `h` is bad. |
| GoServer.Server.CmdQueryRelease | server/server.go:237-253 | An unknown handle is "no such query" and the table is unchanged. Otherwise the cursor is closed, exactly that key is removed and ok is written. Its result and output are exactly what `Outcome` gives for this handler. Every other registered cursor is unchanged. |
| GoServer.Server.CmdQueryImmediate | server/server.go:255-294 | Fails on a bad query, "query: …", "get columns: …" or "row scan: …". Otherwise it writes every row in order with the columns, and `err` when the iterator ended with an error. Nothing is registered. Its result and output are exactly what `Outcome` gives for this handler. |
| GoServer.Server.CmdAppender | server/server.go:296-317 | `t` must be a string, then a connection must open ("connect: …"), then the worker must start. Only then is it registered under the next key and answered with that key; a failure registers nothing. Its result and output are exactly what `Outcome` gives for this handler. |
| GoServer.InsertPlanSpec | server/server.go:335-344 | The insert loop stops at the first row that is not an array or whose append fails. It runs to the end exactly when there is no such row. |
| GoServer.AppendRows | server/server.go:335-344 | Appends the rows in order up to where `InsertPlan` stops. Only a failed append ends the worker. |
| GoServer.Server.CmdAppenderInsert | server/server.go:319-348 | `h`, then `r`, then the handle are checked. The rows before the stop stay appended. A non-array row at `i` fails "incorrect row type: expected array (at i)" and keeps the handle. A failed append releases exactly that handle. Success writes ok. Its result and output are exactly what `Outcome` gives for this handler. Every other registered appender is unchanged, and so is every appender when `h` or `r` is bad. |
| GoServer.Server.CmdAppenderRelease | server/server.go:350-368 | An unknown handle is "no such handle". Otherwise the worker is closed (one request, one reply) and the handle is removed whether or not the close worked. The close error, if any, is returned. Its result and output are exactly what `Outcome` gives for this handler. Every other registered appender is unchanged. |
| GoLegacyServer.Known | server.go:55-81 | The switch knows `e`, `qq`, `q`, `qf` and `qx`. `qx` reaches query-release, and appender tags are unknown. |
| GoLegacyServer.RespondedBounds | server.go:148-152 | Every request that decodes gets at least one response. Exactly the requests in which no query-handle request had a bad query get no more than one each. |
| GoLegacyServer.Server.NewServer | server.go:19-25 | An empty cursor table with counter 0. |
| GoLegacyServer.Server.Loop | server.go:27-39 | Writes ok first and runs turns until one ends the session, as in the newer server. Without a panic, the responses are exactly those `Responses` counts, including the double ones. A panic leaves its request with at most one. |
| GoLegacyServer.Server.ProcessOne | server.go:41-53 | Consumes one item, and read and decode errors behave as `Stop` says. A continuing command gets the responses `Responses` counts, unless `qf` panics. |
| GoLegacyServer.Server.Answer | server.go:55-81 | `x` writes ok and ends the session. Every other tag writes exactly the responses `Handle` gives and then panics where `Handle` does; otherwise the session continues. `e`, `qq`, `q`, `qf` and `qx` run their handler, and any other tag is answered "unknown command: <tag>". A bad query to `q` gets two responses, every other tag one, and only `qf` can panic. |
| GoLegacyServer.Server.CmdExecute | server.go:107-132 | One response: the validation error, the driver's error, or ok. The responses are exactly those `Handle` gives for the tag. |
| GoLegacyServer.Server.CmdQueryHandle | server.go:148-173 | A bad query is answered with its error, and then the SQL `parseQuery` filled in still runs without arguments. That is the request's own SQL when only `p` was bad. Its outcome is answered too, and registered under the next key when it opens. The responses are exactly those `Handle` gives for the tag. |
| GoLegacyServer.Server.CmdQueryFetch | server.go:175-226 | As in the newer server, but every outcome is answered here. An unknown handle is answered "no such handle" and then panics on the nil cursor. The responses, and the panic, are exactly those `Handle` gives for the tag. Every other registered cursor is unchanged, and so is every cursor when `n` or `h` is bad. |
| GoLegacyServer.Server.CmdQueryRelease | server.go:228-245 | An unknown handle is answered "no such query" once and changes nothing. Otherwise the cursor is closed, the key released, and ok written once. The responses are exactly those `Handle` gives for the tag. Every other registered cursor is unchanged. |
| GoLegacyServer.Server.CmdQueryImmediate | server.go:247-289 | One response: an error, or every row in order with the columns and the iterator's error. The responses are exactly those `Handle` gives for the tag. |
| RsJson.AsStr | src/eval.rs:60-63 | Both kinds of JSON string give their text; no other value does. |
| RsIo.Display | src/io.rs:52-60 | Format errors read "format error: msg"; I/O and JSON errors show their own text. |
| RsIo.RequestIdFrom | src/io.rs:25-36 | Short and long strings become `IdString`, numbers `IdNumber`, and anything else fails "invalid request id type". The `Short` variant is never produced. |
| RsIo.ReadCommand | src/io.rs:74-105 | The checks run in order: parse, object, `@` present and a string, `_` present and a valid id, each with its fixed message. On success the params are the object with exactly `_` and `@` removed. |
| RsIo.ReadEnvelope | src/io.rs:84-98 | Reading back the line a client writes for a request gives that request, provided its params avoid the two reserved keys. |
| RsIo.MethodBeforeId | src/io.rs:84-94 | When both method and id are bad, the method error is reported. |
| RsEval.Display | src/eval.rs:37-42 | The messages are "unknown method: m" and "invalid params: msg". |
| RsEval.ParamsFrom | src/eval.rs:22-28 | An array gives `List` and an object gives `Map`, with the same contents. Anything else is "invalid params type". |
| RsEval.ParseStartAppend | src/eval.rs:57-66 | A missing `t` is "param `t` not specified" and a non-string `t` is "invalid type for param `t`". Otherwise the result is `StartAppend(t)`. |
| RsEval.ParseAppend | src/eval.rs:67-75 | Gives `AppendRow(r)` exactly when `r` is an array. A missing `r` and a non-array `r` have distinct errors. |
| RsEval.ParseSql | src/eval.rs:76-87 | A missing or non-string `q` is "invalid query type", checked before `p`. An absent `p` gives `None`; otherwise the result is what `ParamsFrom` gives. |
| RsEval.Parse | src/eval.rs:48-56 | `as`, `a` and `sql` go to their parsers. `ae` gives `EndAppend`, and anything else is `UnknownMethod(m)`. |
| RsEval.ParseEncode | src/eval.rs:48-87 | Parsing what a client sends for any request gives that request back. |
| RsEval.EndAppendIgnoresParams | src/eval.rs:52 | `ae` gives `EndAppend` whatever its params. |
| RsInput.ReadQuery | src/input.rs:55-81 | A missing `q` is "query key absent" and a non-string `q` "query not string". An absent `p` gives `None` and a non-array `p` is "params not array". An array gives `Some` of the same length, converted item by item in order. |
| RsInput.ReadCommand | src/input.rs:27-53 | Reading nothing gives `Eof`. Then: "request not object", "method key absent", "method not string". `e` gives `Execute` and `q` gives `QueryImmediate` of `ReadQuery`. The other recognised tags stop at `todo!()`, and any other tag is "method unknown". |
| RsInput.ReadRequest | src/input.rs:27-81 | Reading back the line a client writes for a command gives that command. |
| RsOutput.FlattenChunks | src/output.rs:64-67 | The chunks of `values` concatenate back to `values`. |
| RsOutput.ChunkSizes | src/output.rs:64-67 | Every chunk but the last has exactly `stride` values, the last has 1 to `stride`, and there are no chunks exactly when there are no values. |
| RsOutput.Render | src/output.rs:25-91 | A zero stride panics "chunk size must be non-zero". Every other response is an object whose `ok` is false exactly for `Error`, which carries exactly its text under `err`. |
| RsOutput.RenderShape | src/output.rs:31-82 | `Done` has `aff`, an opened query has `h` and `c` with its column names, an opened appender only `h`, and a row has `r` in order. `QueryRows` has exactly `ok` and `rr`, plus `c` with the names exactly when names were given. `rr` holds the chunks of the values: every chunk but the last has `stride` values, the last has 1 to `stride`, and read back in order they give the values. |
| RsOutput.Line | src/output.rs:93-95 | A zero stride fails with exactly `Render`'s error. Otherwise the line ends in a newline, and what precedes it is exactly the serialisation of the object `Render` gives. When the serialisation has no newline, that final one is the only one. |
| PhpRows.ObjectOfSpec | client/php/src/Rows.php:35-41 | A row object has one property per distinct column name. Each property holds the cell at that name's last position, so with distinct names column `i` holds cell `i`; a missing cell reads as null. |
| PhpRows.BuildObject | client/php/src/Rows.php:36-40 | The `foreach` over the columns builds `ObjectOf(columns, row)`. |
| PhpRows.DrainSpec | client/php/src/Rows.php:53-58 | Iteration uses replies until the first one that throws, is empty or reports `eof`. Every earlier reply brought rows without `eof`. All rows of the used replies are yielded in order, and it throws exactly when the last used reply did. |
| PhpRows.Rows.constructor | client/php/src/Rows.php:7-14 | A new cursor is not exhausted and has sent nothing. |
| PhpRows.Rows.FetchChunk | client/php/src/Rows.php:23-42 | Once exhausted, it returns null without a call. Otherwise it sends `qf` with the handle and exactly `size`. `eof` becomes the flag, so the flag never goes back to false. The rows come back as objects in order. An exception leaves the flag alone. |
| PhpRows.Rows.Fetch | client/php/src/Rows.php:44-51 | Fetches a chunk of one and returns its first row, or null when the chunk is null or empty. |
| PhpRows.Rows.Iterate | client/php/src/Rows.php:53-58 | Sends one `qf` of 100 per used reply and yields what `Drain` says. It ends with the flag `Drain` reports. |
| PhpRows.Rows.Destruct | client/php/src/Rows.php:16-21 | Sends `qx` with the handle through the raw closure. |
| PhpAppender.LifetimeReleases | client/php/src/Appender.php:14-54 | When no call throws, `ax` is sent once per `commit`. The destructor sends it exactly when there was none and the appender was not committed already. |
| PhpAppender.ThrowEndsLifetime | client/php/src/Appender.php:25-33 | After a call throws, the destructor sends nothing. |
| PhpAppender.Appender.constructor | client/php/src/Appender.php:6-12 | A new appender is not committed and has sent nothing. |
| PhpAppender.Appender.Call | client/php/src/Appender.php:25-33 | Sends the call once. An exception marks the appender committed and is rethrown; success leaves the flag alone. |
| PhpAppender.Appender.InsertRows | client/php/src/Appender.php:40-46 | Sends one `ai` with the handle and the rows unchanged. |
| PhpAppender.Appender.InsertRow | client/php/src/Appender.php:35-38 | Same calls, flag and exception as `InsertRows` of the one-row batch. |
| PhpAppender.Appender.Commit | client/php/src/Appender.php:48-54 | Sends `ax` and leaves the appender committed, whether or not the call throws. |
| PhpAppender.Appender.Destruct | client/php/src/Appender.php:14-23 | Sends nothing when committed. Otherwise it sends `ax` through the raw closure, which leaves the flag alone even if it throws. |

## Left out

- JSON text: encoding and decoding (`json.Marshal`/`Unmarshal`, `json::parse`/`stringify`, PHP's `json_encode`/`json_decode`) are not modelled. A line is its decoded value or a syntax error, and `RsOutput.Line` takes the serialiser as a parameter. Key order inside objects is not modelled: objects are maps.
- Numbers: every JSON number is an integer. `jsonGet[int]`'s float-to-int truncation (util.go:55), the json crate's decimal numbers, u32/usize widths and PHP floats are not modelled.
- GoServer.Server.CmdExecute: does not add `aff`/`id`. The source adds them only when `RowsAffected`/`LastInsertId` fail, which looks like inverted checks (server/server.go:135-140, server.go:124-129). The driver's answers to those calls are not modelled.
- GoLegacyServer.Server.CmdExecute: the same as the newer server; `aff`/`id` are not modelled.
- The database itself (`Exec`, `Query`, `Rows`, `Scan`, `Conn`, the DuckDB appender, `Flush`, `Close`, `conn.Raw`) is not modelled. Its answers come per request in `Env`, and the SQL text and arguments do not influence them.
- Goroutines and the channel in `appender.go`: each rendezvous is a synchronous call. A caller blocked forever, or a worker blocked forever on its last send, is represented only as the `Stranded` phase.
- Calling `Insert` or `Close` on an appender that is not open panics in the source. The model makes that a precondition, since the handlers only call them on registered, serving workers.
- Process startup, arguments and exit codes (`main.go`, `server/main.go`, and `connect`/`main` in `src/main.rs`) are not part of this model. `server/main.go` calls `NewServer()` with a signature that does not exist.
- Stdin and stdout plumbing (`respond`, `write_all`, `read_line`, `flush`) is not modelled, nor is the marshal panic in `respond`. PHP's `Process.php` (`proc_open`) is not part of this model.
- `src/main.rs` (`val_to_json`, `eval_sql`) is not part of this model. The conversion of `eval::Value` to and from JSON is a parameter (`RsInput.ReadQuery`) or already applied (`RsOutput.Response` holds JSON values).
- `RsInput.Command` has only the two variants `read_command` builds. The others (`QueryHandle`, `QueryRow`, `QueryRows`, `AppendPrepare`, `AppendRow`, `AppendRows`, `AppendFlush`) are never built by this reader.
- `Connection.php` is not part of this model. Each of its methods is a single call, and its column zip repeats `Rows.php`.
- Connect/disconnect and cascade release are not modelled, because no handler for them exists in the code.
- PhpAppender.Appender.InsertRows: a row is a list of JSON values. A PHP associative-array row is not modelled. `json_encode` sends it as a JSON object, and server/server.go:335-344 rejects that with "incorrect row type".
- PhpAppender.Appender.InsertRow: the same row type as `InsertRows`.
- PhpRows.Rows.Iterate: runs the generator to its end eagerly and needs enough replies to end. A consumer that stops early is not modelled.
