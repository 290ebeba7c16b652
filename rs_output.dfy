/**
 * src/output.rs: every response of the Rust prototype as one JSON object,
 * written as one line.
 */
module RsOutput {
  import Wrappers
  import opened RsJson

  /**
   * `Response`. `Error` carries the text of the error it wraps; row values
   * are already JSON values.
   */
  datatype Response =
    | Ok
    | Error(text: string)
    | Done(affectedRows: nat)
    | QueryHandleOpened(handle: nat, colNames: seq<string>)
    | QueryRow(values: seq<JsonValue>)
    | QueryRows(names: Wrappers.Option<seq<string>>, stride: nat, values: seq<JsonValue>)
    | AppendHandleOpened(handle: nat)

  /** The message of the panic in `chunks` when the chunk size is zero. */
  const ZeroChunk: string := "chunk size must be non-zero"

  /** `chunks(k)`: consecutive slices of `k` values, the last one possibly shorter. */
  function Chunks(vs: seq<JsonValue>, k: nat): seq<seq<JsonValue>>
    requires k > 0
    decreases |vs|
  {
    if vs == [] then []
    else if |vs| <= k then [vs]
    else [vs[..k]] + Chunks(vs[k..], k)
  }

  function Flatten(ss: seq<seq<JsonValue>>): seq<JsonValue>
  {
    if ss == [] then [] else ss[0] + Flatten(ss[1..])
  }

  /** The chunks concatenate back to the values. */
  lemma {:induction false} FlattenChunks(vs: seq<JsonValue>, k: nat)
    requires k > 0
    ensures Flatten(Chunks(vs, k)) == vs
    decreases |vs|
  {
    if |vs| > k {
      FlattenChunks(vs[k..], k);
      assert Chunks(vs, k)[1..] == Chunks(vs[k..], k);
      assert vs[..k] + vs[k..] == vs;
    }
  }

  /**
   * Every chunk but the last has exactly `k` values and the last has
   * between one and `k`; no chunk is empty.
   */
  lemma {:induction false} ChunkSizes(vs: seq<JsonValue>, k: nat)
    requires k > 0
    ensures var r := Chunks(vs, k);
      && (forall i :: 0 <= i < |r| - 1 ==> |r[i]| == k)
      && (r != [] ==> 0 < |r[|r| - 1]| <= k)
      && (r == [] <==> vs == [])
    decreases |vs|
  {
    if |vs| > k {
      var rest := Chunks(vs[k..], k);
      ChunkSizes(vs[k..], k);
      var r := Chunks(vs, k);
      assert r == [vs[..k]] + rest;
      forall i | 0 <= i < |r| - 1 ensures |r[i]| == k {
        if i > 0 {
          assert r[i] == rest[i - 1];
        }
      }
    }
  }

  function StrArray(ss: seq<string>): (r: JsonValue)
    ensures r.Array? && |r.items| == |ss|
    ensures forall i :: 0 <= i < |ss| ==> r.items[i] == Str(ss[i])
  {
    Array(seq(|ss|, i requires 0 <= i < |ss| => Str(ss[i])))
  }

  function ChunkArray(cs: seq<seq<JsonValue>>): (r: JsonValue)
    ensures r.Array? && |r.items| == |cs|
    ensures forall i :: 0 <= i < |cs| ==> r.items[i] == Array(cs[i])
  {
    Array(seq(|cs|, i requires 0 <= i < |cs| => Array(cs[i])))
  }

  /**
   * `write_response` up to the serialisation: the object for each response,
   * or the panic `chunks` raises for a zero stride. Only an error response
   * has `ok` false, and it carries the error text under `err`.
   */
  function Render(resp: Response): (r: Wrappers.Result<JsonValue, string>)
    ensures r.Err? <==> resp.QueryRows? && resp.stride == 0
    ensures r.Err? ==> r.error == ZeroChunk
    ensures r.Ok? ==> r.value.Object? && "ok" in r.value.fields && r.value.fields["ok"] == Boolean(!resp.Error?)
    ensures r.Ok? && resp.Error? ==> r.value.fields == map["ok" := Boolean(false), "err" := Str(resp.text)]
  {
    match resp
    case Ok => Wrappers.Ok(Object(map["ok" := Boolean(true)]))
    case Done(aff) => Wrappers.Ok(Object(map["ok" := Boolean(true), "aff" := Number(aff)]))
    case QueryHandleOpened(h, cols) =>
      Wrappers.Ok(Object(map["ok" := Boolean(true), "h" := Number(h), "c" := StrArray(cols)]))
    case AppendHandleOpened(h) => Wrappers.Ok(Object(map["ok" := Boolean(true), "h" := Number(h)]))
    case QueryRow(values) => Wrappers.Ok(Object(map["ok" := Boolean(true), "r" := Array(values)]))
    case QueryRows(cols, stride, values) =>
      if stride == 0 then Wrappers.Err(ZeroChunk)
      else
        var res := map["ok" := Boolean(true), "rr" := ChunkArray(Chunks(values, stride))];
        Wrappers.Ok(Object(if cols.Some? then res["c" := StrArray(cols.value)] else res))
    case Error(text) => Wrappers.Ok(Object(map["ok" := Boolean(false), "err" := Str(text)]))
  }

  /** The arrays of an array of arrays. */
  function Inner(v: JsonValue): seq<seq<JsonValue>>
  {
    if v.Array? then seq(|v.items|, i requires 0 <= i < |v.items| =>
      if v.items[i].Array? then v.items[i].items else [])
    else []
  }

  /**
   * The keys of each response: `aff` for `Done`, `h` and `c` for an opened
   * query, only `h` for an opened appender, `r` for one row; `rr` for rows,
   * with `c` exactly when column names were given. The rows of `rr` are the
   * chunks of the values: each but the last holds `stride` values, and read
   * back in order they give the values.
   */
  lemma RenderShape(resp: Response)
    requires !(resp.QueryRows? && resp.stride == 0)
    ensures var o := Render(resp).value.fields;
      && (resp.Done? ==> o.Keys == {"ok", "aff"} && o["aff"] == Number(resp.affectedRows))
      && (resp.QueryHandleOpened? ==>
            o.Keys == {"ok", "h", "c"} && o["h"] == Number(resp.handle) && o["c"] == StrArray(resp.colNames))
      && (resp.AppendHandleOpened? ==> o.Keys == {"ok", "h"} && o["h"] == Number(resp.handle))
      && (resp.QueryRow? ==> o.Keys == {"ok", "r"} && o["r"] == Array(resp.values))
      && (resp.QueryRows? ==>
            && o.Keys == {"ok", "rr"} + (if resp.names.Some? then {"c"} else {})
            && (resp.names.Some? ==> o["c"] == StrArray(resp.names.value))
            && o["rr"] == ChunkArray(Chunks(resp.values, resp.stride))
            && Flatten(Inner(o["rr"])) == resp.values
            && (forall i :: 0 <= i < |Inner(o["rr"])| - 1 ==> |Inner(o["rr"])[i]| == resp.stride)
            && (o["rr"].items != [] ==> 0 < |Inner(o["rr"])[|o["rr"].items| - 1]| <= resp.stride))
  {
    if resp.QueryRows? {
      var o := Render(resp).value.fields;
      var cs := Chunks(resp.values, resp.stride);
      FlattenChunks(resp.values, resp.stride);
      ChunkSizes(resp.values, resp.stride);
      assert Inner(o["rr"]) == cs;
    }
  }

  /** The line written for a response: the serialised object and one newline. */
  function Line(resp: Response, stringify: JsonValue -> string): (r: Wrappers.Result<string, string>)
    ensures r.Err? <==> Render(resp).Err?
    ensures r.Err? ==> r.error == Render(resp).error
    ensures r.Ok? ==> |r.value| > 0 && r.value[|r.value| - 1] == '\n'
    ensures r.Ok? ==> r.value[..|r.value| - 1] == stringify(Render(resp).value)
    ensures r.Ok? && (forall i :: 0 <= i < |stringify(Render(resp).value)| ==> stringify(Render(resp).value)[i] != '\n') ==>
      forall i :: 0 <= i < |r.value| - 1 ==> r.value[i] != '\n'
  {
    match Render(resp)
    case Err(e) => Wrappers.Err(e)
    case Ok(o) => Wrappers.Ok(stringify(o) + "\n")
  }
}
