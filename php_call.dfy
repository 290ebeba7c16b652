/**
 * The requests the PHP client wrappers send through their `call` closure:
 * a method name and an argument array, with JSON values.
 */
module PhpCall {
  import opened Json

  datatype Call = Call(name: string, args: map<string, Json>)

  /** `qf` with the cursor handle and the chunk size. */
  function FetchCall(handle: int, size: int): (c: Call)
    ensures c.name == "qf" && c.args.Keys == {"h", "n"}
    ensures c.args["h"] == Number(handle) && c.args["n"] == Number(size)
  {
    Call("qf", map["h" := Number(handle), "n" := Number(size)])
  }

  /** A release (`qx` or `ax`) naming only the handle. */
  function ReleaseCall(name: string, handle: int): (c: Call)
    ensures c.name == name && c.args == map["h" := Number(handle)]
  {
    Call(name, map["h" := Number(handle)])
  }

  /** `ai` with the appender handle and the rows as given. */
  function InsertCall(handle: int, rows: seq<seq<Json>>): (c: Call)
    ensures c.name == "ai" && c.args.Keys == {"h", "r"}
    ensures c.args["h"] == Number(handle) && c.args["r"] == Rows(rows)
  {
    Call("ai", map["h" := Number(handle), "r" := Rows(rows)])
  }
}
