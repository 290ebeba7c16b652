/**
 * util.go: the handle table (`prober`) and typed extraction of request
 * arguments (`jsonGet`), with the two sentinel errors it reports.
 */
module GoUtil {
  import opened Wrappers
  import opened Json

  /**
   * A Go `error` as far as the server distinguishes them: the two sentinel
   * errors of `jsonGet` (wrapped with the key name) and every other error,
   * which only carries its message.
   */
  datatype Error =
    | MissingKey(key: string)
    | InvalidType(key: string)
    | Failure(msg: string)

  /** `err.Error()`: the text the server puts under "err". */
  function Message(e: Error): string
  {
    match e
    case MissingKey(k) => "missing key: " + k
    case InvalidType(k) => "invalid type for key: " + k
    case Failure(m) => m
  }

  /** `fmt.Errorf(prefix + "%w", err)` seen through its message. */
  function Wrap(prefix: string, e: Error): (r: Error)
    ensures r.Failure? && r.msg == prefix + Message(e)
  {
    Failure(prefix + Message(e))
  }

  /**
   * `prober[T]`: an arena of live values keyed by a counter that only grows.
   * `Issued` is the set of every key handed out so far.
   */
  class Prober<T> {
    var vals: map<int, T>
    var next: int
    ghost var Issued: set<int>

    ghost predicate Valid()
      reads this
    {
      && 0 <= next
      && (forall k :: k in Issued <==> 0 <= k < next)
      && vals.Keys <= Issued
    }

    /** `newProber`: an empty table whose first key will be 0. */
    constructor ()
      ensures Valid()
      ensures vals == map[] && next == 0 && Issued == {}
    {
      vals := map[];
      next := 0;
      Issued := {};
    }

    /** `Get`: the value under `k`, or nothing for an unknown or released key. */
    function Get(k: int): (r: Option<T>)
      reads this
      ensures r.Some? <==> k in vals
      ensures r.Some? ==> r.value == vals[k]
    {
      if k in vals then Some(vals[k]) else None
    }

    /** `Insert`: stores `v` under a key never issued before and returns it. */
    method Insert(v: T) returns (k: int)
      requires Valid()
      modifies this
      ensures Valid()
      ensures k == old(next) && next == old(next) + 1
      ensures k !in old(Issued) && Issued == old(Issued) + {k}
      ensures forall j :: j in old(vals) ==> j < k
      ensures vals == old(vals)[k := v]
      ensures Get(k) == Some(v)
      ensures forall j :: j != k ==> Get(j) == old(Get(j))
    {
      k := next;
      next := next + 1;
      Issued := Issued + {k};
      vals := vals[k := v];
    }

    /** `Release`: drops `k` if present; the counter is untouched. */
    method Release(k: int)
      requires Valid()
      modifies this
      ensures Valid()
      ensures vals == old(vals) - {k}
      ensures next == old(next) && Issued == old(Issued)
      ensures Get(k) == None
      ensures forall j :: j != k ==> Get(j) == old(Get(j))
      ensures k !in old(vals) ==> vals == old(vals)
    {
      vals := vals - {k};
    }
  }

  /**
   * `jsonGet[T]`: the value under `k` converted by `cast` (the type switch
   * of the source). An absent key is `MissingKey`, a present value of the
   * wrong type is `InvalidType`; the two are never confused.
   */
  function JsonGet<T>(m: map<string, Json>, k: string, cast: Json -> Option<T>): (r: Result<T, Error>)
    ensures r.Err? ==> r.error == MissingKey(k) || r.error == InvalidType(k)
    ensures r == Err(MissingKey(k)) <==> k !in m
    ensures r == Err(InvalidType(k)) <==> k in m && cast(m[k]).None?
    ensures r.Ok? ==> k in m && cast(m[k]) == Some(r.value)
  {
    if k !in m then Err(MissingKey(k))
    else match cast(m[k])
      case None => Err(InvalidType(k))
      case Some(t) => Ok(t)
  }

  /** The `int` case of the type switch: only a JSON number converts. */
  function AsInt(v: Json): Option<int>
  {
    if v.Number? then Some(v.n) else None
  }

  function AsString(v: Json): Option<string>
  {
    if v.Str? then Some(v.s) else None
  }

  /** The `[]any` assertion: only a JSON array converts (null does not). */
  function AsArray(v: Json): Option<seq<Json>>
  {
    if v.Array? then Some(v.items) else None
  }

  /** `jsonGet[int]`. */
  function GetInt(m: map<string, Json>, k: string): (r: Result<int, Error>)
    ensures r.Ok? <==> k in m && m[k].Number?
    ensures r.Ok? ==> m[k] == Number(r.value)
    ensures r.Err? ==> r.error == (if k in m then InvalidType(k) else MissingKey(k))
  {
    JsonGet(m, k, AsInt)
  }

  /** `jsonGet[string]`. */
  function GetString(m: map<string, Json>, k: string): (r: Result<string, Error>)
    ensures r.Ok? <==> k in m && m[k].Str?
    ensures r.Ok? ==> m[k] == Str(r.value)
    ensures r.Err? ==> r.error == (if k in m then InvalidType(k) else MissingKey(k))
  {
    JsonGet(m, k, AsString)
  }

  /** `jsonGet[[]any]`. */
  function GetArray(m: map<string, Json>, k: string): (r: Result<seq<Json>, Error>)
    ensures r.Ok? <==> k in m && m[k].Array?
    ensures r.Ok? ==> m[k] == Array(r.value)
    ensures r.Err? ==> r.error == (if k in m then InvalidType(k) else MissingKey(k))
  {
    JsonGet(m, k, AsArray)
  }
}
