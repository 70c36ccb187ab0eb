/** Small value types shared by every module: optional values, results with an
    error, and the unsigned 64-bit integers the plugin uses for entry indices. */
module Base {

  datatype Option<+T> = None | Some(value: T)

  datatype Result<+T, +E> = Ok(value: T) | Err(error: E)

  /** The values of a sequence of results in order, or else the first error among them. */
  function Collect<T, E>(rs: seq<Result<T, E>>): Result<seq<T>, E>
  {
    if rs == [] then Ok([])
    else match rs[0]
      case Err(e) => Err(e)
      case Ok(v) =>
        match Collect(rs[1..])
        case Err(e) => Err(e)
        case Ok(vs) => Ok([v] + vs)
  }

  /** When every result is a value, those values are collected, one per result, in order. */
  lemma {:induction false} CollectAllOk<T, E>(rs: seq<Result<T, E>>, vs: seq<T>)
    requires |vs| == |rs|
    requires forall j :: 0 <= j < |rs| ==> rs[j] == Ok(vs[j])
    ensures Collect(rs) == Ok(vs)
  {
    if rs != [] {
      forall j | 0 <= j < |rs| - 1
        ensures rs[1..][j] == Ok(vs[1..][j])
      {
        assert rs[1..][j] == rs[j + 1] && vs[1..][j] == vs[j + 1];
      }
      CollectAllOk(rs[1..], vs[1..]);
      assert vs == [vs[0]] + vs[1..];
    }
  }

  /** The error collected is the first one. */
  lemma {:induction false} CollectFirstError<T, E>(rs: seq<Result<T, E>>, k: nat)
    requires k < |rs| && rs[k].Err?
    requires forall j :: 0 <= j < k ==> rs[j].Ok?
    ensures Collect(rs) == Err(rs[k].error)
  {
    if k > 0 {
      assert rs[1..][k - 1] == rs[k];
      forall j | 0 <= j < k - 1
        ensures rs[1..][j].Ok?
      {
        assert rs[1..][j] == rs[j + 1];
      }
      CollectFirstError(rs[1..], k - 1);
    }
  }

  /** Collecting succeeds exactly when every result is a value; it then yields all of them, in order. */
  lemma {:induction false} CollectShape<T, E>(rs: seq<Result<T, E>>)
    ensures Collect(rs).Ok? <==> forall j :: 0 <= j < |rs| ==> rs[j].Ok?
    ensures Collect(rs).Ok? ==>
      |Collect(rs).value| == |rs| && forall j :: 0 <= j < |rs| ==> rs[j] == Ok(Collect(rs).value[j])
  {
    if rs != [] {
      CollectShape(rs[1..]);
      assert forall j :: 1 <= j < |rs| ==> rs[j] == rs[1..][j - 1];
    }
  }

  /** `u64::MAX` */
  const U64_MAX: int := 0xFFFF_FFFF_FFFF_FFFF

  /** Rust's `u64`: unbounded integers restricted to the 64-bit unsigned range. */
  type u64 = x: int | 0 <= x <= U64_MAX

  function Min(a: int, b: int): (m: int)
    ensures m <= a && m <= b && (m == a || m == b)
  {
    if a <= b then a else b
  }
}
