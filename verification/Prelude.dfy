/** Small shared vocabulary: results, options and the arithmetic of `Math.min`. */
module Prelude {

  datatype Option<+T> = None | Some(value: T) {
    function GetOr(default: T): T {
      if Some? then value else default
    }
  }

  /** A thrown error is an `Err`; a returned value is an `Ok`. */
  datatype Result<+T, +E> = Ok(value: T) | Err(error: E)

  function Min(a: int, b: int): int {
    if a <= b then a else b
  }

  function Max(a: int, b: int): int {
    if a <= b then b else a
  }

  /** The sum of a list of amounts. */
  function Total(amounts: seq<int>): int {
    if amounts == [] then 0 else amounts[0] + Total(amounts[1..])
  }

  lemma {:induction false} TotalAppend(a: seq<int>, b: seq<int>)
    ensures Total(a + b) == Total(a) + Total(b)
  {
    if a == [] {
      assert a + b == b;
    } else {
      assert (a + b)[1..] == a[1..] + b;
      TotalAppend(a[1..], b);
    }
  }

  lemma {:induction false} TotalSplit(a: seq<int>, k: nat)
    requires k <= |a|
    ensures Total(a) == Total(a[..k]) + Total(a[k..])
  {
    assert a == a[..k] + a[k..];
    TotalAppend(a[..k], a[k..]);
  }
}
