/** The one recursive rule behind every FIFO plan of the repository. */
module Waterfall {
  import opened Prelude

  // Pour a needed amount over a list of capacities, filling each before touching the next.  `planReservation`,
  // `planIncomeWithdrawal` and each kind of `planSpend` are proved to compute it.

  ghost predicate NonNegative(amounts: seq<int>) {
    forall i :: 0 <= i < |amounts| ==> amounts[i] >= 0
  }

  /** How much is taken from each capacity. */
  function Pour(caps: seq<int>, need: int): (taken: seq<int>)
    ensures |taken| == |caps|
  {
    if caps == [] then [] else
      var t := Min(caps[0], need);
      [t] + Pour(caps[1..], need - t)
  }

  /** A way of taking from the capacities that never overdraws one of them. */
  ghost predicate Feasible(caps: seq<int>, taken: seq<int>) {
    |taken| == |caps| && forall i :: 0 <= i < |caps| ==> 0 <= taken[i] <= caps[i]
  }

  /** What each capacity still holds afterwards. */
  function Remainders(caps: seq<int>, taken: seq<int>): (left: seq<int>)
    requires |caps| == |taken|
    ensures |left| == |caps|
    ensures forall i :: 0 <= i < |caps| ==> left[i] == caps[i] - taken[i]
  {
    seq(|caps|, i requires 0 <= i < |caps| => caps[i] - taken[i])
  }

  lemma {:induction false} PourFeasible(caps: seq<int>, need: int)
    requires NonNegative(caps) && need >= 0
    ensures Feasible(caps, Pour(caps, need))
  {
    if caps != [] {
      PourFeasible(caps[1..], need - Min(caps[0], need));
    }
  }

  lemma {:induction false} TotalNonNegative(caps: seq<int>)
    requires NonNegative(caps)
    ensures Total(caps) >= 0
  {
    if caps != [] {
      TotalNonNegative(caps[1..]);
    }
  }

  /** Closed form of the prefix sums: the first k capacities give all they hold or all that is needed. */
  lemma {:induction false} PourPrefix(caps: seq<int>, need: int, k: nat)
    requires NonNegative(caps) && need >= 0 && k <= |caps|
    ensures Total(Pour(caps, need)[..k]) == Min(need, Total(caps[..k]))
  {
    if k > 0 {
      var t := Min(caps[0], need);
      var p := Pour(caps, need);
      assert p[..k] == [t] + Pour(caps[1..], need - t)[..k - 1];
      assert p[..k][1..] == Pour(caps[1..], need - t)[..k - 1];
      assert caps[..k][1..] == caps[1..][..k - 1];
      PourPrefix(caps[1..], need - t, k - 1);
      TotalNonNegative(caps[1..][..k - 1]);
    }
  }

  lemma PourTotal(caps: seq<int>, need: int)
    requires NonNegative(caps) && need >= 0
    ensures Total(Pour(caps, need)) == Min(need, Total(caps))
  {
    PourPrefix(caps, need, |caps|);
    assert caps[..|caps|] == caps && Pour(caps, need)[..|caps|] == Pour(caps, need);
  }

  /** Each part is the overlap of the capacity's prefix-sum interval with [0, need). */
  lemma PourClosedForm(caps: seq<int>, need: int, i: nat)
    requires NonNegative(caps) && need >= 0 && i < |caps|
    ensures Pour(caps, need)[i] == Min(need, Total(caps[..i + 1])) - Min(need, Total(caps[..i]))
  {
    var p := Pour(caps, need);
    PourPrefix(caps, need, i);
    PourPrefix(caps, need, i + 1);
    TotalLast(p, i);
  }

  /** A capacity is touched only when every earlier one has given all it holds. */
  lemma {:induction false} PourFillsInOrder(caps: seq<int>, need: int, i: nat, j: nat)
    requires NonNegative(caps) && need >= 0 && i < j < |caps| && Pour(caps, need)[j] > 0
    ensures Pour(caps, need)[i] == caps[i]
  {
    var t := Min(caps[0], need);
    PourFeasible(caps[1..], need - t);
    if i > 0 {
      PourFillsInOrder(caps[1..], need - t, i - 1, j - 1);
    } else if t < caps[0] {
      PourFeasible(caps[1..], 0);
      PourTotal(caps[1..], 0);
      PartAtMostTotal(Pour(caps[1..], 0), j - 1);
      TotalNonNegative(caps[1..]);
    }
  }

  lemma {:induction false} PartAtMostTotal(a: seq<int>, i: nat)
    requires NonNegative(a) && i < |a|
    ensures a[i] <= Total(a)
  {
    if i > 0 {
      PartAtMostTotal(a[1..], i - 1);
    } else {
      TotalNonNegative(a[1..]);
    }
  }

  lemma TotalLast(a: seq<int>, i: nat)
    requires i < |a|
    ensures Total(a[..i + 1]) == Total(a[..i]) + a[i]
  {
    assert a[..i + 1] == a[..i] + [a[i]];
    TotalAppend(a[..i], [a[i]]);
  }

  /** Pouring x and then y into what is left is pouring x + y. */
  lemma PourAdditive(caps: seq<int>, x: int, y: int)
    requires NonNegative(caps) && x >= 0 && y >= 0
    ensures var left := Remainders(caps, Pour(caps, x));
            Remainders(left, Pour(left, y)) == Remainders(caps, Pour(caps, x + y))
  {
    hide Pour, Total;
    var left := Remainders(caps, Pour(caps, x));
    PourFeasible(caps, x);
    forall i | 0 <= i < |caps|
      ensures left[i] - Pour(left, y)[i] == caps[i] - Pour(caps, x + y)[i]
    {
      PourClosedForm(caps, x, i);
      PourClosedForm(left, y, i);
      PourClosedForm(caps, x + y, i);
      LeftPrefix(caps, x, i);
      LeftPrefix(caps, x, i + 1);
    }
  }

  lemma LeftPrefix(caps: seq<int>, x: int, k: nat)
    requires NonNegative(caps) && x >= 0 && k <= |caps|
    ensures Total(Remainders(caps, Pour(caps, x))[..k]) == Max(0, Total(caps[..k]) - x)
  {
    RemaindersTotal(caps, Pour(caps, x), k);
    PourPrefix(caps, x, k);
  }

  lemma {:induction false} TotalAtMost(a: seq<int>, b: seq<int>)
    requires |a| == |b| && forall i :: 0 <= i < |a| ==> a[i] <= b[i]
    ensures Total(a) <= Total(b)
  {
    if a != [] {
      TotalAtMost(a[1..], b[1..]);
    }
  }

  /** No other feasible way of taking the same amount takes more from a prefix. */
  lemma PourOptimal(caps: seq<int>, need: int, other: seq<int>, k: nat)
    requires NonNegative(caps) && 0 <= need && k <= |caps|
    requires Feasible(caps, other) && Total(other) == need
    ensures Total(Remainders(caps, Pour(caps, need))[..k]) <= Total(Remainders(caps, other)[..k])
  {
    PourPrefix(caps, need, k);
    TotalAtMost(other[..k], caps[..k]);
    TotalSplit(other, k);
    TotalNonNegative(other[k..]);
    RemaindersTotal(caps, Pour(caps, need), k);
    RemaindersTotal(caps, other, k);
  }

  lemma {:induction false} RemaindersTotal(caps: seq<int>, taken: seq<int>, k: nat)
    requires |caps| == |taken| && k <= |caps|
    ensures Total(Remainders(caps, taken)[..k]) == Total(caps[..k]) - Total(taken[..k])
  {
    if k > 0 {
      RemaindersTotal(caps, taken, k - 1);
      TotalLast(Remainders(caps, taken), k - 1);
      TotalLast(caps, k - 1);
      TotalLast(taken, k - 1);
    }
  }
}
