/** Why spending in charging order is right: no other way leaves less value in due charges, at any instant. */
module FifoOptimality {
  import opened Prelude
  import opened Waterfall
  import opened KstTime
  import opened FifoOrder
  import opened PointCore
  import opened SpendLaws
  import opened PointLedger
  import opened PointInvariant

  /** The value left in the charges that are due at `now`. */
  function DueValue(keys: seq<Key>, left: seq<int>, now: Instant): int
    requires |keys| == |left|
  {
    if keys == [] then 0
    else (if Due(keys[0].at, now) then left[0] else 0) + DueValue(keys[1..], left[1..], now)
  }

  ghost predicate DuePrefix(keys: seq<Key>, now: Instant, k: nat) {
    k <= |keys| && forall i :: 0 <= i < |keys| ==> (Due(keys[i].at, now) <==> i < k)
  }

  /** The charges due at an instant are a prefix of the loaded order. */
  lemma {:induction false} DueIsPrefix(keys: seq<Key>, now: Instant) returns (k: nat)
    requires Sorted(keys)
    ensures DuePrefix(keys, now, k)
  {
    if keys == [] {
      k := 0;
    } else {
      var k' := DueIsPrefix(keys[1..], now);
      if Due(keys[0].at, now) {
        k := k' + 1;
        assert forall i :: 1 <= i < |keys| ==> keys[i] == keys[1..][i - 1];
      } else {
        k := 0;
        forall i | 0 <= i < |keys| ensures !Due(keys[i].at, now) {
          if i > 0 {
            assert Before(keys[0], keys[i]);
            DeadlineMonotone(keys[0].at, keys[i].at, EXPIRE_AFTER_DAYS);
          }
        }
      }
    }
  }

  lemma {:induction false} DueValueOfPrefix(keys: seq<Key>, left: seq<int>, now: Instant, k: nat)
    requires |keys| == |left| && DuePrefix(keys, now, k)
    ensures DueValue(keys, left, now) == Total(left[..k])
  {
    if keys != [] {
      forall i | 0 <= i < |keys[1..]|
        ensures Due(keys[1..][i].at, now) <==> i < if k == 0 then 0 else k - 1
      {
        assert keys[1..][i] == keys[i + 1];
      }
      DueValueOfPrefix(keys[1..], left[1..], now, if k == 0 then 0 else k - 1);
      if k > 0 {
        assert left[..k][1..] == left[1..][..k - 1];
        assert Due(keys[0].at, now);
      } else {
        assert !Due(keys[0].at, now);
      }
    }
  }

  /** What a plan takes from each loaded charge. */
  function TakenPerKey(plan: SpendPlan, keys: seq<Key>, kind: Kind): (taken: seq<int>)
    ensures |taken| == |keys|
    ensures forall i :: 0 <= i < |keys| ==> taken[i] == Taken(plan.allocations, keys[i].id, kind)
  {
    seq(|keys|, i requires 0 <= i < |keys| => Taken(plan.allocations, keys[i].id, kind))
  }

  function Usage(plan: SpendPlan, kind: Kind): int {
    if kind == Paid then plan.paidUsage else plan.freeUsage
  }

  lemma TakenIsPour(ledger: Ledger, user: nat, amount: int, preferFree: bool, kind: Kind)
    requires Inv(ledger) && 0 < amount <= BalanceOf(ledger.balances, user).total
    ensures var r := SpendDecision(BalanceOf(ledger.balances, user), LoadCharges(ledger.charges, user), amount, preferFree);
            && r.Ok? && Usage(r.value, kind) >= 0
            && TakenPerKey(r.value, FifoKeys(ledger.charges, user), kind)
               == Pour(Caps(LoadCharges(ledger.charges, user), kind), Usage(r.value, kind))
  {
    var charges := LoadCharges(ledger.charges, user);
    var keys := FifoKeys(ledger.charges, user);
    LoadedCharges(ledger.charges, user);
    LoadedSum(ledger.charges, user);
    SpendClosedForm(BalanceOf(ledger.balances, user), charges, amount, preferFree);
    var plan := SpendDecision(BalanceOf(ledger.balances, user), charges, amount, preferFree).value;
    PourFeasible(Caps(charges, Paid), plan.paidUsage);
    PourFeasible(Caps(charges, Free), plan.freeUsage);
    forall i | 0 <= i < |keys|
      ensures Taken(plan.allocations, keys[i].id, kind) == Pour(Caps(charges, kind), Usage(plan, kind))[i]
    {
      TakenOfPart(charges, Pour(Caps(charges, Paid), plan.paidUsage), Pour(Caps(charges, Free), plan.freeUsage), i);
    }
  }

  /**
   For either kind, any feasible allocation with the same usage leaves at least as much value in charges
   due at `now` as the FIFO plan does.
   */
  lemma FifoLeavesLeastDue(ledger: Ledger, user: nat, amount: int, preferFree: bool, kind: Kind,
                           other: seq<int>, now: Instant)
    requires Inv(ledger) && 0 < amount <= BalanceOf(ledger.balances, user).total
    requires Feasible(Caps(LoadCharges(ledger.charges, user), kind), other)
    requires var r := SpendDecision(BalanceOf(ledger.balances, user), LoadCharges(ledger.charges, user), amount, preferFree);
             r.Ok? && Total(other) == Usage(r.value, kind)
    ensures var plan := SpendDecision(BalanceOf(ledger.balances, user), LoadCharges(ledger.charges, user), amount, preferFree).value;
            var keys := FifoKeys(ledger.charges, user);
            var caps := Caps(LoadCharges(ledger.charges, user), kind);
            DueValue(keys, Remainders(caps, TakenPerKey(plan, keys, kind)), now)
            <= DueValue(keys, Remainders(caps, other), now)
  {
    var keys := FifoKeys(ledger.charges, user);
    var caps := Caps(LoadCharges(ledger.charges, user), kind);
    LoadedCharges(ledger.charges, user);
    TakenIsPour(ledger, user, amount, preferFree, kind);
    FifoKeysAre(ledger.charges, user);
    var k := DueIsPrefix(keys, now);
    var need := Total(other);
    PourOptimal(caps, need, other, k);
    DueValueOfPrefix(keys, Remainders(caps, Pour(caps, need)), now, k);
    DueValueOfPrefix(keys, Remainders(caps, other), now, k);
  }
}
