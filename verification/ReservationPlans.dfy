/** The two FIFO reservation decisions of the financial ledger. */
module ReservationPlans {
  import opened Prelude
  import opened Waterfall

  // `planReservation` holds POINT for a commission; the allocation loop of `planIncomeWithdrawal` holds INCOME for a payout.

  datatype LotBalance = LotBalance(lotId: nat, remaining: nat)

  datatype Allocation = Allocation(lotId: nat, amount: int, assumedRemaining: nat)

  datatype PlanError =
    | InvalidAmount(amount: int)
    | InsufficientFunds(available: int, requested: int)

  type AllocationPlan = Result<seq<Allocation>, PlanError>

  /** The largest integer `Number.isSafeInteger` accepts. */
  const MAX_SAFE_INTEGER := 9007199254740991

  function Capacities(lots: seq<LotBalance>): (caps: seq<int>)
    ensures |caps| == |lots| && forall i :: 0 <= i < |lots| ==> caps[i] == lots[i].remaining
    ensures NonNegative(caps)
  {
    seq(|lots|, i requires 0 <= i < |lots| => lots[i].remaining)
  }

  /** The recorded allocations: the non-zero parts of the waterfall, in lot order. */
  function Draws(lots: seq<LotBalance>, need: int): seq<Allocation> {
    if lots == [] || need == 0 then [] else
      var t := Min(lots[0].remaining, need);
      (if t > 0 then [Allocation(lots[0].lotId, t, lots[0].remaining)] else []) + Draws(lots[1..], need - t)
  }

  function Amounts(allocations: seq<Allocation>): (amounts: seq<int>)
    ensures |amounts| == |allocations|
    ensures forall i :: 0 <= i < |amounts| ==> amounts[i] == allocations[i].amount
  {
    seq(|allocations|, i requires 0 <= i < |allocations| => allocations[i].amount)
  }

  /** What both planners promise: a plan iff the lots cover a positive amount. */
  function PlanDraws(lots: seq<LotBalance>, amount: int): AllocationPlan {
    var available := Total(Capacities(lots));
    if amount <= 0 then Err(InvalidAmount(amount))
    else if available < amount then Err(InsufficientFunds(available, amount))
    else Ok(Draws(lots, amount))
  }

  /** `planIncomeWithdrawal` also refuses amounts beyond the safe integers. */
  function PlanWithdrawalDraws(lots: seq<LotBalance>, amount: int): AllocationPlan {
    if amount > MAX_SAFE_INTEGER then Err(InvalidAmount(amount)) else PlanDraws(lots, amount)
  }

  // ----- The loops of the source -----

  method PlanReservation(lots: seq<LotBalance>, amount: int) returns (plan: AllocationPlan)
    ensures plan == PlanDraws(lots, amount)
  {
    if amount <= 0 {
      return Err(InvalidAmount(amount));
    }
    var remaining, allocations := PourLoop(lots, amount);
    if remaining > 0 {
      var available := amount - remaining;
      return Err(InsufficientFunds(available, amount));
    }
    return Ok(allocations);
  }

  method PlanIncomeWithdrawal(lots: seq<LotBalance>, amount: int) returns (plan: AllocationPlan)
    ensures plan == PlanWithdrawalDraws(lots, amount)
  {
    if amount > MAX_SAFE_INTEGER || amount <= 0 {
      return Err(InvalidAmount(amount));
    }
    var remaining, allocations := PourLoop(lots, amount);
    if remaining > 0 {
      return Err(InsufficientFunds(amount - remaining, amount));
    }
    return Ok(allocations);
  }

  /** One turn of the loop moves the next part into the allocations. */
  lemma DrawStep(lots: seq<LotBalance>, i: nat, remaining: int, allocations: seq<Allocation>)
    requires i < |lots| && remaining > 0
    ensures var part := Min(lots[i].remaining, remaining);
            allocations + Draws(lots[i..], remaining)
            == (if part > 0 then allocations + [Allocation(lots[i].lotId, part, lots[i].remaining)] else allocations)
               + Draws(lots[i + 1..], remaining - part)
  {
    assert lots[i..][1..] == lots[i + 1..];
  }

  /** The loop body both planners repeat word for word. */
  method PourLoop(lots: seq<LotBalance>, amount: int) returns (remaining: int, allocations: seq<Allocation>)
    requires amount > 0
    ensures remaining == amount - Min(amount, Total(Capacities(lots)))
    ensures allocations == Draws(lots, amount)
  {
    remaining, allocations := amount, [];
    var i := 0;
    while i < |lots| && remaining != 0
      invariant 0 <= i <= |lots| && remaining >= 0
      invariant remaining == amount - Min(amount, Total(Capacities(lots)[..i]))
      invariant allocations + Draws(lots[i..], remaining) == Draws(lots, amount)
    {
      hide Draws, Total;
      var part := Min(lots[i].remaining, remaining);
      TotalLast(Capacities(lots), i);
      DrawStep(lots, i, remaining, allocations);
      if part > 0 {
        allocations := allocations + [Allocation(lots[i].lotId, part, lots[i].remaining)];
        remaining := remaining - part;
      }
      i := i + 1;
    }
    TotalSplit(Capacities(lots), i);
    TotalNonNegative(Capacities(lots)[i..]);
    assert Capacities(lots)[..|lots|] == Capacities(lots);
  }

  // ----- What the plan means -----

  /** The non-zero entries of a waterfall, paired with their lots. */
  function NonZeroParts(lots: seq<LotBalance>, taken: seq<int>): seq<Allocation>
    requires |lots| == |taken|
  {
    if lots == [] then [] else
      (if taken[0] != 0 then [Allocation(lots[0].lotId, taken[0], lots[0].remaining)] else [])
      + NonZeroParts(lots[1..], taken[1..])
  }

  lemma {:induction false} DrawsArePour(lots: seq<LotBalance>, need: int)
    requires need >= 0
    ensures Draws(lots, need) == NonZeroParts(lots, Pour(Capacities(lots), need))
  {
    if lots != [] {
      var t := Min(lots[0].remaining, need);
      assert Capacities(lots)[1..] == Capacities(lots[1..]);
      assert Pour(Capacities(lots), need)[1..] == Pour(Capacities(lots[1..]), need - t);
      DrawsArePour(lots[1..], need - t);
      if need == 0 {
        assert Draws(lots[1..], 0) == [];
      }
    }
  }

  /** Both planners compute the waterfall, succeed iff it can be filled, and report the exact shortfall. */
  lemma PlanIsWaterfall(lots: seq<LotBalance>, amount: int)
    ensures var caps := Capacities(lots);
            PlanDraws(lots, amount).Ok? <==> 0 < amount <= Total(caps)
    ensures var caps := Capacities(lots);
            PlanDraws(lots, amount).Ok? ==>
              PlanDraws(lots, amount).value == NonZeroParts(lots, Pour(caps, amount))
              && Total(Amounts(PlanDraws(lots, amount).value)) == amount
    ensures amount > 0 && PlanDraws(lots, amount).Err? ==>
              PlanDraws(lots, amount).error == InsufficientFunds(Total(Capacities(lots)), amount)
    ensures amount <= MAX_SAFE_INTEGER ==> PlanWithdrawalDraws(lots, amount) == PlanDraws(lots, amount)
    ensures amount > MAX_SAFE_INTEGER ==> PlanWithdrawalDraws(lots, amount).Err?
  {
    if 0 < amount <= Total(Capacities(lots)) {
      DrawsArePour(lots, amount);
      DrawsTotal(lots, amount);
    }
  }

  lemma {:induction false} DrawsTotal(lots: seq<LotBalance>, need: int)
    requires need >= 0
    ensures Total(Amounts(Draws(lots, need))) == Min(need, Total(Capacities(lots)))
  {
    TotalNonNegative(Capacities(lots));
    if lots != [] && need != 0 {
      var t := Min(lots[0].remaining, need);
      var rest := Draws(lots[1..], need - t);
      assert Capacities(lots)[1..] == Capacities(lots[1..]);
      DrawsTotal(lots[1..], need - t);
      TotalNonNegative(Capacities(lots[1..]));
      if t > 0 {
        assert Draws(lots, need)[1..] == rest;
        assert Amounts(Draws(lots, need))[1..] == Amounts(rest);
      } else {
        assert Draws(lots, need) == rest;
      }
    }
  }

  /** Every allocation names a planned lot, assumes its balance, and takes a positive part of it. */
  lemma {:induction false} DrawsWithinLots(lots: seq<LotBalance>, need: int, k: nat)
    requires need >= 0 && k < |Draws(lots, need)|
    ensures var a := Draws(lots, need)[k];
            && 0 < a.amount <= a.assumedRemaining
            && LotBalance(a.lotId, a.assumedRemaining) in lots
  {
    var t := Min(lots[0].remaining, need);
    var skip := if t > 0 then 1 else 0;
    if k >= skip {
      DrawsWithinLots(lots[1..], need - t, k - skip);
    }
  }

  ghost predicate DistinctLots(lots: seq<LotBalance>) {
    forall i, j :: 0 <= i < j < |lots| ==> lots[i].lotId != lots[j].lotId
  }

  ghost predicate DistinctAllocations(allocations: seq<Allocation>) {
    forall i, j :: 0 <= i < j < |allocations| ==> allocations[i].lotId != allocations[j].lotId
  }

  lemma {:induction false} DrawsDistinct(lots: seq<LotBalance>, need: int)
    requires need >= 0 && DistinctLots(lots)
    ensures DistinctAllocations(Draws(lots, need))
  {
    if lots != [] && need != 0 {
      var t := Min(lots[0].remaining, need);
      var rest := Draws(lots[1..], need - t);
      DrawsDistinct(lots[1..], need - t);
      forall k | 0 <= k < |rest| ensures rest[k].lotId != lots[0].lotId {
        DrawsWithinLots(lots[1..], need - t, k);
      }
    }
  }
}
