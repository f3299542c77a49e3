/** What every executed plan keeps: cached balances agree with the charges, and lifetime accounts balance. */
module PointInvariant {
  import opened Prelude
  import opened Waterfall
  import opened KstTime
  import opened PointCore
  import opened SpendLaws
  import opened PointLedger

  // For each user and kind the balance is what was charged minus what was spent minus what expired.

  ghost predicate RowOk(row: ChargeRow) {
    && 0 <= row.unspentPaid <= row.paid && 0 <= row.unspentFree <= row.free
    && (row.state == USABLE <==> row.unspentPaid + row.unspentFree > 0)
  }

  ghost predicate RowsOk(rows: seq<ChargeRow>) {
    forall i :: 0 <= i < |rows| ==> RowOk(rows[i])
  }

  function Summary(rows: seq<ChargeRow>, user: nat): Snapshot {
    Snapshot(UsableSum(rows, user, Paid), UsableSum(rows, user, Free),
             UsableSum(rows, user, Paid) + UsableSum(rows, user, Free))
  }

  ghost predicate CacheAgrees(ledger: Ledger) {
    forall user: nat :: BalanceOf(ledger.balances, user) == Summary(ledger.charges, user)
  }

  ghost predicate Accounted(ledger: Ledger) {
    forall user: nat, kind: Kind ::
      UsableSum(ledger.charges, user, kind)
      == ChargedSum(ledger.charges, user, kind) - SpentSum(ledger.spends, user, kind)
         - RemovedSum(ledger.removals, user, kind)
  }

  ghost predicate Inv(ledger: Ledger) {
    RowsOk(ledger.charges) && CacheAgrees(ledger) && Accounted(ledger)
  }

  // ----- Plans stay executable in shape, whatever world they were built on -----

  ghost predicate OwnedParts(rows: seq<ChargeRow>, user: nat, allocations: seq<SpendAllocation>) {
    forall j :: 0 <= j < |allocations| ==>
      PartOk(allocations[j]) && allocations[j].chargeId < |rows| && rows[allocations[j].chargeId].user == user
  }

  ghost predicate SpendPlanOk(rows: seq<ChargeRow>, user: nat, plan: SpendPlan) {
    && OwnedParts(rows, user, plan.allocations) && DistinctParts(plan.allocations)
    && plan.paidUsage == Used(plan.allocations, Paid) && plan.freeUsage == Used(plan.allocations, Free)
    && plan.after == Snapshot(plan.assumed.paid - plan.paidUsage, plan.assumed.free - plan.freeUsage,
                              plan.assumed.total - plan.paidUsage - plan.freeUsage)
  }

  ghost predicate OwnedExpirations(rows: seq<ChargeRow>, user: nat, expirations: seq<Expiration>) {
    forall j :: 0 <= j < |expirations| ==>
      var e := expirations[j];
      e.expiredPaid == e.assumedPaid && e.expiredFree == e.assumedFree
      && e.chargeId < |rows| && rows[e.chargeId].user == user
  }

  ghost predicate DistinctExpirations(expirations: seq<Expiration>) {
    forall i, j :: 0 <= i < j < |expirations| ==> expirations[i].chargeId != expirations[j].chargeId
  }

  ghost predicate ExpiryPlanOk(rows: seq<ChargeRow>, user: nat, plan: ExpiryPlan) {
    && OwnedExpirations(rows, user, plan.expirations) && DistinctExpirations(plan.expirations)
    && var paid, free := RemovedPart(plan.expirations, Paid), RemovedPart(plan.expirations, Free);
       plan.after == Snapshot(plan.assumed.paid - paid, plan.assumed.free - free, plan.assumed.total - paid - free)
  }

  ghost predicate ChargePlanOk(plan: ChargePlan) {
    plan.paid >= 0 && plan.free >= 0 && plan.total == plan.paid + plan.free && plan.total > 0
  }

  /** Loading gives sound, distinct charges of the user. */
  lemma LoadedCharges(rows: seq<ChargeRow>, user: nat)
    requires RowsOk(rows)
    ensures var charges := LoadCharges(rows, user);
            && Sound(charges) && DistinctCharges(charges)
            && forall i :: 0 <= i < |charges| ==>
                 charges[i].id < |rows| && UsableBy(rows[charges[i].id], user) && charges[i] == ChargeAt(rows, charges[i].id)
  {
    FifoKeysAre(rows, user);
    var keys := FifoKeys(rows, user);
    forall i | 0 <= i < |keys| ensures keys[i].id < |rows| && UsableBy(rows[keys[i].id], user) {
      assert keys[i] in keys;
    }
  }

  lemma PartsOwned(rows: seq<ChargeRow>, user: nat, paid: seq<int>, free: seq<int>)
    requires RowsOk(rows)
    requires Feasible(Caps(LoadCharges(rows, user), Paid), paid) && Feasible(Caps(LoadCharges(rows, user), Free), free)
    ensures OwnedParts(rows, user, Parts(LoadCharges(rows, user), paid, free))
  {
    var charges := LoadCharges(rows, user);
    LoadedCharges(rows, user);
    var parts := Parts(charges, paid, free);
    forall j | 0 <= j < |parts|
      ensures PartOk(parts[j]) && parts[j].chargeId < |rows| && rows[parts[j].chargeId].user == user
    {
      PartsOk(charges, paid, free, j);
    }
  }

  /** A plan decided on a user's rows only names that user's charges and balances its own books. */
  lemma DecidedSpendOk(rows: seq<ChargeRow>, user: nat, snapshot: Snapshot, amount: int, preferFree: bool)
    requires RowsOk(rows) && snapshot.paid >= 0 && snapshot.free >= 0
    ensures var r := SpendDecision(snapshot, LoadCharges(rows, user), amount, preferFree);
            r.Ok? ==> SpendPlanOk(rows, user, r.value)
                      && r.value.paidUsage >= 0 && r.value.freeUsage >= 0
                      && r.value.paidUsage + r.value.freeUsage == amount > 0
  {
    hide PourCharges, Pour, Parts, Total, LoadCharges;
    var charges := LoadCharges(rows, user);
    LoadedCharges(rows, user);
    var r := SpendDecision(snapshot, charges, amount, preferFree);
    if r.Ok? {
      var p := PaidUsage(snapshot, amount, preferFree);
      var f := amount - p;
      PourChargesIsTwoWaterfalls(charges, p, f);
      PourFeasible(Caps(charges, Paid), p);
      PourFeasible(Caps(charges, Free), f);
      PourTotal(Caps(charges, Paid), p);
      PourTotal(Caps(charges, Free), f);
      PartsOwned(rows, user, Pour(Caps(charges, Paid), p), Pour(Caps(charges, Free), f));
      UsedOfParts(charges, Pour(Caps(charges, Paid), p), Pour(Caps(charges, Free), f));
      PartsDistinct(charges, Pour(Caps(charges, Paid), p), Pour(Caps(charges, Free), f));
    }
  }

  lemma {:induction false} DueAreOwned(charges: seq<ExpirableCharge>, now: Instant, j: nat)
    requires j < |DueExpirations(charges, now)|
    ensures exists c :: c in charges && Due(c.chargedAt, now) && DueExpirations(charges, now)[j] == Expire(c)
  {
    var skip := if Due(charges[0].chargedAt, now) then 1 else 0;
    if j >= skip {
      DueAreOwned(charges[1..], now, j - skip);
      assert DueExpirations(charges, now)[j] == DueExpirations(charges[1..], now)[j - skip];
      var c :| c in charges[1..] && Due(c.chargedAt, now) && DueExpirations(charges, now)[j] == Expire(c);
      assert c in charges;
    } else {
      assert charges[0] in charges;
    }
  }

  /** Each expiration comes from a due charge of the list. */
  lemma DueFrom(charges: seq<ExpirableCharge>, now: Instant, j: nat) returns (k: nat)
    requires j < |DueExpirations(charges, now)|
    ensures k < |charges| && Due(charges[k].chargedAt, now) && DueExpirations(charges, now)[j] == Expire(charges[k])
  {
    DueAreOwned(charges, now, j);
    var c :| c in charges && Due(c.chargedAt, now) && DueExpirations(charges, now)[j] == Expire(c);
    k :| 0 <= k < |charges| && charges[k] == c;
  }

  ghost predicate DistinctExpirable(charges: seq<ExpirableCharge>) {
    forall i, j :: 0 <= i < j < |charges| ==> charges[i].id != charges[j].id
  }

  lemma {:induction false} DueDistinct(charges: seq<ExpirableCharge>, now: Instant)
    requires DistinctExpirable(charges)
    ensures DistinctExpirations(DueExpirations(charges, now))
  {
    if charges != [] {
      DueDistinct(charges[1..], now);
      var rest := DueExpirations(charges[1..], now);
      forall j | 0 <= j < |rest| ensures rest[j].chargeId != charges[0].id {
        var k := DueFrom(charges[1..], now, j);
        assert charges[k + 1] == charges[1..][k];
      }
    }
  }

  lemma DecidedExpiryOk(rows: seq<ChargeRow>, user: nat, snapshot: Snapshot, now: Instant)
    ensures ExpiryPlanOk(rows, user, ExpiryDecision(snapshot, LoadExpirable(rows, user), now))
  {
    var charges := LoadExpirable(rows, user);
    FifoKeysAre(rows, user);
    DueDistinct(charges, now);
    forall j | 0 <= j < |DueExpirations(charges, now)|
      ensures var e := DueExpirations(charges, now)[j];
              e.expiredPaid == e.assumedPaid && e.expiredFree == e.assumedFree
              && e.chargeId < |rows| && rows[e.chargeId].user == user
    {
      DueAreOwned(charges, now, j);
      var c :| c in charges && Due(c.chargedAt, now) && DueExpirations(charges, now)[j] == Expire(c);
      var i :| 0 <= i < |charges| && charges[i] == c;
      assert FifoKeys(rows, user)[i] in FifoKeys(rows, user);
    }
  }

  // ----- The effect of the guarded loops -----

  /** Rows are only added, or drained in place. */
  ghost predicate OnlyDrained(before: seq<ChargeRow>, after: seq<ChargeRow>) {
    |before| <= |after|
    && forall i :: 0 <= i < |before| ==>
         && after[i].user == before[i].user && after[i].chargedAt == before[i].chargedAt
         && after[i].unspentPaid <= before[i].unspentPaid && after[i].unspentFree <= before[i].unspentFree
  }

  lemma {:induction false} ConsumeAllKeeps(rows: seq<ChargeRow>, user: nat, allocations: seq<SpendAllocation>)
    requires RowsOk(rows) && OwnedParts(rows, user, allocations)
    ensures var r := ConsumeAll(rows, allocations);
            r.Some? ==> RowsOk(r.value) && |r.value| == |rows| && OnlyDrained(rows, r.value)
    decreases |allocations|
  {
    if allocations != [] {
      var a := allocations[0];
      if GuardHolds(rows, a.chargeId, a.assumedPaid, a.assumedFree) {
        ConsumeAllKeeps(rows[a.chargeId := Consume(rows[a.chargeId], a)], user, allocations[1..]);
      }
    }
  }

  lemma {:induction false} ConsumeAllSums(
    rows: seq<ChargeRow>, user: nat, allocations: seq<SpendAllocation>, other: nat, kind: Kind)
    requires RowsOk(rows) && OwnedParts(rows, user, allocations)
    requires ConsumeAll(rows, allocations).Some?
    ensures var after := ConsumeAll(rows, allocations).value;
            && UsableSum(after, other, kind)
               == UsableSum(rows, other, kind) - (if other == user then Used(allocations, kind) else 0)
            && ChargedSum(after, other, kind) == ChargedSum(rows, other, kind)
            && AllUsable(after, kind) == AllUsable(rows, kind) - Used(allocations, kind)
    decreases |allocations|
  {
    if allocations != [] {
      var a := allocations[0];
      var row := Consume(rows[a.chargeId], a);
      UsableSumUpdate(rows, a.chargeId, row, other, kind);
      ConsumeAllSums(rows[a.chargeId := row], user, allocations[1..], other, kind);
    }
  }

  lemma {:induction false} SweepAllKeeps(rows: seq<ChargeRow>, user: nat, expirations: seq<Expiration>, at: Instant)
    requires RowsOk(rows) && OwnedExpirations(rows, user, expirations)
    ensures var r := SweepAll(rows, expirations, at);
            r.Some? ==> RowsOk(r.value) && |r.value| == |rows| && OnlyDrained(rows, r.value)
    decreases |expirations|
  {
    if expirations != [] {
      var e := expirations[0];
      if GuardHolds(rows, e.chargeId, e.assumedPaid, e.assumedFree) {
        SweepAllKeeps(rows[e.chargeId := SweepRow(rows[e.chargeId], at)], user, expirations[1..], at);
      }
    }
  }

  lemma {:induction false} SweepAllSums(
    rows: seq<ChargeRow>, user: nat, expirations: seq<Expiration>, at: Instant, other: nat, kind: Kind)
    requires RowsOk(rows) && OwnedExpirations(rows, user, expirations)
    requires SweepAll(rows, expirations, at).Some?
    ensures var after := SweepAll(rows, expirations, at).value;
            && UsableSum(after, other, kind)
               == UsableSum(rows, other, kind) - (if other == user then RemovedPart(expirations, kind) else 0)
            && ChargedSum(after, other, kind) == ChargedSum(rows, other, kind)
    decreases |expirations|
  {
    if expirations != [] {
      var e := expirations[0];
      var row := SweepRow(rows[e.chargeId], at);
      UsableSumUpdate(rows, e.chargeId, row, other, kind);
      SweepAllSums(rows[e.chargeId := row], user, expirations[1..], at, other, kind);
    }
  }

  // ----- Each execution keeps the invariant, whenever its plan was made -----

  lemma SpendKeeps(ledger: Ledger, user: nat, reason: Reason, plan: SpendPlan)
    requires Inv(ledger) && SpendPlanOk(ledger.charges, user, plan)
    requires ApplySpend(ledger, user, reason, plan).Ok?
    ensures var after := ApplySpend(ledger, user, reason, plan).value;
            Inv(after) && OnlyDrained(ledger.charges, after.charges)
  {
    var after := ApplySpend(ledger, user, reason, plan).value;
    ConsumeAllKeeps(ledger.charges, user, plan.allocations);
    assert after.spends[..|after.spends| - 1] == ledger.spends;
    forall other: nat, kind: Kind
      ensures UsableSum(after.charges, other, kind)
           == UsableSum(ledger.charges, other, kind) - (if other == user then Used(plan.allocations, kind) else 0)
      ensures UsableSum(after.charges, other, kind)
           == ChargedSum(after.charges, other, kind) - SpentSum(after.spends, other, kind)
              - RemovedSum(after.removals, other, kind)
    {
      ConsumeAllSums(ledger.charges, user, plan.allocations, other, kind);
    }
    forall other: nat
      ensures BalanceOf(after.balances, other) == Summary(after.charges, other)
    {
      ConsumeAllSums(ledger.charges, user, plan.allocations, other, Paid);
      ConsumeAllSums(ledger.charges, user, plan.allocations, other, Free);
      assert BalanceOf(ledger.balances, other) == Summary(ledger.charges, other);
    }
  }

  lemma ExpiryKeeps(ledger: Ledger, user: nat, plan: ExpiryPlan)
    requires Inv(ledger) && ExpiryPlanOk(ledger.charges, user, plan)
    requires ApplyExpiry(ledger, user, plan).Ok?
    ensures var after := ApplyExpiry(ledger, user, plan).value;
            Inv(after) && OnlyDrained(ledger.charges, after.charges)
  {
    var after := ApplyExpiry(ledger, user, plan).value;
    if plan.expirations != [] {
      SweepAllKeeps(ledger.charges, user, plan.expirations, plan.expiredAt);
      assert after.removals[..|after.removals| - 1] == ledger.removals;
      forall other: nat, kind: Kind
        ensures UsableSum(after.charges, other, kind)
             == UsableSum(ledger.charges, other, kind)
                - (if other == user then RemovedPart(plan.expirations, kind) else 0)
        ensures UsableSum(after.charges, other, kind)
             == ChargedSum(after.charges, other, kind) - SpentSum(after.spends, other, kind)
                - RemovedSum(after.removals, other, kind)
      {
        SweepAllSums(ledger.charges, user, plan.expirations, plan.expiredAt, other, kind);
      }
      forall other: nat
        ensures BalanceOf(after.balances, other) == Summary(after.charges, other)
      {
        SweepAllSums(ledger.charges, user, plan.expirations, plan.expiredAt, other, Paid);
        SweepAllSums(ledger.charges, user, plan.expirations, plan.expiredAt, other, Free);
        assert BalanceOf(ledger.balances, other) == Summary(ledger.charges, other);
      }
    }
  }

  lemma ChargeKeeps(ledger: Ledger, user: nat, plan: ChargePlan)
    requires Inv(ledger) && ChargePlanOk(plan)
    ensures Inv(ApplyCharge(ledger, user, plan))
    ensures OnlyDrained(ledger.charges, ApplyCharge(ledger, user, plan).charges)
  {
    var after := ApplyCharge(ledger, user, plan);
    var row := NewCharge(user, plan);
    forall other: nat, kind: Kind
      ensures UsableSum(after.charges, other, kind)
           == UsableSum(ledger.charges, other, kind) + UsablePart(row, other, kind)
      ensures UsableSum(after.charges, other, kind)
           == ChargedSum(after.charges, other, kind) - SpentSum(after.spends, other, kind)
              - RemovedSum(after.removals, other, kind)
    {
      UsableSumAppend(ledger.charges, row, other, kind);
    }
    forall other: nat
      ensures BalanceOf(after.balances, other) == Summary(after.charges, other)
    {
      UsableSumAppend(ledger.charges, row, other, Paid);
      UsableSumAppend(ledger.charges, row, other, Free);
      assert BalanceOf(ledger.balances, other) == Summary(ledger.charges, other);
    }
  }

  lemma TransferKeeps(ledger: Ledger, fromUser: nat, toUser: nat, plan: TransferPlan)
    requires Inv(ledger) && SpendPlanOk(ledger.charges, fromUser, plan.spend) && ChargePlanOk(plan.charge)
    requires ApplyTransfer(ledger, fromUser, toUser, plan).Ok?
    ensures var after := ApplyTransfer(ledger, fromUser, toUser, plan).value;
            Inv(after) && OnlyDrained(ledger.charges, after.charges)
  {
    hide Inv, ApplySpend, ApplyCharge, SpendPlanOk;
    SpendKeeps(ledger, fromUser, TransferTo(toUser), plan.spend);
    ChargeKeeps(ApplySpend(ledger, fromUser, TransferTo(toUser), plan.spend).value, toUser, plan.charge);
  }

  /** A transfer moves points between users without creating, destroying or converting any. */
  lemma TransferConservesEachKind(ledger: Ledger, fromUser: nat, toUser: nat, plan: TransferPlan, kind: Kind)
    requires Inv(ledger) && SpendPlanOk(ledger.charges, fromUser, plan.spend)
    requires plan.charge.paid == plan.spend.paidUsage && plan.charge.free == plan.spend.freeUsage
    requires ApplyTransfer(ledger, fromUser, toUser, plan).Ok?
    ensures AllUsable(ApplyTransfer(ledger, fromUser, toUser, plan).value.charges, kind)
         == AllUsable(ledger.charges, kind)
  {
    ConsumeAllSums(ledger.charges, fromUser, plan.spend.allocations, 0, kind);
    var spent := ApplySpend(ledger, fromUser, TransferTo(toUser), plan.spend).value;
    UsableSumAppend(spent.charges, NewCharge(toUser, plan.charge), 0, kind);
  }

  lemma {:induction false} UsableSumNonNegative(rows: seq<ChargeRow>, user: nat, kind: Kind)
    requires RowsOk(rows)
    ensures UsableSum(rows, user, kind) >= 0
  {
    if rows != [] {
      UsableSumNonNegative(rows[..|rows| - 1], user, kind);
    }
  }

  /** The verify sweep accepts every user of a ledger that keeps the invariant. */
  lemma NoDrift(ledger: Ledger, user: nat)
    requires Inv(ledger)
    ensures AssertBalanceConsistent(user, BalanceOf(ledger.balances, user), LoadCharges(ledger.charges, user)) == Ok(())
    ensures BalanceOf(ledger.balances, user).paid >= 0 && BalanceOf(ledger.balances, user).free >= 0
  {
    LoadedSum(ledger.charges, user);
    UsableSumNonNegative(ledger.charges, user, Paid);
    UsableSumNonNegative(ledger.charges, user, Free);
  }
}
