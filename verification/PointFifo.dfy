/** Oldest first in every interleaving: a plan that commits late still takes from the oldest points there are. */
module PointFifo {
  import opened Prelude
  import opened Waterfall
  import opened KstTime
  import opened FifoOrder
  import opened PointCore
  import opened SpendLaws
  import opened PointLedger
  import opened PointInvariant
  import opened FifoOptimality
  import opened PointConcurrency
  import opened PointEffects
  import S = SpendAdditivity
  import E = ExpiryLaws

  // A plan names rows and was made from the oldest of them.  Before it runs, others may spend, expire, transfer, or
  // add charges with any instant, even older ones.  The balance guard makes up for it: if the rows of the plan are
  // as it assumed, no older row that it saw can have been drawn on, so an unchanged balance leaves nothing in any
  // row it did not see.

  // ----- What a plan takes -----

  ghost function AsParts(expirations: seq<Expiration>): (parts: seq<SpendAllocation>)
    ensures |parts| == |expirations|
    ensures forall j :: 0 <= j < |parts| ==>
              var e := expirations[j];
              parts[j] == SpendAllocation(e.chargeId, e.expiredPaid, e.expiredFree, e.assumedPaid, e.assumedFree, true)
  {
    seq(|expirations|, j requires 0 <= j < |expirations| =>
      var e := expirations[j];
      SpendAllocation(e.chargeId, e.expiredPaid, e.expiredFree, e.assumedPaid, e.assumedFree, true))
  }

  ghost function PartsOf(p: Pending): seq<SpendAllocation> {
    match p
    case PendingSpend(_, _, plan) => plan.allocations
    case PendingTransfer(_, _, plan) => plan.spend.allocations
    case PendingExpiry(_, plan) => AsParts(plan.expirations)
  }

  ghost function PayerOf(p: Pending): nat {
    match p
    case PendingSpend(user, _, _) => user
    case PendingTransfer(user, _, _) => user
    case PendingExpiry(user, _) => user
  }

  ghost function AssumedOf(p: Pending): Snapshot {
    match p
    case PendingSpend(_, _, plan) => plan.assumed
    case PendingTransfer(_, _, plan) => plan.spend.assumed
    case PendingExpiry(_, plan) => plan.assumed
  }

  ghost function Take(a: SpendAllocation, kind: Kind): int { if kind == Paid then a.paid else a.free }

  ghost function Assumes(a: SpendAllocation, kind: Kind): int { if kind == Paid then a.assumedPaid else a.assumedFree }

  ghost predicate Older(rows: seq<ChargeRow>, i: nat, j: nat)
    requires i < |rows| && j < |rows|
  {
    rows[i].chargedAt < rows[j].chargedAt || (rows[i].chargedAt == rows[j].chargedAt && i < j)
  }

  // ----- What stays true of a waiting plan made when the table had n rows -----

  ghost predicate NamesOwnRows(rows: seq<ChargeRow>, user: nat, parts: seq<SpendAllocation>, n: nat) {
    n <= |rows|
    && forall j :: 0 <= j < |parts| ==>
         && parts[j].chargeId < n && rows[parts[j].chargeId].user == user
         && (forall kind :: rows[parts[j].chargeId].Unspent(kind) <= Assumes(parts[j], kind))
         && forall kind :: 0 <= Take(parts[j], kind) <= Assumes(parts[j], kind)
  }

  /** The plan takes all of row i's points of a kind. */
  ghost predicate Empties(parts: seq<SpendAllocation>, i: nat, kind: Kind) {
    exists m :: 0 <= m < |parts| && parts[m].chargeId == i && Take(parts[m], kind) == Assumes(parts[m], kind)
  }

  /** Of the rows it saw, those older than one it takes from are empty or emptied by it. */
  ghost predicate TakesOldest(rows: seq<ChargeRow>, user: nat, parts: seq<SpendAllocation>, n: nat) {
    n <= |rows|
    && forall kind: Kind, i: nat, j: nat | i < n && j < |parts| && parts[j].chargeId < n ::
         rows[i].user == user && Take(parts[j], kind) > 0 && Older(rows, i, parts[j].chargeId) ==>
           rows[i].Unspent(kind) == 0 || Empties(parts, i, kind)
  }

  ghost predicate Intact(rows: seq<ChargeRow>, parts: seq<SpendAllocation>) {
    forall j :: 0 <= j < |parts| ==>
      parts[j].chargeId < |rows|
      && forall kind :: rows[parts[j].chargeId].Unspent(kind) == Assumes(parts[j], kind)
  }

  ghost predicate Takes(parts: seq<SpendAllocation>, kind: Kind) {
    exists j :: 0 <= j < |parts| && Take(parts[j], kind) > 0
  }

  /** While its rows are as assumed, the rows it saw still hold the balance it assumed. */
  ghost predicate HoldsAssumed(rows: seq<ChargeRow>, user: nat, parts: seq<SpendAllocation>, n: nat, assumed: Snapshot) {
    n <= |rows|
    && (Intact(rows, parts) ==> forall kind :: Takes(parts, kind) ==> UsableSum(rows[..n], user, kind) == assumed.Part(kind))
  }

  ghost predicate Waiting(rows: seq<ChargeRow>, p: Pending, n: nat) {
    && NamesOwnRows(rows, PayerOf(p), PartsOf(p), n) && TakesOldest(rows, PayerOf(p), PartsOf(p), n)
    && HoldsAssumed(rows, PayerOf(p), PartsOf(p), n, AssumedOf(p))
  }

  // ----- It is true when the plan is made -----

  lemma {:induction false} TakenOfDistinct(allocations: seq<SpendAllocation>, j: nat, kind: Kind)
    requires DistinctParts(allocations) && j < |allocations|
    ensures Taken(allocations, allocations[j].chargeId, kind) == Take(allocations[j], kind)
  {
    if j == 0 {
      S.AbsentNotTaken(allocations[1..], allocations[0].chargeId);
    } else {
      TakenOfDistinct(allocations[1..], j - 1, kind);
    }
  }

  lemma {:induction false} TakenIsPart(allocations: seq<SpendAllocation>, id: nat, kind: Kind) returns (j: nat)
    requires Taken(allocations, id, kind) > 0
    ensures j < |allocations| && allocations[j].chargeId == id
  {
    if allocations[0].chargeId == id {
      j := 0;
    } else {
      j := TakenIsPart(allocations[1..], id, kind);
      j := j + 1;
    }
  }

  lemma SpendTakesOldest(ledger: Ledger, user: nat, amount: int, preferFree: bool, kind: Kind, i: nat, j: nat)
    requires Inv(ledger)
    requires var r := SpendDecision(BalanceOf(ledger.balances, user), LoadCharges(ledger.charges, user), amount, preferFree);
             && r.Ok? && j < |r.value.allocations| && r.value.allocations[j].chargeId < |ledger.charges|
             && i < |ledger.charges| && ledger.charges[i].user == user && Take(r.value.allocations[j], kind) > 0
             && Older(ledger.charges, i, r.value.allocations[j].chargeId)
    ensures var r := SpendDecision(BalanceOf(ledger.balances, user), LoadCharges(ledger.charges, user), amount, preferFree);
            ledger.charges[i].Unspent(kind) == 0 || Empties(r.value.allocations, i, kind)
  {
    hide Pour, SpendDecision, PourCharges;
    var rows := ledger.charges;
    var r := SpendDecision(BalanceOf(ledger.balances, user), LoadCharges(rows, user), amount, preferFree);
    SpendAmounts(ledger, user, amount, preferFree);
    S.DecidedIsFresh(ledger, user, amount, preferFree);
    if rows[i].Unspent(kind) != 0 {
      var parts, l := r.value.allocations, r.value.allocations[j].chargeId;
      DecidedOwner(ledger, user, amount, preferFree, j);
      assert RowOk(rows[i]);
      var a, b := PositionsInOrder(rows, user, i, l);
      S.TakenAt(ledger, user, amount, preferFree, a, kind);
      S.TakenAt(ledger, user, amount, preferFree, b, kind);
      TakenOfDistinct(parts, j, kind);
      LoadedCharges(rows, user);
      PourFillsInOrder(Caps(LoadCharges(rows, user), kind), Usage(r.value, kind), a, b);
      assert Taken(parts, i, kind) == rows[i].Unspent(kind) > 0;
      var m := TakenIsPart(parts, i, kind);
      TakenOfDistinct(parts, m, kind);
      assert Take(parts[m], kind) == Assumes(parts[m], kind);
    }
  }

  lemma SpendAmounts(ledger: Ledger, user: nat, amount: int, preferFree: bool)
    requires Inv(ledger)
    requires SpendDecision(BalanceOf(ledger.balances, user), LoadCharges(ledger.charges, user), amount, preferFree).Ok?
    ensures 0 < amount <= BalanceOf(ledger.balances, user).total
  {
  }

  lemma DecidedOwner(ledger: Ledger, user: nat, amount: int, preferFree: bool, j: nat)
    requires Inv(ledger)
    requires var r := SpendDecision(BalanceOf(ledger.balances, user), LoadCharges(ledger.charges, user), amount, preferFree);
             r.Ok? && j < |r.value.allocations|
    ensures var r := SpendDecision(BalanceOf(ledger.balances, user), LoadCharges(ledger.charges, user), amount, preferFree);
            r.value.allocations[j].chargeId < |ledger.charges| && UsableBy(ledger.charges[r.value.allocations[j].chargeId], user)
  {
    hide SpendDecision, PourCharges;
    SpendAmounts(ledger, user, amount, preferFree);
    S.DecidedIsFresh(ledger, user, amount, preferFree);
    NoDrift(ledger, user);
    DecidedSpendOk(ledger.charges, user, BalanceOf(ledger.balances, user), amount, preferFree);
  }

  lemma SpendPlanWaits(ledger: Ledger, user: nat, amount: int, preferFree: bool)
    requires Inv(ledger)
    requires SpendDecision(BalanceOf(ledger.balances, user), LoadCharges(ledger.charges, user), amount, preferFree).Ok?
    ensures var plan := SpendDecision(BalanceOf(ledger.balances, user), LoadCharges(ledger.charges, user), amount, preferFree).value;
            var rows, n := ledger.charges, |ledger.charges|;
            && NamesOwnRows(rows, user, plan.allocations, n) && TakesOldest(rows, user, plan.allocations, n)
            && HoldsAssumed(rows, user, plan.allocations, n, plan.assumed)
  {
    var rows, n := ledger.charges, |ledger.charges|;
    var plan := SpendDecision(BalanceOf(ledger.balances, user), LoadCharges(rows, user), amount, preferFree).value;
    assert plan.assumed == BalanceOf(ledger.balances, user);
    SpendAmounts(ledger, user, amount, preferFree);
    hide SpendDecision, PourCharges;
    S.DecidedIsFresh(ledger, user, amount, preferFree);
    forall j | 0 <= j < |plan.allocations|
      ensures plan.allocations[j].chargeId < n && UsableBy(rows[plan.allocations[j].chargeId], user)
    {
      DecidedOwner(ledger, user, amount, preferFree, j);
    }
    forall kind: Kind, i: nat, j: nat | i < n && j < |plan.allocations| && plan.allocations[j].chargeId < n
      && rows[i].user == user && Take(plan.allocations[j], kind) > 0 && Older(rows, i, plan.allocations[j].chargeId)
      ensures rows[i].Unspent(kind) == 0 || Empties(plan.allocations, i, kind)
    {
      SpendTakesOldest(ledger, user, amount, preferFree, kind, i, j);
    }
    assert rows[..n] == rows && BalanceOf(ledger.balances, user) == Summary(rows, user);
  }

  lemma SweepTakesOldest(rows: seq<ChargeRow>, user: nat, now: Instant, kind: Kind, i: nat, j: nat)
    requires RowsOk(rows) && i < |rows| && rows[i].user == user && rows[i].Unspent(kind) != 0
    requires var due := DueExpirations(LoadExpirable(rows, user), now);
             j < |due| && due[j].chargeId < |rows| && Older(rows, i, due[j].chargeId)
    ensures Empties(AsParts(DueExpirations(LoadExpirable(rows, user), now)), i, kind)
  {
    hide Due, DueExpirations, LoadExpirable;
    var due := DueExpirations(LoadExpirable(rows, user), now);
    var parts := AsParts(due);
    SweptIsDue(rows, user, now, j);
    OlderIsDue(rows[i].chargedAt, rows[due[j].chargeId].chargedAt, now);
    assert RowOk(rows[i]);
    DecidedExpiryOk(rows, user, ZERO, now);
    E.DecidedExpirations(rows, user, now, i);
    var m :| 0 <= m < |due| && due[m].chargeId == i;
    assert parts[m].chargeId == i && Take(parts[m], kind) == Assumes(parts[m], kind);
  }

  lemma SweepNamesOwn(rows: seq<ChargeRow>, user: nat, now: Instant)
    requires RowsOk(rows)
    ensures NamesOwnRows(rows, user, AsParts(DueExpirations(LoadExpirable(rows, user), now)), |rows|)
  {
    hide Due, DueExpirations, LoadExpirable;
    var due := DueExpirations(LoadExpirable(rows, user), now);
    DecidedExpiryOk(rows, user, ZERO, now);
    forall j | 0 <= j < |due|
      ensures due[j].chargeId < |rows| && GuardHolds(rows, due[j].chargeId, due[j].assumedPaid, due[j].assumedFree)
    {
      SweptIsDue(rows, user, now, j);
    }
  }

  /** A sweep takes every due row whole, and what is older than a due row is due. */
  lemma SweepPlanWaits(ledger: Ledger, user: nat, now: Instant)
    requires Inv(ledger)
    ensures var plan := ExpiryDecision(BalanceOf(ledger.balances, user), LoadExpirable(ledger.charges, user), now);
            var rows, n, parts := ledger.charges, |ledger.charges|, AsParts(plan.expirations);
            && NamesOwnRows(rows, user, parts, n) && TakesOldest(rows, user, parts, n)
            && HoldsAssumed(rows, user, parts, n, plan.assumed)
  {
    hide Due, DueExpirations, LoadExpirable, NamesOwnRows, Empties;
    var rows, n := ledger.charges, |ledger.charges|;
    var parts := AsParts(DueExpirations(LoadExpirable(rows, user), now));
    assert rows[..n] == rows && BalanceOf(ledger.balances, user) == Summary(rows, user);
    RowsOfInv(ledger);
    hide Inv;
    SweepNamesOwn(rows, user, now);
    forall kind: Kind, i: nat, j: nat | i < n && j < |parts| && parts[j].chargeId < n
      && rows[i].user == user && Take(parts[j], kind) > 0 && Older(rows, i, parts[j].chargeId)
      ensures rows[i].Unspent(kind) == 0 || Empties(parts, i, kind)
    {
      if rows[i].Unspent(kind) != 0 {
        SweepTakesOldest(rows, user, now, kind, i, j);
      }
    }
  }

  lemma SweptIsDue(rows: seq<ChargeRow>, user: nat, now: Instant, j: nat)
    requires j < |DueExpirations(LoadExpirable(rows, user), now)|
    ensures var due := DueExpirations(LoadExpirable(rows, user), now);
            && due[j].chargeId < |rows| && UsableBy(rows[due[j].chargeId], user) && Due(rows[due[j].chargeId].chargedAt, now)
            && E.FreshExpirations(rows, due)
  {
    var due := DueExpirations(LoadExpirable(rows, user), now);
    var k := DueFrom(LoadExpirable(rows, user), now, j);
    E.LoadedIsUsable(rows, user, k);
    E.DecidedExpirations(rows, user, now, due[j].chargeId);
  }

  lemma OlderIsDue(a: Instant, b: Instant, now: Instant)
    requires a <= b && Due(b, now)
    ensures Due(a, now)
  {
    DeadlineMonotone(a, b, EXPIRE_AFTER_DAYS);
  }

  lemma DecidedWaits(ledger: Ledger, request: Request)
    requires Inv(ledger) && Decide(ledger, request).Ok?
    ensures Waiting(ledger.charges, Decide(ledger, request).value, |ledger.charges|)
  {
    hide Inv, SpendDecision, ExpiryDecision, NamesOwnRows, TakesOldest, HoldsAssumed;
    match request
    case SpendPoints(user, amount, _) => SpendPlanWaits(ledger, user, amount, false);
    case TransferPoints(fromUser, _, amount, _, preferFree) => SpendPlanWaits(ledger, fromUser, amount, preferFree);
    case ExpirePoints(user, now) => SweepPlanWaits(ledger, user, now);
  }

  // ----- A commit of a waiting plan takes the oldest -----

  /** Each named row loses its part, and no other row loses anything. */
  ghost predicate TakesParts(before: seq<ChargeRow>, after: seq<ChargeRow>, parts: seq<SpendAllocation>) {
    |before| <= |after|
    && forall i :: 0 <= i < |before| ==>
         && (forall j :: 0 <= j < |parts| && parts[j].chargeId == i ==>
              forall kind :: after[i].Unspent(kind) == before[i].Unspent(kind) - Take(parts[j], kind))
         && ((forall j :: 0 <= j < |parts| ==> parts[j].chargeId != i) ==> forall kind :: after[i].Unspent(kind) == before[i].Unspent(kind))
  }

  lemma SpendTakesParts(rows: seq<ChargeRow>, user: nat, allocations: seq<SpendAllocation>)
    requires RowsOk(rows) && OwnedParts(rows, user, allocations) && DistinctParts(allocations) && PartsCurrent(rows, allocations)
    ensures var r := ConsumeAll(rows, allocations);
            r.Some? && |r.value| == |rows| && TakesParts(rows, r.value, allocations)
  {
    hide ConsumeAll, RowsOk, Taken;
    ConsumesIffCurrent(rows, allocations);
    ConsumeAllKeeps(rows, user, allocations);
    assert S.FreshParts(rows, allocations);
    hide OwnedParts, PartsCurrent, S.FreshParts;
    var after := ConsumeAll(rows, allocations).value;
    forall i, kind: Kind | 0 <= i < |rows|
      ensures after[i].Unspent(kind) == rows[i].Unspent(kind) - Taken(allocations, i, kind)
      ensures (forall j :: 0 <= j < |allocations| ==> allocations[j].chargeId != i) ==> Taken(allocations, i, kind) == 0
    {
      S.FreshConsume(rows, allocations, i);
      if forall j :: 0 <= j < |allocations| ==> allocations[j].chargeId != i {
        S.AbsentNotTaken(allocations, i);
      }
    }
    forall j, kind: Kind | 0 <= j < |allocations|
      ensures Taken(allocations, allocations[j].chargeId, kind) == Take(allocations[j], kind)
    {
      TakenOfDistinct(allocations, j, kind);
    }
  }

  lemma SweepTakesParts(rows: seq<ChargeRow>, user: nat, expirations: seq<Expiration>, now: Instant)
    requires RowsOk(rows) && OwnedExpirations(rows, user, expirations) && DistinctExpirations(expirations)
    requires ExpirationsCurrent(rows, expirations)
    ensures var r := SweepAll(rows, expirations, now);
            r.Some? && |r.value| == |rows| && TakesParts(rows, r.value, AsParts(expirations))
  {
    SweepsIffCurrent(rows, expirations, now);
    SweepAllKeeps(rows, user, expirations, now);
    var after, parts := SweepAll(rows, expirations, now).value, AsParts(expirations);
    assert E.FreshExpirations(rows, expirations);
    forall i | 0 <= i < |rows|
      ensures after[i] == if E.Expires(expirations, i) then SweepRow(rows[i], now) else rows[i]
    {
      E.FreshSweep(rows, expirations, now, i);
    }
    forall i, j | 0 <= i < |rows| && 0 <= j < |parts| && parts[j].chargeId == i
      ensures after[i] == SweepRow(rows[i], now)
      ensures forall kind :: Take(parts[j], kind) == rows[i].Unspent(kind)
    {
      assert expirations[j].chargeId == i;
    }
  }

  lemma ExecuteTakesParts(ledger: Ledger, p: Pending)
    requires Inv(ledger) && PendingOk(ledger.charges, p) && Execute(ledger, p).Ok?
    ensures TakesParts(ledger.charges, Execute(ledger, p).value.charges, PartsOf(p))
    ensures PartsOf(p) != [] ==> Intact(ledger.charges, PartsOf(p))
    ensures PartsOf(p) != [] ==> BalanceOf(ledger.balances, PayerOf(p)) == AssumedOf(p)
  {
    hide Inv, ConsumeAll, SweepAll, TakesParts;
    RowsOfInv(ledger);
    ExecutesIffCurrent(ledger, p);
    match p
    case PendingSpend(user, _, plan) => SpendTakesParts(ledger.charges, user, plan.allocations);
    case PendingTransfer(user, toUser, plan) =>
      SpendTakesParts(ledger.charges, user, plan.spend.allocations);
      var spent := ConsumeAll(ledger.charges, plan.spend.allocations).value;
      MoreRows(ledger.charges, spent, NewCharge(toUser, plan.charge), plan.spend.allocations);
    case PendingExpiry(user, plan) =>
      if plan.expirations == [] {
        NothingTaken(ledger.charges);
      } else {
        SweepTakesParts(ledger.charges, user, plan.expirations, plan.expiredAt);
      }
  }

  lemma MoreRows(before: seq<ChargeRow>, after: seq<ChargeRow>, row: ChargeRow, parts: seq<SpendAllocation>)
    requires TakesParts(before, after, parts)
    ensures TakesParts(before, after + [row], parts)
  {
  }

  lemma NothingTaken(rows: seq<ChargeRow>)
    ensures TakesParts(rows, rows, [])
  {
  }

  /** Whoever loses points of a kind leaves nothing of it in older charges of the same user. */
  ghost predicate OldestOfAll(before: seq<ChargeRow>, after: seq<ChargeRow>) {
    |before| <= |after|
    && forall kind: Kind, i: nat, j: nat | i < |before| && j < |before| ::
         before[i].user == before[j].user && Older(before, i, j) && after[j].Unspent(kind) < before[j].Unspent(kind) ==>
           after[i].Unspent(kind) == 0
  }

  lemma {:induction false} NothingAmongNew(rows: seq<ChargeRow>, user: nat, kind: Kind, n: nat, i: nat)
    requires RowsOk(rows) && n <= i < |rows| && rows[i].user == user
    requires UsableSum(rows, user, kind) == UsableSum(rows[..n], user, kind)
    ensures rows[i].Unspent(kind) == 0
  {
    var last := |rows| - 1;
    PrefixAtMost(rows[..last], user, kind, n);
    assert rows[..last][..n] == rows[..n];
    assert RowOk(rows[last]);
    if i < last {
      NothingAmongNew(rows[..last], user, kind, n, i);
    }
  }

  lemma {:induction false} PrefixAtMost(rows: seq<ChargeRow>, user: nat, kind: Kind, n: nat)
    requires RowsOk(rows) && n <= |rows|
    ensures UsableSum(rows[..n], user, kind) <= UsableSum(rows, user, kind)
  {
    if n == |rows| {
      assert rows[..n] == rows;
    } else {
      var last := |rows| - 1;
      assert rows[..last][..n] == rows[..n];
      PrefixAtMost(rows[..last], user, kind, n);
    }
  }

  lemma CommitTakesOldest(ledger: Ledger, p: Pending, n: nat)
    requires Inv(ledger) && PendingOk(ledger.charges, p) && Waiting(ledger.charges, p, n) && Execute(ledger, p).Ok?
    ensures OldestOfAll(ledger.charges, Execute(ledger, p).value.charges)
  {
    hide Inv, Execute, PendingOk;
    var before, after, parts := ledger.charges, Execute(ledger, p).value.charges, PartsOf(p);
    ExecuteTakesParts(ledger, p);
    ExecuteKeeps(ledger, p);
    RowsOfInv(ledger);
    forall kind: Kind, i: nat, j: nat | i < |before| && j < |before| && before[i].user == before[j].user
      && Older(before, i, j) && after[j].Unspent(kind) < before[j].Unspent(kind)
      ensures after[i].Unspent(kind) == 0
    {
      var m :| 0 <= m < |parts| && parts[m].chargeId == j;
      assert Take(parts[m], kind) > 0;
      if i < n {
        SeenIsEmptied(before, after, PayerOf(p), parts, n, kind, i, m);
      } else {
        assert Takes(parts, kind);
        BalanceIsSum(ledger, PayerOf(p), kind);
        NothingAmongNew(before, PayerOf(p), kind, n, i);
        OnlyLess(before, after, kind, i);
        RowsOfInv(Execute(ledger, p).value);
        assert RowOk(after[i]);
      }
    }
  }

  lemma OnlyLess(before: seq<ChargeRow>, after: seq<ChargeRow>, kind: Kind, i: nat)
    requires OnlyDrained(before, after) && i < |before|
    ensures i < |after| && after[i].Unspent(kind) <= before[i].Unspent(kind)
  {
  }

  lemma BalanceIsSum(ledger: Ledger, user: nat, kind: Kind)
    requires Inv(ledger)
    ensures BalanceOf(ledger.balances, user).Part(kind) == UsableSum(ledger.charges, user, kind)
  {
    assert BalanceOf(ledger.balances, user) == Summary(ledger.charges, user);
  }

  lemma SeenIsEmptied(before: seq<ChargeRow>, after: seq<ChargeRow>, user: nat, parts: seq<SpendAllocation>, n: nat,
                      kind: Kind, i: nat, m: nat)
    requires NamesOwnRows(before, user, parts, n) && TakesOldest(before, user, parts, n) && Intact(before, parts)
    requires TakesParts(before, after, parts) && OnlyDrained(before, after) && RowsOk(after)
    requires i < n && m < |parts| && Take(parts[m], kind) > 0
    requires i < |before| && parts[m].chargeId < |before| && before[i].user == user && Older(before, i, parts[m].chargeId)
    ensures i < |after| && after[i].Unspent(kind) == 0
  {
    hide *;
    OnlyLess(before, after, kind, i);
    NotNegative(after, i, kind);
    OwnRow(before, user, parts, n, m, kind);
    SeenOlder(before, user, parts, n, kind, i, m);
    if before[i].Unspent(kind) != 0 {
      var e := EmptiedBy(parts, i, kind);
      IntactRow(before, parts, e, kind);
      PartTaken(before, after, parts, e, kind);
    }
  }

  // One row, one part, at a time.

  lemma NotNegative(rows: seq<ChargeRow>, i: nat, kind: Kind)
    requires RowsOk(rows) && i < |rows|
    ensures rows[i].Unspent(kind) >= 0
  {
    assert RowOk(rows[i]);
  }

  lemma OwnRow(rows: seq<ChargeRow>, user: nat, parts: seq<SpendAllocation>, n: nat, j: nat, kind: Kind)
    requires NamesOwnRows(rows, user, parts, n) && j < |parts|
    ensures parts[j].chargeId < n <= |rows| && rows[parts[j].chargeId].user == user
    ensures rows[parts[j].chargeId].Unspent(kind) <= Assumes(parts[j], kind) && 0 <= Take(parts[j], kind) <= Assumes(parts[j], kind)
  {
  }

  lemma SeenOlder(rows: seq<ChargeRow>, user: nat, parts: seq<SpendAllocation>, n: nat, kind: Kind, i: nat, j: nat)
    requires TakesOldest(rows, user, parts, n) && i < n && j < |parts| && i < |rows|
    requires parts[j].chargeId < n && parts[j].chargeId < |rows| && rows[i].user == user
    requires Take(parts[j], kind) > 0 && Older(rows, i, parts[j].chargeId)
    ensures rows[i].Unspent(kind) == 0 || Empties(parts, i, kind)
  {
  }

  lemma EmptiedBy(parts: seq<SpendAllocation>, i: nat, kind: Kind) returns (m: nat)
    requires Empties(parts, i, kind)
    ensures m < |parts| && parts[m].chargeId == i && Take(parts[m], kind) == Assumes(parts[m], kind)
  {
    m :| 0 <= m < |parts| && parts[m].chargeId == i && Take(parts[m], kind) == Assumes(parts[m], kind);
  }

  lemma IntactRow(rows: seq<ChargeRow>, parts: seq<SpendAllocation>, j: nat, kind: Kind)
    requires Intact(rows, parts) && j < |parts|
    ensures parts[j].chargeId < |rows| && rows[parts[j].chargeId].Unspent(kind) == Assumes(parts[j], kind)
  {
  }

  lemma PartTaken(before: seq<ChargeRow>, after: seq<ChargeRow>, parts: seq<SpendAllocation>, j: nat, kind: Kind)
    requires TakesParts(before, after, parts) && j < |parts| && parts[j].chargeId < |before|
    ensures parts[j].chargeId < |after|
    ensures after[parts[j].chargeId].Unspent(kind) == before[parts[j].chargeId].Unspent(kind) - Take(parts[j], kind)
  {
  }

  lemma OldestRow(before: seq<ChargeRow>, after: seq<ChargeRow>, kind: Kind, i: nat, j: nat)
    requires OldestOfAll(before, after) && i < |before| && j < |before| && before[i].user == before[j].user && Older(before, i, j)
    ensures |before| <= |after|
    ensures after[j].Unspent(kind) < before[j].Unspent(kind) ==> after[i].Unspent(kind) == 0
  {
  }

  lemma OneIsOlder(rows: seq<ChargeRow>, i: nat, j: nat)
    requires i < |rows| && j < |rows| && i != j
    ensures Older(rows, i, j) || Older(rows, j, i)
  {
  }

  lemma TakenFor(parts: seq<SpendAllocation>, kind: Kind) returns (j: nat)
    requires Takes(parts, kind)
    ensures j < |parts| && Take(parts[j], kind) > 0
  {
    j :| 0 <= j < |parts| && Take(parts[j], kind) > 0;
  }

  // ----- It stays true while the plan waits -----

  lemma {:induction false} SamePrefixSum(a: seq<ChargeRow>, b: seq<ChargeRow>, user: nat, kind: Kind, n: nat)
    requires RowsOk(a) && RowsOk(b) && n <= |a| && n <= |b|
    requires forall i :: 0 <= i < n ==> a[i].user == b[i].user && (a[i].user == user ==> a[i].Unspent(kind) == b[i].Unspent(kind))
    ensures UsableSum(a[..n], user, kind) == UsableSum(b[..n], user, kind)
  {
    if n > 0 {
      assert a[..n][..n - 1] == a[..n - 1] && b[..n][..n - 1] == b[..n - 1];
      assert RowOk(a[n - 1]) && RowOk(b[n - 1]);
      SamePrefixSum(a, b, user, kind, n - 1);
    }
  }

  /** A row the plan saw cannot have lost anything it counts on while the plan's own rows stay as assumed. */
  lemma SeenRowsKept(before: seq<ChargeRow>, after: seq<ChargeRow>, user: nat, parts: seq<SpendAllocation>, n: nat, kind: Kind, d: nat)
    requires NamesOwnRows(before, user, parts, n) && TakesOldest(before, user, parts, n) && RowsOk(after)
    requires OnlyDrained(before, after) && OldestOfAll(before, after) && Intact(after, parts) && Takes(parts, kind)
    requires d < n && d < |before| && before[d].user == user
    ensures d < |after| && after[d].Unspent(kind) == before[d].Unspent(kind)
  {
    hide *;
    OnlyLess(before, after, kind, d);
    NotNegative(after, d, kind);
    if after[d].Unspent(kind) < before[d].Unspent(kind) {
      var j := TakenFor(parts, kind);
      var l := parts[j].chargeId;
      OwnRow(before, user, parts, n, j, kind);
      OnlyLess(before, after, kind, l);
      IntactRow(after, parts, j, kind);
      if l != d {
        OneIsOlder(before, l, d);
        if Older(before, l, d) {
          OldestRow(before, after, kind, l, d);
        } else {
          SeenOlder(before, user, parts, n, kind, d, j);
          var m := EmptiedBy(parts, d, kind);
          OwnRow(before, user, parts, n, m, kind);
          IntactRow(after, parts, m, kind);
        }
      }
    }
  }

  lemma StaysWaiting(before: seq<ChargeRow>, after: seq<ChargeRow>, p: Pending, n: nat)
    requires RowsOk(before) && RowsOk(after) && OnlyDrained(before, after) && OldestOfAll(before, after) && Waiting(before, p, n)
    ensures Waiting(after, p, n)
  {
    var user, parts := PayerOf(p), PartsOf(p);
    hide OldestOfAll, HoldsAssumed;
    assert NamesOwnRows(after, user, parts, n) && TakesOldest(after, user, parts, n) by {
      NamesStay(before, after, user, parts, n);
    }
    HoldsStay(before, after, user, parts, n, AssumedOf(p));
  }

  lemma NamesStay(before: seq<ChargeRow>, after: seq<ChargeRow>, user: nat, parts: seq<SpendAllocation>, n: nat)
    requires RowsOk(before) && RowsOk(after) && OnlyDrained(before, after)
    requires NamesOwnRows(before, user, parts, n) && TakesOldest(before, user, parts, n)
    ensures NamesOwnRows(after, user, parts, n) && TakesOldest(after, user, parts, n)
  {
    forall kind: Kind, i | 0 <= i < |before| ensures 0 <= after[i].Unspent(kind) <= before[i].Unspent(kind) {
      assert RowOk(after[i]);
      OnlyLess(before, after, kind, i);
    }
    forall kind: Kind, i: nat, j: nat | i < n && j < |parts| && parts[j].chargeId < n
      && after[i].user == user && Take(parts[j], kind) > 0 && Older(after, i, parts[j].chargeId)
      ensures after[i].Unspent(kind) == 0 || Empties(parts, i, kind)
    {
      assert Older(before, i, parts[j].chargeId);
    }
  }

  lemma HoldsStay(before: seq<ChargeRow>, after: seq<ChargeRow>, user: nat, parts: seq<SpendAllocation>, n: nat, assumed: Snapshot)
    requires RowsOk(before) && RowsOk(after) && OnlyDrained(before, after) && OldestOfAll(before, after)
    requires NamesOwnRows(before, user, parts, n) && TakesOldest(before, user, parts, n)
    requires HoldsAssumed(before, user, parts, n, assumed)
    ensures HoldsAssumed(after, user, parts, n, assumed)
  {
    if Intact(after, parts) {
      assert Intact(before, parts) by {
        forall j, kind | 0 <= j < |parts| ensures before[parts[j].chargeId].Unspent(kind) == Assumes(parts[j], kind) {
          OnlyLess(before, after, kind, parts[j].chargeId);
        }
      }
      forall kind | Takes(parts, kind) ensures UsableSum(after[..n], user, kind) == assumed.Part(kind) {
        forall d | 0 <= d < n && before[d].user == user ensures after[d].Unspent(kind) == before[d].Unspent(kind) {
          SeenRowsKept(before, after, user, parts, n, kind, d);
        }
        SamePrefixSum(before, after, user, kind, n);
      }
    }
  }

  // ----- Every interleaving -----

  ghost predicate AllWait(s: System) {
    forall tx :: tx in s.pending ==> exists n: nat :: Waiting(s.ledger.charges, s.pending[tx], n)
  }

  lemma NextTakesOldest(s: System, action: Action)
    requires SystemInv(s) && AllWait(s)
    ensures OldestOfAll(s.ledger.charges, Next(s, action).ledger.charges)
  {
    hide Inv, Execute, Decide, PendingOk, Waiting;
    match action
    case Read(_, _) =>
    case Run(tx) =>
      if tx in s.pending && Execute(s.ledger, s.pending[tx]).Ok? {
        var n: nat :| Waiting(s.ledger.charges, s.pending[tx], n);
        CommitTakesOldest(s.ledger, s.pending[tx], n);
      }
    case Abort(_) =>
    case Charge(_, _, _, _) =>
  }

  lemma NextWaits(s: System, action: Action)
    requires SystemInv(s) && AllWait(s)
    ensures AllWait(Next(s, action))
  {
    hide Inv, Execute, Decide, PendingOk, Waiting, PlanCharge, ApplyCharge, OldestOfAll, OnlyDrained;
    NextTakesOldest(s, action);
    NextKeeps(s, action);
    var t := Next(s, action);
    RowsOfInv(s.ledger);
    RowsOfInv(t.ledger);
    forall tx | tx in t.pending ensures exists n: nat :: Waiting(t.ledger.charges, t.pending[tx], n) {
      if tx in s.pending && t.pending[tx] == s.pending[tx] {
        var n: nat :| Waiting(s.ledger.charges, s.pending[tx], n);
        StaysWaiting(s.ledger.charges, t.ledger.charges, s.pending[tx], n);
      } else {
        DecidedWaits(s.ledger, action.request);
      }
    }
  }

  lemma {:induction false} AllStayWaiting(s: System, actions: seq<Action>)
    requires SystemInv(s) && AllWait(s)
    ensures AllWait(RunAll(s, actions))
    decreases |actions|
  {
    hide SystemInv, AllWait, Next;
    if actions != [] {
      NextKeeps(s, actions[0]);
      NextWaits(s, actions[0]);
      AllStayWaiting(Next(s, actions[0]), actions[1..]);
    }
  }

  /**
   In every interleaving, with charges of any instant arriving at any time: whichever step takes points of a kind from
   a charge, by a spend, a transfer or a sweep, fresh or stale, leaves nothing of that kind in any older charge of the
   same user.
   */
  lemma EveryStepTakesOldest(actions: seq<Action>, action: Action, kind: Kind, i: nat, j: nat)
    requires var rows := RunAll(EMPTY, actions).ledger.charges;
             && i < |rows| && j < |rows| && rows[i].user == rows[j].user
             && (rows[i].chargedAt < rows[j].chargedAt || (rows[i].chargedAt == rows[j].chargedAt && i < j))
    ensures var s := RunAll(EMPTY, actions);
            var t := Next(s, action);
            |s.ledger.charges| <= |t.ledger.charges|
            && (t.ledger.charges[j].Unspent(kind) < s.ledger.charges[j].Unspent(kind) ==> t.ledger.charges[i].Unspent(kind) == 0)
  {
    hide SystemInv, AllWait, Next;
    EmptyOk();
    EmptyWaits();
    RunAllKeeps(EMPTY, actions);
    AllStayWaiting(EMPTY, actions);
    NextTakesOldest(RunAll(EMPTY, actions), action);
  }

  lemma EmptyWaits()
    ensures AllWait(EMPTY)
  {
  }
}
