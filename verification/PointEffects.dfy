/** What committed point transactions leave in the tables, row by row and user by user. */
module PointEffects {
  import opened Prelude
  import opened Waterfall
  import opened KstTime
  import opened FifoOrder
  import opened PointCore
  import opened SpendLaws
  import opened PointLedger
  import opened PointInvariant
  import opened FifoOptimality
  import opened PointConcurrency
  import S = SpendAdditivity

  // Nothing here is said through the functions that decide or write a plan: a transaction is described by the
  // rows and balances before and after it.

  // ----- The effects -----

  /** A row a spend drew on, or left alone: only the spender's USABLE rows lose points, and an emptied one is CONSUMED. */
  ghost predicate DrawnOn(before: ChargeRow, after: ChargeRow, user: nat) {
    after == before
    || (&& before.user == user && before.state == USABLE
        && 0 <= after.unspentPaid <= before.unspentPaid && 0 <= after.unspentFree <= before.unspentFree
        && after == before.(unspentPaid := after.unspentPaid, unspentFree := after.unspentFree,
                            state := if after.unspentPaid + after.unspentFree == 0 then CONSUMED else USABLE))
  }

  /** How an amount splits into kinds, given what the payer holds. */
  ghost predicate Splits(balance: Snapshot, amount: int, preferFree: bool, paid: int, free: int) {
    && paid + free == amount && 0 <= paid <= balance.paid && 0 <= free <= balance.free
    && if preferFree then free == Min(amount, balance.free) else paid == Min(amount, balance.paid)
  }

  /** Every user's balance is the old one, less what they paid, plus what they were paid. */
  ghost predicate Moved(before: map<nat, Snapshot>, after: map<nat, Snapshot>, payer: nat, payee: Option<nat>,
                        paid: int, free: int)
  {
    forall user: nat ::
      var was := BalanceOf(before, user);
      var times := (if Some(user) == payee then 1 else 0) - (if user == payer then 1 else 0);
      BalanceOf(after, user) == Snapshot(was.paid + times * paid, was.free + times * free, was.total + times * (paid + free))
  }

  ghost predicate Spent(before: Ledger, after: Ledger, user: nat, amount: int, reason: Reason, preferFree: bool) {
    && |after.charges| == |before.charges|
    && (forall i :: 0 <= i < |before.charges| ==> DrawnOn(before.charges[i], after.charges[i], user))
    && exists paid, free :: SpentAs(before, after, user, amount, reason, preferFree, paid, free)
  }

  ghost predicate SpentAs(before: Ledger, after: Ledger, user: nat, amount: int, reason: Reason, preferFree: bool,
                          paid: int, free: int)
  {
    && Splits(BalanceOf(before.balances, user), amount, preferFree, paid, free)
    && Moved(before.balances, after.balances, user, None, paid, free)
    && after.spends == before.spends + [SpendRow(user, paid, free, amount, reason)]
    && after.removals == before.removals
  }

  /** One new charge of the receiver's, holding exactly what the sender's charges and balance lost. */
  ghost predicate Transferred(before: Ledger, after: Ledger, fromUser: nat, toUser: nat, amount: int, now: Instant,
                              preferFree: bool)
  {
    && |after.charges| == |before.charges| + 1
    && (forall i :: 0 <= i < |before.charges| ==> DrawnOn(before.charges[i], after.charges[i], fromUser))
    && var gift := after.charges[|before.charges|];
       && gift == ChargeRow(toUser, USABLE, gift.paid, gift.free, gift.paid, gift.free, now, None)
       && Splits(BalanceOf(before.balances, fromUser), amount, preferFree, gift.paid, gift.free)
       && Moved(before.balances, after.balances, fromUser, Some(toUser), gift.paid, gift.free)
       && after.spends == before.spends + [SpendRow(fromUser, gift.paid, gift.free, amount, TransferTo(toUser))]
       && after.removals == before.removals
  }

  /** A sweep empties some of the user's USABLE rows, each past the 365th day after its own. */
  ghost predicate SweptOrKept(before: ChargeRow, after: ChargeRow, user: nat, now: Instant) {
    after == before
    || (&& before.user == user && before.state == USABLE && KstDay(now + 1) > KstDay(before.chargedAt) + 365
        && after == before.(state := EXPIRED, unspentPaid := 0, unspentFree := 0, expiredAt := Some(now)))
  }

  ghost predicate Swept(before: Ledger, after: Ledger, user: nat, now: Instant) {
    && |after.charges| == |before.charges| && after.spends == before.spends
    && (forall i :: 0 <= i < |before.charges| ==> SweptOrKept(before.charges[i], after.charges[i], user, now))
    && forall other: nat :: other != user ==> BalanceOf(after.balances, other) == BalanceOf(before.balances, other)
  }

  ghost predicate Effect(before: Ledger, after: Ledger, request: Request) {
    match request
    case SpendPoints(user, amount, reason) => Spent(before, after, user, amount, Given(reason), false)
    case TransferPoints(fromUser, toUser, amount, now, preferFree) =>
      Transferred(before, after, fromUser, toUser, amount, now, preferFree)
    case ExpirePoints(user, now) => Swept(before, after, user, now)
  }

  // ----- What a plan remembers of its request -----

  ghost predicate PlannedSpend(plan: SpendPlan, amount: int, preferFree: bool) {
    Splits(plan.assumed, amount, preferFree, plan.paidUsage, plan.freeUsage)
  }

  ghost predicate PlannedSweep(rows: seq<ChargeRow>, expirations: seq<Expiration>, now: Instant) {
    forall j :: 0 <= j < |expirations| ==>
      expirations[j].chargeId < |rows| && KstDay(now + 1) > KstDay(rows[expirations[j].chargeId].chargedAt) + 365
  }

  ghost predicate PlannedFor(rows: seq<ChargeRow>, p: Pending, request: Request) {
    match request
    case SpendPoints(user, amount, reason) =>
      p.PendingSpend? && p.user == user && p.reason == Given(reason) && PlannedSpend(p.spend, amount, false)
    case TransferPoints(fromUser, toUser, amount, now, preferFree) =>
      && p.PendingTransfer? && p.fromUser == fromUser && p.toUser == toUser
      && PlannedSpend(p.transfer.spend, amount, preferFree) && p.transfer.charge.chargedAt == now
    case ExpirePoints(user, now) =>
      p.PendingExpiry? && p.user == user && p.expiry.expiredAt == now && PlannedSweep(rows, p.expiry.expirations, now)
  }

  lemma DecidedSplits(ledger: Ledger, user: nat, amount: int, preferFree: bool)
    requires Inv(ledger)
    ensures var r := SpendDecision(BalanceOf(ledger.balances, user), LoadCharges(ledger.charges, user), amount, preferFree);
            r.Ok? ==> PlannedSpend(r.value, amount, preferFree)
  {
    LoadedCharges(ledger.charges, user);
    LoadedSum(ledger.charges, user);
    var charges, balance := LoadCharges(ledger.charges, user), BalanceOf(ledger.balances, user);
    SpendSucceedsIffCovered(balance, charges, amount, preferFree);
    if 0 < amount <= balance.total {
      SpendClosedForm(balance, charges, amount, preferFree);
    }
  }

  lemma DecidedFor(ledger: Ledger, request: Request)
    requires Inv(ledger) && Decide(ledger, request).Ok?
    ensures PlannedFor(ledger.charges, Decide(ledger, request).value, request)
  {
    match request
    case SpendPoints(user, amount, _) => DecidedSplits(ledger, user, amount, false);
    case TransferPoints(fromUser, _, amount, _, preferFree) => DecidedSplits(ledger, fromUser, amount, preferFree);
    case ExpirePoints(user, now) =>
      var charges := LoadExpirable(ledger.charges, user);
      var due := DueExpirations(charges, now);
      FifoKeysAre(ledger.charges, user);
      forall j | 0 <= j < |due|
        ensures due[j].chargeId < |ledger.charges|
        ensures KstDay(now + 1) > KstDay(ledger.charges[due[j].chargeId].chargedAt) + 365
      {
        var k := DueFrom(charges, now, j);
        assert FifoKeys(ledger.charges, user)[k] in FifoKeys(ledger.charges, user);
        DueIffYearPassed(charges[k].chargedAt, now);
      }
  }

  lemma StaysPlanned(before: seq<ChargeRow>, after: seq<ChargeRow>, p: Pending, request: Request)
    requires OnlyDrained(before, after) && PlannedFor(before, p, request)
    ensures PlannedFor(after, p, request)
  {
  }

  // ----- Executing a plan has its request's effect -----

  lemma {:induction false} ConsumedRows(rows: seq<ChargeRow>, user: nat, allocations: seq<SpendAllocation>, i: nat)
    requires RowsOk(rows) && OwnedParts(rows, user, allocations) && i < |rows|
    requires ConsumeAll(rows, allocations).Some?
    ensures var after := ConsumeAll(rows, allocations).value;
            |after| == |rows| && DrawnOn(rows[i], after[i], user)
    decreases |allocations|
  {
    if allocations != [] {
      var a := allocations[0];
      ConsumedRows(rows[a.chargeId := Consume(rows[a.chargeId], a)], user, allocations[1..], i);
    }
  }

  lemma {:induction false} SweptRows(rows: seq<ChargeRow>, user: nat, expirations: seq<Expiration>, now: Instant, i: nat)
    requires OwnedExpirations(rows, user, expirations) && PlannedSweep(rows, expirations, now) && i < |rows|
    requires SweepAll(rows, expirations, now).Some?
    ensures var after := SweepAll(rows, expirations, now).value;
            |after| == |rows| && SweptOrKept(rows[i], after[i], user, now)
    decreases |expirations|
  {
    if expirations != [] {
      var e := expirations[0];
      SweptRows(rows[e.chargeId := SweepRow(rows[e.chargeId], now)], user, expirations[1..], now, i);
    }
  }

  lemma SpendHasEffect(ledger: Ledger, user: nat, reason: Reason, plan: SpendPlan, amount: int, preferFree: bool)
    requires Inv(ledger) && SpendPlanOk(ledger.charges, user, plan) && PlannedSpend(plan, amount, preferFree)
    requires ApplySpend(ledger, user, reason, plan).Ok?
    ensures var after := ApplySpend(ledger, user, reason, plan).value;
            Spent(ledger, after, user, amount, reason, preferFree)
            && SpentAs(ledger, after, user, amount, reason, preferFree, plan.paidUsage, plan.freeUsage)
  {
    hide Inv, OwnedParts, DistinctParts, ConsumeAll, DrawnOn;
    var after := ApplySpend(ledger, user, reason, plan).value;
    RowsOfInv(ledger);
    ConsumeAllKeeps(ledger.charges, user, plan.allocations);
    forall i | 0 <= i < |ledger.charges| ensures DrawnOn(ledger.charges[i], after.charges[i], user) {
      ConsumedRows(ledger.charges, user, plan.allocations, i);
    }
    assert BalanceOf(ledger.balances, user) == plan.assumed;
    assert SpentAs(ledger, after, user, amount, reason, preferFree, plan.paidUsage, plan.freeUsage);
  }

  lemma RowsOfInv(ledger: Ledger)
    requires Inv(ledger)
    ensures RowsOk(ledger.charges)
  {
  }

  lemma TransferHasEffect(ledger: Ledger, fromUser: nat, toUser: nat, plan: TransferPlan, amount: int, preferFree: bool)
    requires Inv(ledger) && PendingOk(ledger.charges, PendingTransfer(fromUser, toUser, plan))
    requires PlannedSpend(plan.spend, amount, preferFree)
    requires ApplyTransfer(ledger, fromUser, toUser, plan).Ok?
    ensures Transferred(ledger, ApplyTransfer(ledger, fromUser, toUser, plan).value, fromUser, toUser, amount,
                        plan.charge.chargedAt, preferFree)
  {
    hide Inv, OwnedParts, DistinctParts, ApplySpend, DrawnOn;
    SpendHasEffect(ledger, fromUser, TransferTo(toUser), plan.spend, amount, preferFree);
    var spent := ApplySpend(ledger, fromUser, TransferTo(toUser), plan.spend).value;
    var after := ApplyTransfer(ledger, fromUser, toUser, plan).value;
    assert after.charges[..|ledger.charges|] == spent.charges;
    forall i | 0 <= i < |ledger.charges| ensures DrawnOn(ledger.charges[i], after.charges[i], fromUser) {
      assert after.charges[i] == spent.charges[i];
    }
  }

  lemma SweepHasEffect(ledger: Ledger, user: nat, plan: ExpiryPlan, now: Instant)
    requires Inv(ledger) && ExpiryPlanOk(ledger.charges, user, plan)
    requires plan.expiredAt == now && PlannedSweep(ledger.charges, plan.expirations, now)
    requires ApplyExpiry(ledger, user, plan).Ok?
    ensures Swept(ledger, ApplyExpiry(ledger, user, plan).value, user, now)
  {
    hide OwnedExpirations, DistinctExpirations, PlannedSweep, SweepAll, SweptOrKept, Inv;
    var after := ApplyExpiry(ledger, user, plan).value;
    if plan.expirations == [] {
      forall i | 0 <= i < |ledger.charges| ensures SweptOrKept(ledger.charges[i], after.charges[i], user, now) {
        KeptRow(ledger.charges[i], user, now);
      }
    } else {
      RowsOfInv(ledger);
      SweepAllKeeps(ledger.charges, user, plan.expirations, now);
      forall i | 0 <= i < |ledger.charges| ensures SweptOrKept(ledger.charges[i], after.charges[i], user, now) {
        SweptRows(ledger.charges, user, plan.expirations, now, i);
      }
    }
  }

  lemma KeptRow(row: ChargeRow, user: nat, now: Instant)
    ensures SweptOrKept(row, row, user, now)
  {
  }

  lemma ExecuteHasEffect(ledger: Ledger, p: Pending, request: Request)
    requires Inv(ledger) && PendingOk(ledger.charges, p) && PlannedFor(ledger.charges, p, request)
    requires Execute(ledger, p).Ok?
    ensures Effect(ledger, Execute(ledger, p).value, request)
  {
    hide Inv, ApplySpend, ApplyTransfer, ApplyExpiry, SpendPlanOk, ExpiryPlanOk, PlannedSpend, PlannedSweep, Spent, Transferred, Swept;
    match request
    case SpendPoints(user, amount, reason) => SpendHasEffect(ledger, user, Given(reason), p.spend, amount, false);
    case TransferPoints(fromUser, toUser, amount, _, preferFree) =>
      TransferHasEffect(ledger, fromUser, toUser, p.transfer, amount, preferFree);
    case ExpirePoints(user, now) => SweepHasEffect(ledger, user, p.expiry, now);
  }

  // ----- In every interleaving -----

  /** Whether an action belongs to a transaction. */
  ghost predicate Concerns(action: Action, tx: nat) {
    match action
    case Read(t, _) => t == tx
    case Run(t) => t == tx
    case Abort(t) => t == tx
    case Charge(_, _, _, _) => false
  }

  lemma {:induction false} PlanWaits(s: System, actions: seq<Action>, tx: nat)
    requires forall i :: 0 <= i < |actions| ==> !Concerns(actions[i], tx)
    ensures tx in RunAll(s, actions).pending <==> tx in s.pending
    ensures tx in s.pending ==> RunAll(s, actions).pending[tx] == s.pending[tx]
    decreases |actions|
  {
    if actions != [] {
      hide Decide, Execute, ApplyCharge, PlanCharge;
      PlanWaits(Next(s, actions[0]), actions[1..], tx);
    }
  }

  /**
   However the actions of others fall between the read of a transaction and its run, the run either changes
   nothing or has exactly the effect of the request that was read, on the ledger it then finds: a transfer's
   receiver is credited in each kind with what the sender paid in it, and nobody else's balance moves.
   */
  lemma InterleavedEffect(before: seq<Action>, tx: nat, request: Request, between: seq<Action>)
    requires tx !in RunAll(EMPTY, before).pending
    requires forall i :: 0 <= i < |between| ==> !Concerns(between[i], tx)
    ensures var s := RunAll(Next(RunAll(EMPTY, before), Read(tx, request)), between);
            var t := Next(s, Run(tx));
            t.ledger == s.ledger || Effect(s.ledger, t.ledger, request)
  {
    hide Decide, Execute, Inv, PendingOk, PlannedFor, Effect, OnlyDrained;
    EmptyOk();
    RunAllKeeps(EMPTY, before);
    var r := RunAll(EMPTY, before);
    var read := Next(r, Read(tx, request));
    NextKeeps(r, Read(tx, request));
    RunAllKeeps(read, between);
    PlanWaits(read, between, tx);
    var s := RunAll(read, between);
    if tx in s.pending && Execute(s.ledger, s.pending[tx]).Ok? {
      assert Decide(r.ledger, request).Ok?;
      DecidedFor(r.ledger, request);
      StaysPlanned(r.ledger.charges, s.ledger.charges, s.pending[tx], request);
      ExecuteHasEffect(s.ledger, s.pending[tx], request);
    }
  }

  // ----- Oldest first, when a spend runs alone -----

  /** Of two USABLE charges of the user, the later one is touched only when nothing of the kind is left in the earlier. */
  ghost predicate OldestFirst(before: seq<ChargeRow>, after: seq<ChargeRow>, user: nat) {
    |before| <= |after|
    && forall kind: Kind, i: nat, j: nat | i < |before| && j < |before| ::
         && before[i].user == user && before[i].state == USABLE && before[j].user == user && before[j].state == USABLE
         && (before[i].chargedAt < before[j].chargedAt || (before[i].chargedAt == before[j].chargedAt && i < j))
         && after[j].Unspent(kind) < before[j].Unspent(kind)
         ==> after[i].Unspent(kind) == 0
  }

  lemma PositionOf(rows: seq<ChargeRow>, user: nat, i: nat) returns (k: nat)
    requires i < |rows| && UsableBy(rows[i], user)
    ensures k < |FifoKeys(rows, user)| && FifoKeys(rows, user)[k] == Key(rows[i].chargedAt, i)
  {
    FifoKeysAre(rows, user);
    assert Key(rows[i].chargedAt, i) in FifoKeys(rows, user);
    k :| 0 <= k < |FifoKeys(rows, user)| && FifoKeys(rows, user)[k] == Key(rows[i].chargedAt, i);
  }

  lemma PositionsInOrder(rows: seq<ChargeRow>, user: nat, i: nat, j: nat) returns (k: nat, l: nat)
    requires i < |rows| && j < |rows| && UsableBy(rows[i], user) && UsableBy(rows[j], user)
    requires rows[i].chargedAt < rows[j].chargedAt || (rows[i].chargedAt == rows[j].chargedAt && i < j)
    ensures k < l < |FifoKeys(rows, user)|
    ensures FifoKeys(rows, user)[k].id == i && FifoKeys(rows, user)[l].id == j
  {
    k := PositionOf(rows, user, i);
    l := PositionOf(rows, user, j);
    FifoKeysAre(rows, user);
  }

  lemma SpendNowOldestFirst(ledger: Ledger, user: nat, reason: Reason, amount: int, preferFree: bool)
    requires Inv(ledger) && S.SpendNow(ledger, user, reason, amount, preferFree).Ok?
    ensures OldestFirst(ledger.charges, S.SpendNow(ledger, user, reason, amount, preferFree).value.charges, user)
  {
    S.SpendNowCommits(ledger, user, reason, amount, preferFree);
    S.SpendNowKeeps(ledger, user, reason, amount, preferFree);
    var before, after := ledger.charges, S.SpendNow(ledger, user, reason, amount, preferFree).value.charges;
    forall kind: Kind, i: nat, j: nat | i < |before| && j < |before|
      && before[i].user == user && before[i].state == USABLE && before[j].user == user && before[j].state == USABLE
      && (before[i].chargedAt < before[j].chargedAt || (before[i].chargedAt == before[j].chargedAt && i < j))
      && after[j].Unspent(kind) < before[j].Unspent(kind)
      ensures after[i].Unspent(kind) == 0
    {
      EarlierIsEmptied(ledger, user, reason, amount, preferFree, kind, i, j);
    }
  }

  lemma EarlierIsEmptied(ledger: Ledger, user: nat, reason: Reason, amount: int, preferFree: bool, kind: Kind, i: nat, j: nat)
    requires Inv(ledger) && 0 < amount <= BalanceOf(ledger.balances, user).total
    requires i < |ledger.charges| && j < |ledger.charges|
    requires UsableBy(ledger.charges[i], user) && UsableBy(ledger.charges[j], user)
    requires var rows := ledger.charges;
             rows[i].chargedAt < rows[j].chargedAt || (rows[i].chargedAt == rows[j].chargedAt && i < j)
    requires var r := S.SpendNow(ledger, user, reason, amount, preferFree);
             r.Ok? && |r.value.charges| == |ledger.charges|
             && r.value.charges[j].Unspent(kind) < ledger.charges[j].Unspent(kind)
    ensures S.SpendNow(ledger, user, reason, amount, preferFree).value.charges[i].Unspent(kind) == 0
  {
    hide Inv, Pour, S.SpendNow;
    var k, l := PositionsInOrder(ledger.charges, user, i, j);
    S.SpendNowRow(ledger, user, reason, amount, preferFree, i);
    S.SpendNowRow(ledger, user, reason, amount, preferFree, j);
    S.TakenAt(ledger, user, amount, preferFree, k, kind);
    S.TakenAt(ledger, user, amount, preferFree, l, kind);
    RowsOfInv(ledger);
    LoadedCharges(ledger.charges, user);
    var r := SpendDecision(BalanceOf(ledger.balances, user), LoadCharges(ledger.charges, user), amount, preferFree);
    PourFillsInOrder(Caps(LoadCharges(ledger.charges, user), kind), Usage(r.value, kind), k, l);
  }
}
