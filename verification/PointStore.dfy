/**
 The point module as it runs: executors that update charge, balance and spend rows in place, and the
 use-cases that wrap them in a transaction.
 */
module PointStoreModule {
  import opened Prelude
  import opened KstTime
  import opened PointCore
  import opened SpendLaws
  import opened PointLedger
  import opened PointInvariant
  import opened PointConcurrency
  import opened SpendAdditivity
  import opened ExpiryLaws
  import opened PointEffects

  class PointStore {
    var charges: seq<ChargeRow>
    var balances: map<nat, Snapshot>
    var spends: seq<SpendRow>
    ghost var removals: seq<Removal>

    ghost function View(): Ledger
      reads this
    {
      Ledger(charges, balances, spends, removals)
    }

    constructor ()
      ensures View() == EMPTY.ledger
    {
      charges, balances, spends, removals := [], map[], [], [];
    }

    // ----- Executors (point.write.repo.ts): a miss is an error, with writes already made -----

    method ApplySpendPlan(user: nat, reason: Reason, plan: SpendPlan) returns (r: Result<SpendRow, PointError>)
      modifies this
      ensures r.Ok? <==> ApplySpend(old(View()), user, reason, plan).Ok?
      ensures r.Ok? ==> View() == ApplySpend(old(View()), user, reason, plan).value && r.value == spends[|spends| - 1]
      ensures r.Ok? ==> |charges| == |old(charges)|
      ensures r.Err? ==> r.error == ConcurrentUpdate
    {
      var i := 0;
      while i < |plan.allocations|
        invariant 0 <= i <= |plan.allocations| && |charges| == |old(charges)|
        invariant balances == old(balances) && spends == old(spends) && removals == old(removals)
        invariant ConsumeAll(old(charges), plan.allocations) == ConsumeAll(charges, plan.allocations[i..])
      {
        var a := plan.allocations[i];
        assert plan.allocations[i..][1..] == plan.allocations[i + 1..];
        if !GuardHolds(charges, a.chargeId, a.assumedPaid, a.assumedFree) {
          return Err(ConcurrentUpdate);
        }
        charges := charges[a.chargeId := Consume(charges[a.chargeId], a)];
        i := i + 1;
      }
      if !(user in balances && balances[user] == plan.assumed) {
        return Err(ConcurrentUpdate);
      }
      balances := balances[user := plan.after];
      var row := SpendRow(user, plan.paidUsage, plan.freeUsage, plan.paidUsage + plan.freeUsage, reason);
      spends := spends + [row];
      return Ok(row);
    }

    method ApplyChargePlan(user: nat, plan: ChargePlan) returns (id: nat)
      modifies this
      ensures View() == ApplyCharge(old(View()), user, plan)
      ensures id == |old(charges)| && charges[id] == NewCharge(user, plan)
    {
      id := |charges|;
      charges := charges + [ChargeRow(user, USABLE, plan.paid, plan.free, plan.paid, plan.free, plan.chargedAt, None)];
      if user in balances {
        var b := balances[user];
        balances := balances[user := Snapshot(b.paid + plan.paid, b.free + plan.free, b.total + plan.total)];
      } else {
        balances := balances[user := Snapshot(plan.paid, plan.free, plan.total)];
      }
    }

    method ApplyTransferPlan(fromUser: nat, toUser: nat, plan: TransferPlan) returns (r: Result<SpendRow, PointError>)
      modifies this
      ensures r.Ok? <==> ApplyTransfer(old(View()), fromUser, toUser, plan).Ok?
      ensures r.Ok? ==> View() == ApplyTransfer(old(View()), fromUser, toUser, plan).value
                        && r.value == SpendRow(fromUser, plan.spend.paidUsage, plan.spend.freeUsage,
                                               plan.spend.paidUsage + plan.spend.freeUsage, TransferTo(toUser))
      ensures r.Ok? ==>
                && |charges| == |old(charges)| + 1
                && charges[|old(charges)|] == ChargeRow(toUser, USABLE, plan.charge.paid, plan.charge.free, plan.charge.paid,
                                                        plan.charge.free, plan.charge.chargedAt, None)
                && forall user: nat :: user != fromUser && user != toUser ==>
                     BalanceOf(balances, user) == BalanceOf(old(balances), user)
      ensures r.Ok? && fromUser != toUser ==>
                && BalanceOf(old(balances), fromUser) == plan.spend.assumed && BalanceOf(balances, fromUser) == plan.spend.after
                && var was := BalanceOf(old(balances), toUser);
                   BalanceOf(balances, toUser) == Snapshot(was.paid + plan.charge.paid, was.free + plan.charge.free,
                                                           was.total + plan.charge.total)
      ensures r.Err? ==> r.error == ConcurrentUpdate
    {
      r := ApplySpendPlan(fromUser, TransferTo(toUser), plan.spend);
      if r.Ok? {
        var _ := ApplyChargePlan(toUser, plan.charge);
      }
    }

    method ApplyExpiryPlan(user: nat, plan: ExpiryPlan) returns (r: Result<nat, PointError>)
      modifies this
      ensures r.Ok? <==> ApplyExpiry(old(View()), user, plan).Ok?
      ensures r.Ok? ==> View() == ApplyExpiry(old(View()), user, plan).value && r.value == |plan.expirations|
      ensures r.Err? ==> r.error == ConcurrentUpdate
    {
      if |plan.expirations| == 0 {
        return Ok(0);
      }
      var i := 0;
      while i < |plan.expirations|
        invariant 0 <= i <= |plan.expirations|
        invariant balances == old(balances) && spends == old(spends) && removals == old(removals)
        invariant SweepAll(old(charges), plan.expirations, plan.expiredAt)
               == SweepAll(charges, plan.expirations[i..], plan.expiredAt)
      {
        var e := plan.expirations[i];
        assert plan.expirations[i..][1..] == plan.expirations[i + 1..];
        if !GuardHolds(charges, e.chargeId, e.assumedPaid, e.assumedFree) {
          return Err(ConcurrentUpdate);
        }
        charges := charges[e.chargeId := SweepRow(charges[e.chargeId], plan.expiredAt)];
        i := i + 1;
      }
      if !(user in balances && balances[user] == plan.assumed) {
        return Err(ConcurrentUpdate);
      }
      balances := balances[user := plan.after];
      removals := removals + [RemovalOf(user, plan)];
      return Ok(|plan.expirations|);
    }

    // ----- One transaction: a decided plan commits whole or leaves no trace -----

    method Commit(pending: Pending) returns (r: Result<(), PointError>)
      modifies this
      ensures r.Ok? <==> Execute(old(View()), pending).Ok?
      ensures r.Ok? ==> View() == Execute(old(View()), pending).value
      ensures r.Err? ==> View() == old(View()) && r.error == ConcurrentUpdate
    {
      var charges0, balances0, spends0 := charges, balances, spends;
      ghost var removals0 := removals;
      var missed: bool;
      match pending {
        case PendingSpend(user, reason, plan) =>
          var s := ApplySpendPlan(user, reason, plan);
          missed := s.Err?;
        case PendingTransfer(fromUser, toUser, plan) =>
          var s := ApplyTransferPlan(fromUser, toUser, plan);
          missed := s.Err?;
        case PendingExpiry(user, plan) =>
          var n := ApplyExpiryPlan(user, plan);
          missed := n.Err?;
      }
      if missed {
        charges, balances, spends := charges0, balances0, spends0;
        removals := removals0;
        return Err(ConcurrentUpdate);
      }
      return Ok(());
    }

    // ----- Use-cases (point.service.ts) -----

    method Charge(user: nat, paid: int, free: int, now: Instant) returns (r: Result<nat, PointError>)
      requires Inv(View())
      modifies this
      ensures Inv(View())
      ensures r.Ok? <==> paid >= 0 && free >= 0 && paid + free > 0
      ensures r.Ok? ==>
                && r.value == |old(charges)|
                && charges == old(charges) + [ChargeRow(user, USABLE, paid, free, paid, free, now, None)]
                && spends == old(spends) && removals == old(removals)
                && forall other: nat ::
                     var was := BalanceOf(old(balances), other);
                     BalanceOf(balances, other) == if other == user then Snapshot(was.paid + paid, was.free + free, was.total + paid + free)
                                                   else was
      ensures r.Err? ==> View() == old(View())
      ensures r.Err? ==> r.error == AmountNotPositive(if paid < 0 then paid else if free < 0 then free else 0)
    {
      var plan := PlanCharge(paid, free, now);
      if plan.Err? {
        return Err(plan.error);
      }
      ChargeKeeps(View(), user, plan.value);
      var id := ApplyChargePlan(user, plan.value);
      return Ok(id);
    }

    method Spend(user: nat, amount: int, reason: string) returns (r: Result<(), PointError>)
      requires Inv(View())
      modifies this
      ensures Inv(View())
      ensures r.Ok? <==> 0 < amount <= BalanceOf(old(balances), user).total
      ensures r.Ok? ==> Spent(old(View()), View(), user, amount, Given(reason), false)
      ensures r.Ok? ==> OldestFirst(old(charges), charges, user)
      ensures r.Ok? ==> SpendNow(old(View()), user, Given(reason), amount, false) == Ok(View())
      ensures r.Err? ==> View() == old(View())
      ensures r.Err? ==> r.error == if amount <= 0 then AmountNotPositive(amount)
                                    else InsufficientPoint(BalanceOf(old(balances), user).total, amount)
    {
      RefusalReason(View(), user, amount, false);
      SpendNowCommits(View(), user, Given(reason), amount, false);
      var plan := PlanSpend(BalanceOf(balances, user), LoadCharges(charges, user), amount, false);
      if plan.Err? {
        return Err(plan.error);
      }
      DecidedOk(View(), SpendPoints(user, amount, reason));
      DecidedFor(View(), SpendPoints(user, amount, reason));
      SpendNowKeeps(View(), user, Given(reason), amount, false);
      SpendNowOldestFirst(View(), user, Given(reason), amount, false);
      SpendHasEffect(View(), user, Given(reason), plan.value, amount, false);
      r := Commit(PendingSpend(user, Given(reason), plan.value));
    }

    method Expire(user: nat, now: Instant) returns (r: Result<(), PointError>)
      requires Inv(View())
      modifies this
      ensures Inv(View()) && r.Ok?
      ensures SweepNow(old(View()), user, now) == Ok(View())
      ensures |charges| == |old(charges)| && spends == old(spends)
      ensures forall i :: 0 <= i < |charges| ==>
                var was := old(charges)[i];
                charges[i] == if was.user == user && was.state == USABLE && KstDay(now + 1) > KstDay(was.chargedAt) + 365
                              then was.(state := EXPIRED, unspentPaid := 0, unspentFree := 0, expiredAt := Some(now))
                              else was
      ensures forall other: nat :: other != user ==> BalanceOf(balances, other) == BalanceOf(old(balances), other)
    {
      hide Due;
      SweepNowKeeps(View(), user, now);
      forall i | 0 <= i < |charges|
        ensures SweepNow(View(), user, now).value.charges[i] == SweptRow(charges[i], user, now)
        ensures Due(charges[i].chargedAt, now) <==> KstDay(now + 1) > KstDay(charges[i].chargedAt) + 365
      {
        SweepNowRow(View(), user, now, i);
        DueIffYearPassed(charges[i].chargedAt, now);
      }
      var plan := PlanExpiry(BalanceOf(balances, user), LoadExpirable(charges, user), now);
      r := Commit(PendingExpiry(user, plan));
    }

    method Transfer(fromUser: nat, toUser: nat, amount: int, now: Instant, preferFree: bool)
      returns (r: Result<(), PointError>)
      requires Inv(View())
      modifies this
      ensures Inv(View())
      ensures forall kind :: AllUsable(charges, kind) == AllUsable(old(charges), kind)
      ensures r.Ok? <==> fromUser != toUser && 0 < amount <= BalanceOf(old(balances), fromUser).total
      ensures r.Ok? ==> Transferred(old(View()), View(), fromUser, toUser, amount, now, preferFree)
      ensures r.Ok? ==> OldestFirst(old(charges), charges, fromUser)
      ensures r.Err? ==> View() == old(View())
      ensures r.Err? ==> r.error == if fromUser == toUser then TransferToSelf(fromUser)
                                    else if amount <= 0 then AmountNotPositive(amount)
                                    else InsufficientPoint(BalanceOf(old(balances), fromUser).total, amount)
    {
      RefusalReason(View(), fromUser, amount, preferFree);
      SpendNowCommits(View(), fromUser, TransferTo(toUser), amount, preferFree);
      NoDrift(View(), fromUser);
      DecidedSpendOk(charges, fromUser, BalanceOf(balances, fromUser), amount, preferFree);
      var plan := PlanTransfer(fromUser, toUser, BalanceOf(balances, fromUser), LoadCharges(charges, fromUser),
                               amount, now, preferFree);
      if plan.Err? {
        return Err(plan.error);
      }
      ghost var pending := PendingTransfer(fromUser, toUser, plan.value);
      DecidedOk(View(), TransferPoints(fromUser, toUser, amount, now, preferFree));
      if Execute(View(), pending).Ok? {
        ExecuteKeeps(View(), pending);
        TransferConservesEachKind(View(), fromUser, toUser, plan.value, Paid);
        TransferConservesEachKind(View(), fromUser, toUser, plan.value, Free);
        DecidedFor(View(), TransferPoints(fromUser, toUser, amount, now, preferFree));
        TransferHasEffect(View(), fromUser, toUser, plan.value, amount, preferFree);
        SpendNowOldestFirst(View(), fromUser, TransferTo(toUser), amount, preferFree);
      }
      r := Commit(PendingTransfer(fromUser, toUser, plan.value));
    }

    /** The sweep stops at the first user whose stored balance is not the sum of their charges. */
    method VerifyBalances() returns (r: Result<nat, PointError>)
      ensures r.Ok? <==> forall user: nat :: BalanceOf(balances, user) == Summary(charges, user)
      ensures Inv(View()) ==> r.Ok?
    {
      var users := balances.Keys + set c | c in charges && c.state == USABLE :: c.user;
      var todo, checked := users, 0;
      while todo != {}
        invariant todo <= users
        invariant forall user :: user in users && user !in todo ==> BalanceOf(balances, user) == Summary(charges, user)
        decreases todo
      {
        var user :| user in todo;
        var sum := SumUsableBalance(LoadCharges(charges, user));
        LoadedSum(charges, user);
        if BalanceOf(balances, user) != sum {
          return Err(BalanceDrift(user, BalanceOf(balances, user), sum));
        }
        todo := todo - {user};
        checked := checked + 1;
      }
      forall user: nat | user !in users ensures BalanceOf(balances, user) == Summary(charges, user) {
        NoUsableCharge(charges, user, Paid);
        NoUsableCharge(charges, user, Free);
      }
      return Ok(checked);
    }
  }

  /** A spend is refused for its amount before it is refused for the balance. */
  lemma RefusalReason(ledger: Ledger, user: nat, amount: int, preferFree: bool)
    requires Inv(ledger)
    ensures var balance := BalanceOf(ledger.balances, user);
            var r := SpendDecision(balance, LoadCharges(ledger.charges, user), amount, preferFree);
            && (r.Ok? <==> 0 < amount <= balance.total)
            && (amount <= 0 ==> r == Err(AmountNotPositive(amount)))
            && (amount > 0 && amount > balance.total ==> r == Err(InsufficientPoint(balance.total, amount)))
  {
    LoadedCharges(ledger.charges, user);
    LoadedSum(ledger.charges, user);
    SpendSucceedsIffCovered(BalanceOf(ledger.balances, user), LoadCharges(ledger.charges, user), amount, preferFree);
  }

  lemma {:induction false} NoUsableCharge(rows: seq<ChargeRow>, user: nat, kind: Kind)
    requires forall c :: c in rows && c.state == USABLE ==> c.user != user
    ensures UsableSum(rows, user, kind) == 0
  {
    if rows != [] {
      assert rows[|rows| - 1] in rows;
      NoUsableCharge(rows[..|rows| - 1], user, kind);
    }
  }
}
