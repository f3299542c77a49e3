/**
 What a decision to proceed guarantees about the plan and the state it was decided on.

 A `...Ready` predicate collects, for one kind of request, every check that has passed when a plan comes out:
 the key and the subject are new, the product rows are in their initial states, the account is the right
 holder's, and the allocations fit the lots and add up to the amount.
 */
module LedgerPlans {
  import opened Prelude
  import opened ReservationPlans
  import opened LedgerTables
  import opened LotQueue
  import opened LedgerUseCases
  import opened LedgerInvariant

  /** Neither the key nor the subject has been used. */
  ghost predicate NewCommand(db: Db, r: Request) {
    && FindCommand(db, r.actor, KindOf(r), r.key).None?
    && (SubjectOf(r).Some? ==> FindCompleted(db, FlowKindOf(KindOf(r)), KindOf(r), SubjectOf(r).value).None?)
  }

  ghost predicate SpendableAccount(db: Db, account: nat, holder: nat, currency: Currency) {
    account < |db.accounts| && db.accounts[account] == Account(currency, AvailableAccount, HolderOwner(holder))
  }

  ghost predicate Funds(db: Db, account: nat, currency: Currency, allocations: seq<Allocation>, amount: int) {
    amount > 0 && PlannedOn(db.lots, account, currency, allocations) && Total(Amounts(allocations)) == amount
  }

  ghost predicate ChargeReady(db: Db, r: Request, plan: Plan) {
    && r.ChargeRequest? && plan.ChargePlan? && NewCommand(db, r)
    && 0 < r.amount <= MAX_SAFE_INTEGER && r.externalPaymentId != "" && r.key != ""
    && IssuedTo(db, plan.account, r.actor)
  }

  ghost predicate CheckoutReady(db: Db, r: Request, plan: Plan) {
    && r.CheckoutRequest? && plan.CheckoutPlan? && NewCommand(db, r)
    && r.payment < |db.payments| && db.payments[r.payment].order == plan.order < |db.orders|
    && var payment, order := db.payments[r.payment], db.orders[plan.order];
       && plan.flow == payment.flow == order.flow && plan.slot == order.slot < |db.slots|
       && order.commissionType < |db.types|
       && Payable(order, payment, db.types[order.commissionType], db.slots[plan.slot])
       && plan.buyer == order.buyer == r.actor && plan.worker == db.types[order.commissionType].worker
       && plan.holder < |db.holders| && db.holders[plan.holder] == UserBinding(order.buyer)
       && plan.amount == payment.amount
       && SpendableAccount(db, plan.account, plan.holder, POINT)
       && Funds(db, plan.account, POINT, plan.allocations, plan.amount)
  }

  ghost predicate SettleReady(db: Db, r: Request, plan: Plan) {
    && r.SettleRequest? && plan.SettlePlan? && NewCommand(db, r)
    && r.contract < |db.contracts| && r.contract < |db.links|
    && plan.flow == db.contracts[r.contract].flow && db.contracts[r.contract].worker == r.actor
    && plan.reservation == db.links[r.contract].reservation < |db.reservations|
    && db.reservations[plan.reservation].state == HELD
    && plan.amount == db.reservations[plan.reservation].target > 0
    && SpendableAccount(db, plan.available, plan.beneficiary, INCOME)
    && FindHolder(db, UserBinding(r.actor)) == Some(plan.beneficiary)
  }

  ghost predicate WithdrawReady(db: Db, r: Request, plan: Plan) {
    && r.WithdrawRequest? && plan.WithdrawPlan? && NewCommand(db, r)
    && SpendableAccount(db, plan.account, plan.holder, INCOME)
    && Funds(db, plan.account, INCOME, plan.allocations, r.amount)
  }

  lemma ChargeDecided(db: Db, r: Request, holder: nat)
    requires r.ChargeRequest? && FindHolder(db, UserBinding(r.actor)) == Some(holder) && DecideCharge(db, r, holder).Proceed?
    ensures ChargeReady(db, r, DecideCharge(db, r, holder).plan)
    ensures SpendableAccount(db, DecideCharge(db, r, holder).plan.account, holder, POINT)
  {
  }

  lemma FundsPlanned(db: Db, account: nat, currency: Currency, amount: int)
    requires PlanDraws(LoadLots(db.lots, account, currency), amount).Ok?
    ensures Funds(db, account, currency, PlanDraws(LoadLots(db.lots, account, currency), amount).value, amount)
  {
    PlanIsWaterfall(LoadLots(db.lots, account, currency), amount);
    PlanIsFresh(db.lots, account, currency, amount);
  }

  lemma CheckoutDecided(db: Db, r: Request, targets: Targets)
    requires r.CheckoutRequest? && targets.CheckoutTargets? && DecideCheckout(db, r, targets).Proceed?
    ensures CheckoutReady(db, r, DecideCheckout(db, r, targets).plan)
    ensures DecideCheckout(db, r, targets).plan.holder == targets.holder
            && DecideCheckout(db, r, targets).plan.slot == targets.slot
  {
    var plan := DecideCheckout(db, r, targets).plan;
    FundsPlanned(db, plan.account, POINT, plan.amount);
  }

  lemma WithdrawDecided(db: Db, r: Request, holder: nat)
    requires r.WithdrawRequest? && DecideWithdraw(db, r, holder).Proceed?
    ensures WithdrawReady(db, r, DecideWithdraw(db, r, holder).plan)
    ensures DecideWithdraw(db, r, holder).plan.holder == holder
  {
    var plan := DecideWithdraw(db, r, holder).plan;
    FundsPlanned(db, plan.account, INCOME, r.amount);
  }

  /** The first PAID payment of a contract's order and its link are the ones its checkout wrote. */
  lemma PaidOrderIsLinked(db: Db, k: nat)
    requires ProductInv(db) && k < |db.contracts|
    ensures LoadPaidOrder(db, db.contracts[k]) == Some((db.links[k].payment, k))
  {
    var c := db.contracts[k];
    assert Formed(db, k);
    var p0 := db.links[k].payment;
    var found := FindPaidPayment(db, c.order);
    assert found.Some?;
    var p := found.value;
    assert HasLink(db, p);
    var l :| 0 <= l < |db.links| && db.links[l].payment == p;
    assert Formed(db, l);
    assert db.contracts[l].order == db.payments[p].order == c.order;
    assert l == k;
    LinkUnique(db, k);
  }

  lemma LinkUnique(db: Db, k: nat)
    requires FormedDistinct(db) && k < |db.links|
    ensures FindLink(db, db.links[k].payment) == Some(k)
  {
    FirstIs(db.links, (l: Link) => l.payment == db.links[k].payment, k);
  }

  lemma SettleDecided(db: Db, r: Request, targets: Targets)
    requires ProductInv(db)
    requires r.SettleRequest? && targets.SettleTargets? && DecideSettle(db, r, targets).Proceed?
    ensures SettleReady(db, r, DecideSettle(db, r, targets).plan)
    ensures DecideSettle(db, r, targets).plan.beneficiary == targets.holder
  {
    PaidOrderIsLinked(db, r.contract);
  }

  ghost predicate Ready(db: Db, r: Request, plan: Plan) {
    match r
    case ChargeRequest(_, _, _, _) => ChargeReady(db, r, plan)
    case CheckoutRequest(_, _, _) => CheckoutReady(db, r, plan)
    case SettleRequest(_, _, _) => SettleReady(db, r, plan)
    case WithdrawRequest(_, _, _) => WithdrawReady(db, r, plan)
  }

  lemma Decided(db: Db, r: Request, targets: Targets)
    requires ProductInv(db) && Prepared(db, r, targets) && Matching(r, targets) && Decide(db, r, targets).Proceed?
    ensures Ready(db, r, Decide(db, r, targets).plan)
  {
    match r
    case ChargeRequest(_, _, _, _) => ChargeDecided(db, r, targets.holder);
    case CheckoutRequest(_, _, _) => CheckoutDecided(db, r, targets);
    case SettleRequest(_, _, _) => SettleDecided(db, r, targets);
    case WithdrawRequest(_, _, _) => WithdrawDecided(db, r, targets.holder);
  }
}
