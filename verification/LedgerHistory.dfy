/**
 What one transaction may do to the tables at all: rows are appended, and existing rows only move
 forward (a remainder falls, a hold settles, an order and its payment are paid, a slot is occupied).
 */
module LedgerHistory {
  import opened ReservationPlans
  import opened LedgerTables
  import opened LotQueue
  import opened LedgerUseCases

  /** Remainders fall, and a new lot says where it came from. */
  ghost predicate LotsMove(before: seq<Lot>, after: seq<Lot>) {
    && |before| <= |after|
    && (forall i :: 0 <= i < |before| ==>
         after[i] == before[i].(remaining := after[i].remaining) && after[i].remaining <= before[i].remaining)
    && forall i :: |before| <= i < |after| ==> after[i].source.Some?
  }

  ghost predicate ReservationsMove(before: seq<Reservation>, after: seq<Reservation>) {
    |before| <= |after|
    && forall i :: 0 <= i < |before| ==>
         after[i] == before[i] || (before[i].state == HELD && after[i] == before[i].(state := SETTLED))
  }

  ghost predicate OrdersMove(before: seq<Order>, after: seq<Order>) {
    |before| == |after|
    && forall i :: 0 <= i < |before| ==>
         after[i] == before[i] || (before[i].state == ORDER_REQUESTED && after[i] == before[i].(state := ORDER_PAID))
  }

  ghost predicate PaymentsMove(before: seq<Payment>, after: seq<Payment>) {
    |before| == |after|
    && forall i :: 0 <= i < |before| ==>
         after[i] == before[i] || (before[i].state == PAYMENT_PENDING && after[i] == before[i].(state := PAYMENT_PAID))
  }

  ghost predicate SlotsMove(before: seq<Slot>, after: seq<Slot>) {
    |before| == |after|
    && forall i :: 0 <= i < |before| ==>
         after[i] == before[i] || (before[i].state == SLOT_AVAILABLE && after[i] == before[i].(state := SLOT_OCCUPIED))
  }

  ghost predicate Extends(before: Db, after: Db) {
    && before.flows <= after.flows && before.commands <= after.commands && before.operations <= after.operations
    && before.actions <= after.actions && before.accounts <= after.accounts && before.transfers <= after.transfers
    && before.allocations <= after.allocations && before.swaps <= after.swaps && before.legs <= after.legs
    && before.withdrawals <= after.withdrawals && before.contracts <= after.contracts && before.links <= after.links
    && before.holders == after.holders && before.types == after.types
    && LotsMove(before.lots, after.lots) && ReservationsMove(before.reservations, after.reservations)
    && OrdersMove(before.orders, after.orders) && PaymentsMove(before.payments, after.payments)
    && SlotsMove(before.slots, after.slots)
  }

  lemma ExtendsTransitive(a: Db, b: Db, c: Db)
    requires Extends(a, b) && Extends(b, c)
    ensures Extends(a, c)
  {
  }

  // ----- The exact effect of each write -----

  ghost function AfterAlias(db: Db, row: Command): Db {
    db.(commands := db.commands + [row])
  }

  ghost function AliasRow(db: Db, r: Request, completed: nat): Command
    requires completed < |db.commands|
  {
    var c := db.commands[completed];
    Command(c.flow, FlowKindOf(KindOf(r)), KindOf(r), r.actor, r.key, PayloadOf(r), c.subject, c.result)
  }

  ghost function AfterCharge(db: Db, r: Request, plan: Plan, now: int): Db
    requires r.ChargeRequest? && plan.ChargePlan?
  {
    var f, op := |db.flows|, |db.operations|;
    db.(flows := db.flows + [Flow(POINT_CHARGE, {CHARGE})],
        commands := db.commands + [CommandRow(db, r, f, ExternalPaymentSubject(r.externalPaymentId), op)],
        operations := db.operations + [Operation(f, CHARGE, |db.commands|)],
        lots := db.lots + [PointLot(plan.account, r.amount, op, f, now)])
  }

  ghost function AfterCheckout(db: Db, r: Request, plan: Plan, lots: seq<Lot>): Db
    requires r.CheckoutRequest? && plan.CheckoutPlan?
    requires r.payment < |db.payments| && plan.order < |db.orders| && plan.slot < |db.slots|
  {
    var op, a, res, escrow := |db.operations|, |db.actions|, |db.reservations|, |db.accounts|;
    db.(commands := db.commands + [CommandRow(db, r, plan.flow, OrderPaymentSubject(r.payment), op)],
        operations := db.operations + [Operation(plan.flow, PAY, |db.commands|)],
        actions := db.actions + [TransferAction(op, plan.flow, PAY)],
        lots := lots,
        reservations := db.reservations + [CommissionHold(r, plan)],
        accounts := db.accounts + [Account(POINT, EscrowAccount, ReservationOwner(res))],
        transfers := db.transfers + [Transfer(res, plan.flow, POINT, plan.account, escrow, plan.amount, a)],
        allocations := db.allocations + AllocationRows(|db.transfers|, plan.account, POINT, plan.allocations),
        contracts := db.contracts + [Contract(plan.order, plan.flow, plan.buyer, plan.worker)],
        payments := db.payments[r.payment := db.payments[r.payment].(state := PAYMENT_PAID)],
        orders := db.orders[plan.order := db.orders[plan.order].(state := ORDER_PAID)],
        links := db.links + [Link(r.payment, plan.flow, res)],
        slots := db.slots[plan.slot := Slot(plan.worker, SLOT_OCCUPIED)])
  }

  ghost function AfterSettle(db: Db, r: Request, plan: Plan, now: int): Db
    requires r.SettleRequest? && plan.SettlePlan? && plan.reservation < |db.reservations|
  {
    var op, s := |db.operations|, |db.swaps|;
    db.(commands := db.commands + [CommandRow(db, r, plan.flow, ContractSubject(r.contract), op)],
        operations := db.operations + [Operation(plan.flow, SETTLE, |db.commands|)],
        swaps := db.swaps + [Swap(plan.flow, op, plan.reservation, plan.beneficiary)],
        legs := db.legs + [Leg(s, plan.flow, POINT, plan.escrow, plan.settled, plan.amount),
                           Leg(s, plan.flow, INCOME, plan.issuer, plan.available, plan.amount)],
        lots := db.lots + [IncomeLot(plan, op, s, now)],
        reservations := db.reservations[plan.reservation := db.reservations[plan.reservation].(state := SETTLED)])
  }

  ghost function AfterWithdraw(db: Db, r: Request, plan: Plan, lots: seq<Lot>): Db
    requires r.WithdrawRequest? && plan.WithdrawPlan?
  {
    var f, op, a, res, escrow := |db.flows|, |db.operations|, |db.actions|, |db.reservations|, |db.accounts|;
    db.(flows := db.flows + [Flow(WITHDRAWAL, {WITHDRAW})],
        commands := db.commands + [CommandRow(db, r, f, WithdrawalSubject(f), op)],
        operations := db.operations + [Operation(f, WITHDRAW, |db.commands|)],
        actions := db.actions + [TransferAction(op, f, WITHDRAW)],
        lots := lots,
        reservations := db.reservations + [WithdrawalHold(r, plan, f)],
        accounts := db.accounts + [Account(INCOME, EscrowAccount, ReservationOwner(res))],
        transfers := db.transfers + [Transfer(res, f, INCOME, plan.account, escrow, r.amount, a)],
        allocations := db.allocations + AllocationRows(|db.transfers|, plan.account, INCOME, plan.allocations),
        withdrawals := db.withdrawals + [Withdrawal(f, op, a, res)])
  }

  lemma ChargeWrites(db: Db, r: Request, plan: Plan, now: int)
    requires r.ChargeRequest? && plan.ChargePlan? && ApplyCharge(db, r, plan, now).Ok?
    ensures ApplyCharge(db, r, plan, now).value == AfterCharge(db, r, plan, now)
    ensures FindCommand(db, r.actor, CHARGE, r.key).None? && FindLot(db, |db.operations|).None?
  {
  }

  lemma CheckoutWrites(db: Db, r: Request, plan: Plan)
    requires r.CheckoutRequest? && plan.CheckoutPlan? && ApplyCheckout(db, r, plan).Ok?
    ensures r.payment < |db.payments| && plan.order < |db.orders| && plan.slot < |db.slots|
    ensures TakeAll(db.lots, plan.account, POINT, plan.allocations).Some?
    ensures ApplyCheckout(db, r, plan).value
         == AfterCheckout(db, r, plan, TakeAll(db.lots, plan.account, POINT, plan.allocations).value)
    ensures db.payments[r.payment].order == plan.order && db.payments[r.payment].state == PAYMENT_PENDING
    ensures db.orders[plan.order].state == ORDER_REQUESTED && db.slots[plan.slot] == Slot(plan.worker, SLOT_AVAILABLE)
    ensures FindCommand(db, r.actor, PAY, r.key).None? && FindContract(db, plan.order).None?
    ensures !BindingTaken(db, OrderPaymentSubject(r.payment)) && !LinkTaken(db, Link(r.payment, plan.flow, |db.reservations|))
    ensures plan.flow < |db.flows| && db.flows[plan.flow].kind == COMMISSION && PAY in db.flows[plan.flow].allowed
  {
  }

  lemma SettleWrites(db: Db, r: Request, plan: Plan, now: int)
    requires r.SettleRequest? && plan.SettlePlan? && ApplySettle(db, r, plan, now).Ok?
    ensures plan.reservation < |db.reservations| && db.reservations[plan.reservation].state == HELD
    ensures db.reservations[plan.reservation].flow == plan.flow
    ensures ApplySettle(db, r, plan, now).value == AfterSettle(db, r, plan, now)
    ensures FindCommand(db, r.actor, SETTLE, r.key).None? && FindLot(db, |db.operations|).None?
    ensures First(db.swaps, (s: Swap) => s.reservation == plan.reservation || s.operation == |db.operations|).None?
    ensures plan.flow < |db.flows| && db.flows[plan.flow].kind == COMMISSION && SETTLE in db.flows[plan.flow].allowed
  {
  }

  lemma WithdrawWrites(db: Db, r: Request, plan: Plan)
    requires r.WithdrawRequest? && plan.WithdrawPlan? && ApplyWithdraw(db, r, plan).Ok?
    ensures TakeAll(db.lots, plan.account, INCOME, plan.allocations).Some?
    ensures ApplyWithdraw(db, r, plan).value
         == AfterWithdraw(db, r, plan, TakeAll(db.lots, plan.account, INCOME, plan.allocations).value)
    ensures FindCommand(db, r.actor, WITHDRAW, r.key).None? && !BindingTaken(db, WithdrawalSubject(|db.flows|))
  {
  }

  /** Guarded decrements with non-negative amounts only lower remainders. */
  lemma {:induction false} TakeAllMoves(lots: seq<Lot>, account: nat, currency: Currency, allocations: seq<Allocation>)
    requires TakeAll(lots, account, currency, allocations).Some?
    requires forall j :: 0 <= j < |allocations| ==> allocations[j].amount >= 0
    ensures var after := TakeAll(lots, account, currency, allocations).value;
            |after| == |lots| && LotsMove(lots, after)
    decreases |allocations|
  {
    if allocations != [] {
      var a := allocations[0];
      var next := lots[a.lotId := Decrement(lots[a.lotId], a.amount)];
      TakeAllMoves(next, account, currency, allocations[1..]);
    }
  }

  ghost predicate PositiveParts(plan: Plan) {
    match plan
    case CheckoutPlan(_, _, _, _, allocations, _, _, _, _) => forall j :: 0 <= j < |allocations| ==> allocations[j].amount > 0
    case WithdrawPlan(_, _, allocations) => forall j :: 0 <= j < |allocations| ==> allocations[j].amount > 0
    case _ => true
  }

  /** Whatever a plan writes, it only appends rows and moves existing ones forward. */
  lemma ApplyPlanExtends(db: Db, r: Request, plan: Plan, now: int)
    requires PlanFits(r, plan) && PositiveParts(plan) && ApplyPlan(db, r, plan, now).Ok?
    ensures Extends(db, ApplyPlan(db, r, plan, now).value)
  {
    hide ApplyCharge, ApplyCheckout, ApplySettle, ApplyWithdraw, First, FindCommand, FindContract, FindLot, LotsMove, TakeAll;
    match r
    case ChargeRequest(_, _, _, _) =>
      ChargeWrites(db, r, plan, now);
      AppendedMoves(db.lots, PointLot(plan.account, r.amount, |db.operations|, |db.flows|, now));
    case CheckoutRequest(_, _, _) =>
      CheckoutWrites(db, r, plan);
      TakeAllMoves(db.lots, plan.account, POINT, plan.allocations);
    case SettleRequest(_, _, _) =>
      SettleWrites(db, r, plan, now);
      AppendedMoves(db.lots, IncomeLot(plan, |db.operations|, |db.swaps|, now));
    case WithdrawRequest(_, _, _) =>
      WithdrawWrites(db, r, plan);
      TakeAllMoves(db.lots, plan.account, INCOME, plan.allocations);
  }

  lemma AppendedMoves(lots: seq<Lot>, lot: Lot)
    requires lot.source.Some?
    ensures LotsMove(lots, lots + [lot])
  {
  }
}
