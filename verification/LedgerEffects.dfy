/**
 Every row a first-time success writes, and the answer it gives.
 */
module LedgerEffects {
  import opened Prelude
  import opened ReservationPlans
  import opened LedgerTables
  import opened LotQueue
  import opened LedgerUseCases
  import opened LedgerHistory
  import opened LedgerInvariant
  import opened LedgerPlans
  import opened LedgerKeeps
  import opened LedgerReceipts
  import opened LedgerRuns
  import opened LedgerRows
  import opened LedgerFrame
  import opened LedgerAcceptance
  import opened LedgerSettleable
  import opened LedgerFifo
  import S = LedgerStoreModule

  // The rows are written out here column by column; ids are the lengths of the tables before the request.

  // ----- What is drawn from an account -----

  /**
   An amount leaves an account, oldest lots first, and each lot that loses something gets one allocation row of
   exactly what it lost.
   */
  ghost predicate Drew(before: seq<Lot>, after: seq<Lot>, rows: seq<AllocationRow>, transfer: nat, account: nat,
                       currency: Currency)
  {
    && OldestFirst(before, after)
    && (forall k :: 0 <= k < |rows| ==>
         && rows[k].lot < |before|
         && rows[k] == AllocationRow(transfer, account, currency, rows[k].lot,
                                     before[rows[k].lot].remaining - after[rows[k].lot].remaining)
         && rows[k].amount > 0)
    && (forall k, l :: 0 <= k < l < |rows| ==> rows[k].lot != rows[l].lot)
    && forall i :: 0 <= i < |before| && after[i].remaining < before[i].remaining ==>
         && before[i].account == account && before[i].currency == currency
         && exists k :: 0 <= k < |rows| && rows[k].lot == i
  }

  lemma {:induction false} TakenOnce(allocations: seq<Allocation>, k: nat)
    requires DistinctAllocations(allocations) && k < |allocations|
    ensures TakenFrom(allocations, allocations[k].lotId) == allocations[k].amount
  {
    if k == 0 {
      NotNamed(allocations[1..], allocations[0].lotId);
    } else {
      TakenOnce(allocations[1..], k - 1);
    }
  }

  lemma {:induction false} TakenIsNamed(allocations: seq<Allocation>, lot: nat) returns (k: nat)
    requires TakenFrom(allocations, lot) > 0
    ensures k < |allocations| && allocations[k].lotId == lot
  {
    if allocations[0].lotId == lot {
      k := 0;
    } else {
      k := TakenIsNamed(allocations[1..], lot);
      k := k + 1;
    }
  }

  lemma PlannedDraw(lots: seq<Lot>, account: nat, currency: Currency, amount: int, transfer: nat)
    requires amount > 0
    ensures var parts := Draws(LoadLots(lots, account, currency), amount);
            var after := TakeAll(lots, account, currency, parts);
            after.Some? && Drew(lots, after.value, AllocationRows(transfer, account, currency, parts), transfer, account, currency)
  {
    hide Draws, LoadLots, TakeAll, OldestFirst;
    var parts := Draws(LoadLots(lots, account, currency), amount);
    PlanIsFresh(lots, account, currency, amount);
    FreshTake(lots, account, currency, parts);
    DrawsTakeOldestFirst(lots, account, currency, amount);
    var after := TakeAll(lots, account, currency, parts).value;
    var rows := AllocationRows(transfer, account, currency, parts);
    forall k | 0 <= k < |rows|
      ensures rows[k].lot < |lots| && rows[k].amount == lots[rows[k].lot].remaining - after[rows[k].lot].remaining
    {
      TakenOnce(parts, k);
    }
    forall i | 0 <= i < |lots| && after[i].remaining < lots[i].remaining
      ensures exists k :: 0 <= k < |rows| && rows[k].lot == i
    {
      var k := TakenIsNamed(parts, i);
      assert rows[k].lot == i;
    }
  }

  // ----- The effects -----

  /** A point charge: a flow, a command, an operation, and a full lot in the user's POINT account stamped with the instant. */
  ghost predicate ChargeWrote(db: Db, after: Db, receipt: Receipt, r: Request, now: int, account: nat)
    requires r.ChargeRequest?
  {
    var f, c, op := |db.flows|, |db.commands|, |db.operations|;
    && SpendsFrom(db, r.actor, POINT, account) && r.amount > 0
    && after == db.(
         flows := db.flows + [Flow(POINT_CHARGE, {CHARGE})],
         commands := db.commands + [Command(f, POINT_CHARGE, CHARGE, r.actor, r.key,
                                            [Num(r.actor), Num(r.amount), Str(r.externalPaymentId)],
                                            ExternalPaymentSubject(r.externalPaymentId), Some(op))],
         operations := db.operations + [Operation(f, CHARGE, c)],
         lots := db.lots + [Lot(account, POINT, Some(LotSource(op, f, POINT_CHARGE, CHARGE)), None, r.amount, r.amount, now)])
    && receipt == Receipt(POINT_CHARGE, f, CHARGE, c, CHARGE, op, false, Charged(|db.lots|, r.amount))
  }

  /**
   A checkout: command, operation and action; a hold of the price with its escrow account, transfer and allocations;
   the contract with the type's worker; payment and order paid, linked to the hold; the slot occupied.
   */
  ghost predicate CheckoutWrote(db: Db, after: Db, receipt: Receipt, r: Request, holder: nat, account: nat,
                                lots: seq<Lot>, rows: seq<AllocationRow>)
    requires r.CheckoutRequest?
  {
    && r.payment < |db.payments| && db.payments[r.payment].order < |db.orders|
    && var payment, o := db.payments[r.payment], db.payments[r.payment].order;
       var order := db.orders[o];
       && order.commissionType < |db.types| && order.slot < |db.slots|
       && var worker, flow := db.types[order.commissionType].worker, payment.flow;
          var c, op, a := |db.commands|, |db.operations|, |db.actions|;
          var hold, escrow, t := |db.reservations|, |db.accounts|, |db.transfers|;
          && HolderIs(db, UserBinding(r.actor), holder) && AccountIs(db, account, POINT, AvailableAccount, holder)
          && Drew(db.lots, lots, rows, t, account, POINT) && DrawnByTransfer(db.allocations + rows, t) == payment.amount > 0
          && after == db.(
            commands := db.commands + [Command(flow, COMMISSION, PAY, r.actor, r.key, [Num(r.payment), Num(r.actor)],
                                               OrderPaymentSubject(r.payment), Some(op))],
            operations := db.operations + [Operation(flow, PAY, c)],
            actions := db.actions + [TransferAction(op, flow, PAY)],
            lots := lots,
            reservations := db.reservations + [Reservation(flow, OrderPaymentSubject(r.payment), holder, CommissionPayment,
                                                           POINT, payment.amount, HELD)],
            accounts := db.accounts + [Account(POINT, EscrowAccount, ReservationOwner(hold))],
            transfers := db.transfers + [Transfer(hold, flow, POINT, account, escrow, payment.amount, a)],
            allocations := db.allocations + rows,
            contracts := db.contracts + [Contract(o, flow, r.actor, worker)],
            payments := db.payments[r.payment := payment.(state := PAYMENT_PAID)],
            orders := db.orders[o := order.(state := ORDER_PAID)],
            links := db.links + [Link(r.payment, flow, hold)],
            slots := db.slots[order.slot := Slot(worker, SLOT_OCCUPIED)])
          && receipt == Receipt(COMMISSION, flow, PAY, c, PAY, op, false, CheckedOut(o, r.payment, |db.contracts|, hold))
  }

  /** The three accounts a settlement writes to. */
  ghost predicate SettlesThrough(db: Db, worker: nat, settled: nat, issuer: nat, available: nat, platform: nat) {
    && HolderIs(db, PlatformBinding, platform) && AccountIs(db, settled, POINT, SettledAccount, platform)
    && AccountIs(db, issuer, INCOME, IssuerAccount, platform) && AccountIs(db, available, INCOME, AvailableAccount, worker)
  }

  /**
   A settlement: command and operation; a swap of the hold with a POINT leg out of escrow and an INCOME leg to the
   worker, both of the held amount; that amount as a full INCOME lot stamped with the instant; the hold SETTLED.
   */
  ghost predicate SettlementWrote(db: Db, after: Db, receipt: Receipt, r: Request, now: int, worker: nat,
                                  settled: nat, issuer: nat, available: nat, platform: nat)
    requires r.SettleRequest?
  {
    && r.contract < |db.contracts| && r.contract < |db.links|
    && var hold := db.links[r.contract].reservation;
       && hold < |db.reservations| && hold < |db.transfers|
       && var flow, amount, escrow := db.contracts[r.contract].flow, db.reservations[hold].target, db.transfers[hold].toAccount;
          var c, op, s := |db.commands|, |db.operations|, |db.swaps|;
          && amount > 0 && HolderIs(db, UserBinding(r.actor), worker) && db.contracts[r.contract].worker == r.actor
          && SettlesThrough(db, worker, settled, issuer, available, platform)
          && after == db.(
            commands := db.commands + [Command(flow, COMMISSION, SETTLE, r.actor, r.key, [Num(r.contract), Num(r.actor)],
                                               ContractSubject(r.contract), Some(op))],
            operations := db.operations + [Operation(flow, SETTLE, c)],
            swaps := db.swaps + [Swap(flow, op, hold, worker)],
            legs := db.legs + [Leg(s, flow, POINT, escrow, settled, amount), Leg(s, flow, INCOME, issuer, available, amount)],
            lots := db.lots + [Lot(available, INCOME, Some(LotSource(op, flow, COMMISSION, SETTLE)), Some(s), amount, amount, now)],
            reservations := db.reservations[hold := db.reservations[hold].(state := SETTLED)])
          && receipt == Receipt(COMMISSION, flow, SETTLE, c, SETTLE, op, false, Settled(r.contract, hold, |db.lots|))
  }

  /** A withdrawal: a flow of its own; a hold of the amount with escrow, transfer and allocations; the withdrawal row. */
  ghost predicate WithdrawalWrote(db: Db, after: Db, receipt: Receipt, r: Request, holder: nat, account: nat,
                                  lots: seq<Lot>, rows: seq<AllocationRow>)
    requires r.WithdrawRequest?
  {
    var f, c, op, a := |db.flows|, |db.commands|, |db.operations|, |db.actions|;
    var hold, escrow, t := |db.reservations|, |db.accounts|, |db.transfers|;
    && HolderIs(db, UserBinding(r.actor), holder) && AccountIs(db, account, INCOME, AvailableAccount, holder)
    && Drew(db.lots, lots, rows, t, account, INCOME) && DrawnByTransfer(db.allocations + rows, t) == r.amount > 0
    && after == db.(
         flows := db.flows + [Flow(WITHDRAWAL, {WITHDRAW})],
         commands := db.commands + [Command(f, WITHDRAWAL, WITHDRAW, r.actor, r.key, [Num(r.actor), Num(r.amount)],
                                            WithdrawalSubject(f), Some(op))],
         operations := db.operations + [Operation(f, WITHDRAW, c)],
         actions := db.actions + [TransferAction(op, f, WITHDRAW)],
         lots := lots,
         reservations := db.reservations + [Reservation(f, WithdrawalSubject(f), holder, IncomeWithdrawal, INCOME, r.amount, HELD)],
         accounts := db.accounts + [Account(INCOME, EscrowAccount, ReservationOwner(hold))],
         transfers := db.transfers + [Transfer(hold, f, INCOME, account, escrow, r.amount, a)],
         allocations := db.allocations + rows,
         withdrawals := db.withdrawals + [Withdrawal(f, op, a, hold)])
    && receipt.effect.Withdrawn?
    && receipt == Receipt(WITHDRAWAL, f, WITHDRAW, c, WITHDRAW, op, false, Withdrawn(|db.withdrawals|, hold, receipt.effect.sources))
  }

  ghost predicate Wrote(db: Db, after: Db, receipt: Receipt, r: Request, now: int) {
    match r
    case ChargeRequest(_, _, _, _) => exists account: nat :: ChargeWrote(db, after, receipt, r, now, account)
    case CheckoutRequest(_, _, _) =>
      exists holder: nat, account: nat, lots, rows :: CheckoutWrote(db, after, receipt, r, holder, account, lots, rows)
    case SettleRequest(_, _, _) =>
      exists worker: nat, settled: nat, issuer: nat, available: nat, platform: nat ::
        SettlementWrote(db, after, receipt, r, now, worker, settled, issuer, available, platform)
    case WithdrawRequest(_, _, _) =>
      exists holder: nat, account: nat, lots, rows :: WithdrawalWrote(db, after, receipt, r, holder, account, lots, rows)
  }

  // ----- Each success writes them -----

  /** A first-time success went through a plan. */
  ghost predicate Committed(db: Db, r: Request, t: Targets, plan: Plan, now: int, after: Db) {
    && Inv(db) && NewCommand(db, r) && Matching(r, t) && Prepared(db, r, t)
    && Decide(db, r, t) == Proceed(plan) && PlanFits(r, plan) && Ready(db, r, plan)
    && ApplyPlan(db, r, plan, now) == Ok(after)
  }

  lemma CommitKeeps(db: Db, r: Request, t: Targets, plan: Plan, now: int, after: Db)
    requires Committed(db, r, t, plan, now, after)
    ensures Inv(after)
  {
    hide Inv, ApplyPlan, Decide, Ready;
    ProceedKeeps(db, r, plan, now);
  }

  /** What a committed plan is, kind by kind. */
  lemma CommittedAs(db: Db, r: Request, t: Targets, plan: Plan, now: int, after: Db)
    requires Committed(db, r, t, plan, now, after)
    ensures Inv(db) && NewCommand(db, r) && Prepared(db, r, t) && Matching(r, t) && Decide(db, r, t) == Proceed(plan)
    ensures match r
            case ChargeRequest(_, _, _, _) =>
              t.ChargeTargets? && plan.ChargePlan? && ApplyCharge(db, r, plan, now) == Ok(after) && ChargeReady(db, r, plan)
            case CheckoutRequest(_, _, _) =>
              t.CheckoutTargets? && plan.CheckoutPlan? && ApplyCheckout(db, r, plan) == Ok(after)
              && CheckoutReady(db, r, plan) && DecideCheckout(db, r, t) == Proceed(plan)
            case SettleRequest(_, _, _) =>
              t.SettleTargets? && plan.SettlePlan? && ApplySettle(db, r, plan, now) == Ok(after)
              && SettleReady(db, r, plan) && DecideSettle(db, r, t) == Proceed(plan)
            case WithdrawRequest(_, _, _) =>
              t.WithdrawTargets? && plan.WithdrawPlan? && ApplyWithdraw(db, r, plan) == Ok(after)
              && WithdrawReady(db, r, plan) && DecideWithdraw(db, r, t.holder) == Proceed(plan)
  {
    hide Inv, Prepared, NewCommand, ApplyCharge, ApplyCheckout, ApplySettle, ApplyWithdraw, DecideCharge, DecideCheckout,
         DecideSettle, DecideWithdraw, ChargeReady, CheckoutReady, SettleReady, WithdrawReady;
  }

  lemma ChargeEffect(db: Db, r: Request, t: Targets, plan: Plan, now: int, after: Db, receipt: Receipt)
    requires r.ChargeRequest? && plan.ChargePlan? && Committed(db, r, t, plan, now, after)
    requires |after.commands| > 0 && LoadReceipt(after, |after.commands| - 1, false) == Ok(receipt)
    ensures ChargeWrote(db, after, receipt, r, now, plan.account)
  {
    hide *;
    CommittedAs(db, r, t, plan, now, after);
    CommitKeeps(db, r, t, plan, now, after);
    ChargeWrites(db, r, plan, now);
    ChargeAccount(db, r, t, plan);
    LotsOf(after);
    ChargeRows(db, r, plan, now, after, receipt);
  }

  lemma ChargeRows(db: Db, r: Request, plan: Plan, now: int, after: Db, receipt: Receipt)
    requires r.ChargeRequest? && plan.ChargePlan? && ChargeReady(db, r, plan) && after == AfterCharge(db, r, plan, now)
    requires LotsDistinct(after.lots) && SpendsFrom(db, r.actor, POINT, plan.account)
    requires |after.commands| > 0 && LoadReceipt(after, |after.commands| - 1, false) == Ok(receipt)
    ensures ChargeWrote(db, after, receipt, r, now, plan.account)
  {
    hide SpendsFrom, NewCommand, IssuedTo, First;
    LotOfOperation(after, |db.lots|);
  }

  lemma LotsOf(db: Db)
    requires Inv(db)
    ensures LotsDistinct(db.lots)
  {
  }

  lemma ChargeAccount(db: Db, r: Request, t: Targets, plan: Plan)
    requires r.ChargeRequest? && t.ChargeTargets? && NewCommand(db, r) && Prepared(db, r, t) && Decide(db, r, t) == Proceed(plan)
    ensures plan.ChargePlan? && SpendsFrom(db, r.actor, POINT, plan.account)
  {
    hide SpendsFrom;
    SpendsFromIsAccountOf(db, r.actor, POINT);
  }

  lemma AccountRows(db: Db, user: nat, holder: nat, currency: Currency, account: nat)
    requires FindHolder(db, UserBinding(user)) == Some(holder)
    requires FindAccount(db, holder, currency, AvailableAccount) == Some(account)
    ensures HolderIs(db, UserBinding(user), holder) && AccountIs(db, account, currency, AvailableAccount, holder)
  {
    HolderFound(db, UserBinding(user));
    AccountFound(db, currency, AvailableAccount, holder);
  }

  lemma DrawnTotal(db: Db, t: nat)
    requires Inv(db) && t < |db.transfers|
    ensures DrawnByTransfer(db.allocations, t) == db.transfers[t].amount
  {
  }

  lemma CheckoutEffect(db: Db, r: Request, t: Targets, plan: Plan, now: int, after: Db, receipt: Receipt)
    returns (lots: seq<Lot>, rows: seq<AllocationRow>)
    requires r.CheckoutRequest? && plan.CheckoutPlan? && Committed(db, r, t, plan, now, after)
    requires |after.commands| > 0 && LoadReceipt(after, |after.commands| - 1, false) == Ok(receipt)
    ensures CheckoutWrote(db, after, receipt, r, plan.holder, plan.account, lots, rows)
  {
    hide *;
    CommittedAs(db, r, t, plan, now, after);
    CommitKeeps(db, r, t, plan, now, after);
    CheckoutWrites(db, r, plan);
    CheckoutDraws(db, r, t);
    CheckoutAccount(db, r, t, plan);
    S.CheckoutReceipt(db, r, plan);
    PlannedDraw(db.lots, plan.account, POINT, plan.amount, |db.transfers|);
    lots := TakeAll(db.lots, plan.account, POINT, plan.allocations).value;
    rows := AllocationRows(|db.transfers|, plan.account, POINT, plan.allocations);
    CheckoutTransfer(db, r, plan, lots, after);
    CheckoutRows(db, r, plan, lots, after, receipt);
  }

  lemma CheckoutTransfer(db: Db, r: Request, plan: Plan, lots: seq<Lot>, after: Db)
    requires r.CheckoutRequest? && plan.CheckoutPlan? && Inv(after)
    requires r.payment < |db.payments| && plan.order < |db.orders| && plan.slot < |db.slots|
    requires after == AfterCheckout(db, r, plan, lots)
    ensures DrawnByTransfer(after.allocations, |db.transfers|) == plan.amount
  {
    DrawnTotal(after, |db.transfers|);
  }

  lemma CheckoutRows(db: Db, r: Request, plan: Plan, lots: seq<Lot>, after: Db, receipt: Receipt)
    requires r.CheckoutRequest? && CheckoutReady(db, r, plan)
    requires after == AfterCheckout(db, r, plan, lots)
    requires HolderIs(db, UserBinding(r.actor), plan.holder) && AccountIs(db, plan.account, POINT, AvailableAccount, plan.holder)
    requires DrawnByTransfer(after.allocations, |db.transfers|) == plan.amount > 0
    requires db.slots[plan.slot] == Slot(plan.worker, SLOT_AVAILABLE)
    requires var rows := AllocationRows(|db.transfers|, plan.account, POINT, plan.allocations);
             Drew(db.lots, lots, rows, |db.transfers|, plan.account, POINT)
    requires receipt == Receipt(COMMISSION, plan.flow, PAY, |db.commands|, PAY, |db.operations|, false,
                                CheckedOut(plan.order, r.payment, |db.contracts|, |db.reservations|))
    ensures CheckoutWrote(db, after, receipt, r, plan.holder, plan.account, lots,
                          AllocationRows(|db.transfers|, plan.account, POINT, plan.allocations))
  {
    hide Drew, HolderIs, AccountIs, Funds, NewCommand, Payable, DrawnByTransfer, AllocationRows;
  }

  lemma CheckoutAccount(db: Db, r: Request, t: Targets, plan: Plan)
    requires r.CheckoutRequest? && t.CheckoutTargets? && NewCommand(db, r) && Prepared(db, r, t) && Decide(db, r, t) == Proceed(plan)
    ensures plan.CheckoutPlan? && HolderIs(db, UserBinding(r.actor), plan.holder)
    ensures AccountIs(db, plan.account, POINT, AvailableAccount, plan.holder)
  {
    hide Payable, PlanDraws, LoadLots, HolderIs, AccountIs;
    AccountRows(db, r.actor, plan.holder, POINT, plan.account);
  }

  lemma SettlementEffect(db: Db, r: Request, t: Targets, plan: Plan, now: int, after: Db, receipt: Receipt)
    returns (platform: nat)
    requires r.SettleRequest? && plan.SettlePlan? && Committed(db, r, t, plan, now, after)
    requires |after.commands| > 0 && LoadReceipt(after, |after.commands| - 1, false) == Ok(receipt)
    ensures SettlementWrote(db, after, receipt, r, now, plan.beneficiary, plan.settled, plan.issuer, plan.available, platform)
  {
    hide *;
    CommittedAs(db, r, t, plan, now, after);
    SettleWrites(db, r, plan, now);
    S.SettlementResult(db, r, plan, now);
    SettlementEscrow(db, r, t, plan);
    platform := SettlementAccount(db, r, t, plan);
    SettlementRows(db, r, plan, now, after, receipt, platform);
  }

  lemma SettlementRows(db: Db, r: Request, plan: Plan, now: int, after: Db, receipt: Receipt, platform: nat)
    requires r.SettleRequest? && SettleReady(db, r, plan) && after == AfterSettle(db, r, plan, now)
    requires plan.reservation < |db.transfers| && plan.escrow == db.transfers[plan.reservation].toAccount
    requires HolderIs(db, UserBinding(r.actor), plan.beneficiary)
    requires SettlesThrough(db, plan.beneficiary, plan.settled, plan.issuer, plan.available, platform)
    requires receipt == Receipt(COMMISSION, plan.flow, SETTLE, |db.commands|, SETTLE, |db.operations|, false,
                                Settled(r.contract, plan.reservation, |db.lots|))
    ensures SettlementWrote(db, after, receipt, r, now, plan.beneficiary, plan.settled, plan.issuer, plan.available, platform)
  {
    hide SettlesThrough, HolderIs, NewCommand;
  }

  lemma SettlementAccount(db: Db, r: Request, t: Targets, plan: Plan) returns (platform: nat)
    requires r.SettleRequest? && t.SettleTargets? && NewCommand(db, r) && Prepared(db, r, t) && Decide(db, r, t) == Proceed(plan)
    requires plan.SettlePlan? && SettleReady(db, r, plan)
    ensures HolderIs(db, UserBinding(r.actor), plan.beneficiary)
    ensures SettlesThrough(db, plan.beneficiary, plan.settled, plan.issuer, plan.available, platform)
  {
    hide Settleable, LoadAccounts, HolderIs, AccountIs, LoadFunding, LoadPaidOrder, First;
    HolderFound(db, UserBinding(r.actor));
    AccountsLoadIffTheyExist(db, plan.beneficiary);
    platform :| PlatformReady(db, platform) && AccountIs(db, plan.settled, POINT, SettledAccount, platform)
                && AccountIs(db, plan.issuer, INCOME, IssuerAccount, platform);
  }

  lemma SettlementEscrow(db: Db, r: Request, t: Targets, plan: Plan)
    requires Inv(db) && r.SettleRequest? && t.SettleTargets? && NewCommand(db, r) && DecideSettle(db, r, t) == Proceed(plan)
    requires SettleReady(db, r, plan)
    ensures plan.reservation < |db.transfers| && plan.escrow == db.transfers[plan.reservation].toAccount
  {
    assert Formed(db, r.contract);
    PaidOrderIsLinked(db, r.contract);
    FundingEscrow(db, r.contract);
    hide Inv, Formed;
    PlannedEscrow(db, r, t, plan);
  }

  lemma PlannedEscrow(db: Db, r: Request, t: Targets, plan: Plan)
    requires r.SettleRequest? && t.SettleTargets? && NewCommand(db, r) && DecideSettle(db, r, t) == Proceed(plan)
    requires r.contract < |db.contracts| && r.contract < |db.links| && db.contracts[r.contract].order < |db.orders|
    requires LoadPaidOrder(db, db.contracts[r.contract]) == Some((db.links[r.contract].payment, r.contract))
    requires db.links[r.contract].payment < |db.payments|
    ensures var f := LoadFunding(db, db.contracts[r.contract], db.links[r.contract].payment, r.contract);
            f.Some? && plan == SettlePlan(plan.flow, db.links[r.contract].reservation, plan.beneficiary, plan.amount, f.value.escrow,
                                          plan.settled, plan.issuer, plan.available)
  {
    hide LoadAccounts, Settleable, LoadPaidOrder, First;
  }

  lemma FundingEscrow(db: Db, k: nat)
    requires HoldsInv(db) && k < |db.contracts| && Formed(db, k)
    ensures var f := LoadFunding(db, db.contracts[k], db.links[k].payment, k);
            db.links[k].reservation < |db.transfers| && (f.Some? ==> f.value.escrow == db.transfers[db.links[k].reservation].toAccount)
  {
    hide HoldsInv;
    EscrowOfHold(db, db.links[k].reservation);
  }

  lemma WithdrawalEffect(db: Db, r: Request, t: Targets, plan: Plan, now: int, after: Db, receipt: Receipt)
    returns (lots: seq<Lot>, rows: seq<AllocationRow>)
    requires r.WithdrawRequest? && plan.WithdrawPlan? && Committed(db, r, t, plan, now, after)
    requires |after.commands| > 0 && LoadReceipt(after, |after.commands| - 1, false) == Ok(receipt)
    ensures WithdrawalWrote(db, after, receipt, r, plan.holder, plan.account, lots, rows)
  {
    hide *;
    CommittedAs(db, r, t, plan, now, after);
    CommitKeeps(db, r, t, plan, now, after);
    WithdrawWrites(db, r, plan);
    WithdrawalDraws(db, r, t.holder);
    WithdrawalAccount(db, r, t, plan);
    PlannedDraw(db.lots, plan.account, INCOME, r.amount, |db.transfers|);
    lots := TakeAll(db.lots, plan.account, INCOME, plan.allocations).value;
    rows := AllocationRows(|db.transfers|, plan.account, INCOME, plan.allocations);
    WithdrawalTransfer(db, r, plan, lots, after);
    WithdrawalReceipt(db, r, plan, lots, after, receipt);
    WithdrawalRows(db, r, plan, lots, after, receipt);
  }

  lemma WithdrawalTransfer(db: Db, r: Request, plan: Plan, lots: seq<Lot>, after: Db)
    requires r.WithdrawRequest? && plan.WithdrawPlan? && Inv(after) && after == AfterWithdraw(db, r, plan, lots)
    ensures DrawnByTransfer(after.allocations, |db.transfers|) == r.amount && |after.commands| == |db.commands| + 1
  {
    DrawnTotal(after, |db.transfers|);
  }

  lemma WithdrawalRows(db: Db, r: Request, plan: Plan, lots: seq<Lot>, after: Db, receipt: Receipt)
    requires r.WithdrawRequest? && plan.WithdrawPlan? && after == AfterWithdraw(db, r, plan, lots)
    requires HolderIs(db, UserBinding(r.actor), plan.holder) && AccountIs(db, plan.account, INCOME, AvailableAccount, plan.holder)
    requires DrawnByTransfer(after.allocations, |db.transfers|) == r.amount > 0
    requires var rows := AllocationRows(|db.transfers|, plan.account, INCOME, plan.allocations);
             Drew(db.lots, lots, rows, |db.transfers|, plan.account, INCOME)
    requires receipt.effect.Withdrawn?
    requires receipt == Receipt(WITHDRAWAL, |db.flows|, WITHDRAW, |db.commands|, WITHDRAW, |db.operations|, false,
                                Withdrawn(|db.withdrawals|, |db.reservations|, receipt.effect.sources))
    ensures WithdrawalWrote(db, after, receipt, r, plan.holder, plan.account, lots,
                            AllocationRows(|db.transfers|, plan.account, INCOME, plan.allocations))
  {
    hide Drew, HolderIs, AccountIs, DrawnByTransfer, AllocationRows;
  }

  lemma WithdrawalAccount(db: Db, r: Request, t: Targets, plan: Plan)
    requires r.WithdrawRequest? && t.WithdrawTargets? && NewCommand(db, r) && Prepared(db, r, t) && Decide(db, r, t) == Proceed(plan)
    ensures plan.WithdrawPlan? && HolderIs(db, UserBinding(r.actor), plan.holder)
    ensures AccountIs(db, plan.account, INCOME, AvailableAccount, plan.holder)
  {
    hide PlanWithdrawalDraws, LoadLots, HolderIs, AccountIs;
    AccountRows(db, r.actor, plan.holder, INCOME, plan.account);
  }

  lemma WithdrawalReceipt(db: Db, r: Request, plan: Plan, lots: seq<Lot>, after: Db, receipt: Receipt)
    requires Inv(after) && r.WithdrawRequest? && plan.WithdrawPlan?
    requires after == AfterWithdraw(db, r, plan, lots) && |after.commands| > 0
    requires LoadReceipt(after, |after.commands| - 1, false) == Ok(receipt)
    ensures receipt.effect.Withdrawn?
    ensures receipt == Receipt(WITHDRAWAL, |db.flows|, WITHDRAW, |db.commands|, WITHDRAW, |db.operations|, false,
                               Withdrawn(|db.withdrawals|, |db.reservations|, receipt.effect.sources))
  {
    hide LoadSources, CommandsInv, HoldsInv, LotsInv, ProductInv, SettlementInv, OwnersInv, EffectsInv, Conserved;
    WithdrawalOfFlow(after, |db.withdrawals|);
  }

  lemma ServedPlan(db: Db, r: Request, t: Targets, now: int)
    requires Prepare(db, r) == Ok(t) && Matching(r, t) && Decide(db, r, t).Proceed? && Serve(db, Event(r, now)).Ok?
    ensures PlanFits(r, Decide(db, r, t).plan)
    ensures var (after, receipt) := Serve(db, Event(r, now)).value;
            && ApplyPlan(db, r, Decide(db, r, t).plan, now) == Ok(after)
            && |after.commands| > 0 && LoadReceipt(after, |after.commands| - 1, false) == Ok(receipt)
  {
    hide Decide, ApplyPlan, LoadReceipt, Prepare;
    DecideFits(db, r, t);
  }

  lemma ServedIsDecided(db: Db, r: Request, t: Targets, now: int)
    requires Prepare(db, r) == Ok(t) && Matching(r, t) && NewCommand(db, r) && Serve(db, Event(r, now)).Ok?
    ensures Decide(db, r, t).Proceed?
  {
    hide Decide, ApplyPlan, LoadReceipt, Prepare, NewCommand;
    NewIsPlanned(db, r, t);
    DecideFits(db, r, t);
  }

  /** A first-time success was decided by a plan and committed it. */
  lemma FirstSuccessCommits(db: Db, r: Request, now: int)
    requires Inv(db) && Unseen(db, r) && Serve(db, Event(r, now)).Ok?
    ensures Prepare(db, r).Ok? && Matching(r, Prepare(db, r).value) && Decide(db, r, Prepare(db, r).value).Proceed?
    ensures var plan := Decide(db, r, Prepare(db, r).value).plan;
            var (after, receipt) := Serve(db, Event(r, now)).value;
            && PlanFits(r, plan) && Committed(db, r, Prepare(db, r).value, plan, now, after)
            && |after.commands| > 0 && LoadReceipt(after, |after.commands| - 1, false) == Ok(receipt)
  {
    hide Unseen, Inv, Decide, ApplyPlan, LoadReceipt, Prepare, NewCommand, Ready, Exec;
    UnseenIsNew(db, r);
    var t := Prepare(db, r).value;
    PreparedMatches(db, r, t);
    hide Serve;
    ServedIsDecided(db, r, t, now);
    ServedPlan(db, r, t, now);
    ProductOf(db);
    Decided(db, r, t);
  }

  /** Whatever the kind of request, a first-time success writes exactly its rows and answers with their ids. */
  lemma FirstSuccessWrites(db: Db, r: Request, now: int)
    requires Inv(db) && Unseen(db, r) && Serve(db, Event(r, now)).Ok?
    ensures Wrote(db, Serve(db, Event(r, now)).value.0, Serve(db, Event(r, now)).value.1, r, now)
  {
    hide Unseen, Inv, Serve, Decide, LoadReceipt, Prepare, Committed, ChargeWrote, CheckoutWrote, SettlementWrote, WithdrawalWrote;
    FirstSuccessCommits(db, r, now);
    var t := Prepare(db, r).value;
    var plan := Decide(db, r, t).plan;
    var (after, receipt) := Serve(db, Event(r, now)).value;
    match r
    case ChargeRequest(_, _, _, _) =>
      ChargeEffect(db, r, t, plan, now, after, receipt);
      assert ChargeWrote(db, after, receipt, r, now, plan.account);
    case CheckoutRequest(_, _, _) =>
      var lots, rows := CheckoutEffect(db, r, t, plan, now, after, receipt);
      assert CheckoutWrote(db, after, receipt, r, plan.holder, plan.account, lots, rows);
    case SettleRequest(_, _, _) => var platform := SettlementEffect(db, r, t, plan, now, after, receipt);
    case WithdrawRequest(_, _, _) =>
      var lots, rows := WithdrawalEffect(db, r, t, plan, now, after, receipt);
      assert WithdrawalWrote(db, after, receipt, r, plan.holder, plan.account, lots, rows);
  }
}
