/**
 What a commit leaves alone, and so what a transaction under other locks cannot notice.
 A commit writes rows under its own locks only; decisions read rows under theirs.
 */
module LedgerFrame {
  import opened Prelude
  import opened ReservationPlans
  import opened LedgerTables
  import opened LotQueue
  import opened LedgerUseCases
  import opened LedgerHistory
  import opened LedgerInvariant
  import opened LedgerPlans
  import opened LedgerKeeps
  import opened LedgerReceipts
  import opened LedgerRuns
  import opened LedgerSettleable
  import opened LedgerLocks

  // A transaction that shares no lock with a committing one finds its look-ups, its lots and its product rows
  // unchanged, so it decides the same before and after the commit.

  // ----- The footprint of one commit -----

  ghost predicate CommandFor(row: Command, r: Request) {
    row.principal == r.actor && row.kind == KindOf(r) && row.key == r.key
    && (SubjectOf(r).Some? ==> row.subject == SubjectOf(r).value)
  }

  ghost predicate OwnedByHolder(db: Db, account: nat, holder: nat) {
    account < |db.accounts| && db.accounts[account].owner == HolderOwner(holder)
  }

  /** The lots in this holder's accounts are as they were. */
  ghost predicate LotsSpared(a: Db, b: Db, holder: nat) {
    forall account: nat, currency | OwnedByHolder(a, account, holder) :: SameFor(a.lots, b.lots, account, currency)
  }

  ghost predicate CommandsOnlyFor(a: Db, b: Db, r: Request) {
    a.commands <= b.commands && forall i :: |a.commands| <= i < |b.commands| ==> CommandFor(b.commands[i], r)
  }

  ghost predicate OnlyEscrowsAdded(a: Db, b: Db) {
    a.accounts <= b.accounts
    && forall i :: |a.accounts| <= i < |b.accounts| ==> b.accounts[i].owner.ReservationOwner?
  }

  /** Everything a commit of request r may have changed. */
  ghost predicate Footprint(a: Db, b: Db, r: Request, t: Targets) {
    && Extends(a, b) && CommandsOnlyFor(a, b, r) && OnlyEscrowsAdded(a, b)
    && (forall holder: nat :: holder != t.holder ==> LotsSpared(a, b, holder))
    && (forall p :: 0 <= p < |a.payments| && b.payments[p] != a.payments[p] ==> r.CheckoutRequest? && p == r.payment)
    && (forall o :: 0 <= o < |a.orders| && b.orders[o] != a.orders[o] ==>
         r.CheckoutRequest? && t.CheckoutTargets? && a.orders[o].slot == t.slot)
    && (forall s :: 0 <= s < |a.slots| && b.slots[s] != a.slots[s] ==>
         r.CheckoutRequest? && t.CheckoutTargets? && s == t.slot)
    && (forall x :: 0 <= x < |a.reservations| && b.reservations[x] != a.reservations[x] ==>
         r.SettleRequest? && r.contract < |a.links| && x == a.links[r.contract].reservation)
  }

  lemma SparedByTaking(a: Db, b: Db, owner: nat, account: nat, currency: Currency, allocations: seq<Allocation>, holder: nat)
    requires OwnedByHolder(a, account, owner) && holder != owner
    requires PlannedOn(a.lots, account, currency, allocations)
    requires TakeAll(a.lots, account, currency, allocations) == Some(b.lots)
    ensures LotsSpared(a, b, holder)
  {
    FreshTake(a.lots, account, currency, allocations);
  }

  lemma SparedByAdding(a: Db, b: Db, owner: nat, lot: Lot, holder: nat)
    requires OwnedByHolder(a, lot.account, owner) && holder != owner && b.lots == a.lots + [lot]
    ensures LotsSpared(a, b, holder)
  {
  }

  lemma AliasFootprint(db: Db, r: Request, t: Targets, c: nat)
    requires Inv(db) && Matching(r, t) && Decide(db, r, t) == Alias(c) && c < |db.commands| && ApplyAlias(db, r, c).Ok?
    ensures Footprint(db, ApplyAlias(db, r, c).value, r, t)
  {
    hide Inv, Decide, ApplyAlias;
    AliasIsSameCommand(db, r, t);
    AliasKeeps(db, r, c);
  }

  lemma ChargeFootprint(db: Db, r: Request, t: Targets, plan: Plan, now: int)
    requires r.ChargeRequest? && plan.ChargePlan? && OwnedByHolder(db, plan.account, t.holder)
    requires ApplyCharge(db, r, plan, now).Ok?
    ensures Footprint(db, ApplyCharge(db, r, plan, now).value, r, t)
  {
    ChargeWrites(db, r, plan, now);
    ApplyPlanExtends(db, r, plan, now);
    forall holder: nat | holder != t.holder ensures LotsSpared(db, AfterCharge(db, r, plan, now), holder) {
      SparedByAdding(db, AfterCharge(db, r, plan, now), t.holder, PointLot(plan.account, r.amount, |db.operations|, |db.flows|, now), holder);
    }
  }

  lemma CheckoutFootprint(db: Db, r: Request, t: Targets, plan: Plan)
    requires CheckoutReady(db, r, plan) && t.CheckoutTargets? && plan.holder == t.holder && plan.slot == t.slot
    requires ApplyCheckout(db, r, plan).Ok?
    ensures Footprint(db, ApplyCheckout(db, r, plan).value, r, t)
  {
    CheckoutWrites(db, r, plan);
    ApplyPlanExtends(db, r, plan, 0);
    var after := ApplyCheckout(db, r, plan).value;
    forall holder: nat | holder != t.holder ensures LotsSpared(db, after, holder) {
      SparedByTaking(db, after, t.holder, plan.account, POINT, plan.allocations, holder);
    }
  }

  lemma SettleFootprint(db: Db, r: Request, t: Targets, plan: Plan, now: int)
    requires SettleReady(db, r, plan) && plan.beneficiary == t.holder && ApplySettle(db, r, plan, now).Ok?
    ensures Footprint(db, ApplySettle(db, r, plan, now).value, r, t)
  {
    SettleWrites(db, r, plan, now);
    ApplyPlanExtends(db, r, plan, now);
    var after := ApplySettle(db, r, plan, now).value;
    forall holder: nat | holder != t.holder ensures LotsSpared(db, after, holder) {
      SparedByAdding(db, after, t.holder, IncomeLot(plan, |db.operations|, |db.swaps|, now), holder);
    }
  }

  lemma WithdrawFootprint(db: Db, r: Request, t: Targets, plan: Plan)
    requires WithdrawReady(db, r, plan) && plan.holder == t.holder && ApplyWithdraw(db, r, plan).Ok?
    ensures Footprint(db, ApplyWithdraw(db, r, plan).value, r, t)
  {
    WithdrawWrites(db, r, plan);
    ApplyPlanExtends(db, r, plan, 0);
    var after := ApplyWithdraw(db, r, plan).value;
    forall holder: nat | holder != t.holder ensures LotsSpared(db, after, holder) {
      SparedByTaking(db, after, t.holder, plan.account, INCOME, plan.allocations, holder);
    }
  }

  lemma ProceedFootprint(db: Db, r: Request, t: Targets, now: int)
    requires ProductInv(db) && Prepared(db, r, t) && Matching(r, t) && Decide(db, r, t).Proceed?
    requires PlanFits(r, Decide(db, r, t).plan) && ApplyPlan(db, r, Decide(db, r, t).plan, now).Ok?
    ensures Footprint(db, ApplyPlan(db, r, Decide(db, r, t).plan, now).value, r, t)
  {
    hide Footprint, ProductInv, ApplyCharge, ApplyCheckout, ApplySettle, ApplyWithdraw, DecideCharge, DecideCheckout,
         DecideSettle, DecideWithdraw, CheckoutReady, SettleReady, WithdrawReady, ChargeReady;
    var plan := Decide(db, r, t).plan;
    match r
    case ChargeRequest(_, _, _, _) => ChargeDecided(db, r, t.holder); ChargeFootprint(db, r, t, plan, now);
    case CheckoutRequest(_, _, _) => CheckoutDecided(db, r, t); CheckoutFootprint(db, r, t, plan);
    case SettleRequest(_, _, _) => SettleDecided(db, r, t); SettleFootprint(db, r, t, plan, now);
    case WithdrawRequest(_, _, _) => WithdrawDecided(db, r, t.holder); WithdrawFootprint(db, r, t, plan);
  }

  lemma NothingWritten(db: Db, r: Request, t: Targets)
    ensures Footprint(db, db, r, t)
  {
  }

  /** Whatever a transaction commits stays within its footprint. */
  lemma ExecFootprint(db: Db, r: Request, t: Targets, now: int)
    requires Inv(db) && Prepared(db, r, t) && Matching(r, t) && Exec(db, r, t, now).Ok?
    ensures Footprint(db, Exec(db, r, t, now).value.0, r, t)
  {
    hide Decide, ApplyAlias, ApplyPlan, LoadReceipt, Inv, Footprint;
    DecideFits(db, r, t);
    match Decide(db, r, t)
    case Reject(_) =>
    case Replay(_) => NothingWritten(db, r, t);
    case Alias(c) => AliasFootprint(db, r, t, c);
    case Proceed(plan) =>
      ProductOf(db);
      ProceedFootprint(db, r, t, now);
  }

  // ----- Decisions outside the footprint -----

  lemma FoundCommandSame(a: Db, b: Db, r: Request, t: Targets, other: Request, otherTargets: Targets)
    requires CommandsOnlyFor(a, b, other) && Apart(r, t, other, otherTargets)
    ensures FindCommand(b, r.actor, KindOf(r), r.key) == FindCommand(a, r.actor, KindOf(r), r.key)
    ensures SubjectOf(r).Some? ==>
              FindCompleted(b, FlowKindOf(KindOf(r)), KindOf(r), SubjectOf(r).value)
              == FindCompleted(a, FlowKindOf(KindOf(r)), KindOf(r), SubjectOf(r).value)
  {
    FirstExtends(a.commands, b.commands, (c: Command) => c.principal == r.actor && c.kind == KindOf(r) && c.key == r.key);
    if SubjectOf(r).Some? {
      FirstExtends(a.commands, b.commands, (c: Command) =>
        c.subject == SubjectOf(r).value && c.flowKind == FlowKindOf(KindOf(r)) && c.kind == KindOf(r) && c.result.Some?);
    }
  }

  lemma FoundAccountSame(a: Db, b: Db, holder: nat, currency: Currency, purpose: Purpose)
    requires OnlyEscrowsAdded(a, b)
    ensures FindAccount(b, holder, currency, purpose) == FindAccount(a, holder, currency, purpose)
    ensures FindAccount(a, holder, currency, purpose).Some? ==>
              OwnedByHolder(a, FindAccount(a, holder, currency, purpose).value, holder)
  {
    FirstExtends(a.accounts, b.accounts, (x: Account) => x == Account(currency, purpose, HolderOwner(holder)));
  }

  lemma LoadedSame(a: Db, b: Db, holder: nat, currency: Currency)
    requires OnlyEscrowsAdded(a, b) && LotsSpared(a, b, holder)
    ensures FindAccount(b, holder, currency, AvailableAccount) == FindAccount(a, holder, currency, AvailableAccount)
    ensures var account := FindAccount(a, holder, currency, AvailableAccount);
            account.Some? ==> LoadLots(b.lots, account.value, currency) == LoadLots(a.lots, account.value, currency)
  {
    FoundAccountSame(a, b, holder, currency, AvailableAccount);
    var account := FindAccount(a, holder, currency, AvailableAccount);
    if account.Some? {
      SameLoad(a.lots, b.lots, account.value, currency);
    }
  }

  lemma PreparedMatches(db: Db, r: Request, t: Targets)
    requires Prepared(db, r, t)
    ensures Matching(r, t)
  {
  }

  lemma PreparedStable(a: Db, b: Db, r: Request, t: Targets)
    requires Extends(a, b) && Prepared(a, r, t)
    ensures Prepared(b, r, t)
  {
  }

  lemma ChargeSame(a: Db, b: Db, r: Request, t: Targets, other: Request, otherTargets: Targets)
    requires r.ChargeRequest? && t.ChargeTargets?
    requires Footprint(a, b, other, otherTargets) && Apart(r, t, other, otherTargets)
    ensures DecideCharge(b, r, t.holder) == DecideCharge(a, r, t.holder)
  {
    FoundCommandSame(a, b, r, t, other, otherTargets);
    FoundAccountSame(a, b, t.holder, POINT, AvailableAccount);
  }

  lemma WithdrawSame(a: Db, b: Db, r: Request, t: Targets, other: Request, otherTargets: Targets)
    requires r.WithdrawRequest? && t.WithdrawTargets?
    requires Footprint(a, b, other, otherTargets) && Apart(r, t, other, otherTargets)
    ensures DecideWithdraw(b, r, t.holder) == DecideWithdraw(a, r, t.holder)
  {
    hide LoadLots, LotsSpared, SameFor, LotsMove;
    FoundCommandSame(a, b, r, t, other, otherTargets);
    LoadedSame(a, b, t.holder, INCOME);
  }

  /** The order, payment and slot a checkout reads are not written by a checkout of another payment and slot. */
  lemma CheckoutRowsSame(a: Db, b: Db, r: Request, t: Targets, other: Request, otherTargets: Targets)
    requires r.CheckoutRequest? && Prepared(a, r, t) && Footprint(a, b, other, otherTargets) && Apart(r, t, other, otherTargets)
    requires Matching(other, otherTargets)
    ensures t.CheckoutTargets? && r.payment < |a.payments| && a.payments[r.payment].order < |a.orders|
    ensures |b.payments| == |a.payments| && |b.orders| == |a.orders| && |b.slots| == |a.slots|
    ensures b.payments[r.payment] == a.payments[r.payment]
    ensures b.orders[a.payments[r.payment].order] == a.orders[a.payments[r.payment].order]
    ensures var slot := a.orders[a.payments[r.payment].order].slot;
            slot < |a.slots| ==> b.slots[slot] == a.slots[slot]
  {
    hide LotsSpared, CommandsOnlyFor, OnlyEscrowsAdded, LotsMove, ReservationsMove;
  }

  lemma CheckoutSame(a: Db, b: Db, r: Request, t: Targets, other: Request, otherTargets: Targets)
    requires r.CheckoutRequest? && Prepared(a, r, t) && Matching(other, otherTargets)
    requires Footprint(a, b, other, otherTargets) && Apart(r, t, other, otherTargets)
    ensures t.CheckoutTargets? && DecideCheckout(b, r, t) == DecideCheckout(a, r, t)
  {
    hide LoadLots, LotsSpared, SameFor, LotsMove;
    FoundCommandSame(a, b, r, t, other, otherTargets);
    CheckoutRowsSame(a, b, r, t, other, otherTargets);
    LoadedSame(a, b, t.holder, POINT);
    CheckoutPlanSame(a, b, r, t);
  }

  lemma CheckoutPlanSame(a: Db, b: Db, r: Request, t: Targets)
    requires r.CheckoutRequest? && t.CheckoutTargets?
    requires r.payment < |a.payments| && a.payments[r.payment].order < |a.orders|
    requires |b.payments| == |a.payments| && |b.orders| == |a.orders| && |b.slots| == |a.slots| && b.types == a.types
    requires b.holders == a.holders
    requires b.payments[r.payment] == a.payments[r.payment]
    requires b.orders[a.payments[r.payment].order] == a.orders[a.payments[r.payment].order]
    requires var slot := a.orders[a.payments[r.payment].order].slot;
             slot < |a.slots| ==> b.slots[slot] == a.slots[slot]
    requires FindAccount(b, t.holder, POINT, AvailableAccount) == FindAccount(a, t.holder, POINT, AvailableAccount)
    requires var account := FindAccount(a, t.holder, POINT, AvailableAccount);
             account.Some? ==> LoadLots(b.lots, account.value, POINT) == LoadLots(a.lots, account.value, POINT)
    ensures PlanCheckout(b, r, t) == PlanCheckout(a, r, t)
  {
    hide LoadLots, FindAccount, PlanDraws, Payable;
  }

  /** A contract's paid order, its funding and the settlement accounts outlive other commits. */
  lemma SettleFactsSame(a: Db, b: Db, k: nat)
    requires Inv(a) && Inv(b) && Extends(a, b) && k < |a.contracts|
    requires k < |a.links| && a.links[k].reservation < |a.reservations| <= |b.reservations|
    requires b.reservations[a.links[k].reservation] == a.reservations[a.links[k].reservation]
    ensures LoadPaidOrder(a, a.contracts[k]) == Some((a.links[k].payment, k))
    ensures LoadPaidOrder(b, b.contracts[k]) == LoadPaidOrder(a, a.contracts[k]) && b.contracts[k] == a.contracts[k]
    ensures a.contracts[k].order < |a.orders| && a.links[k].payment < |a.payments| && k < |a.links|
    ensures LoadFunding(b, a.contracts[k], a.links[k].payment, k) == LoadFunding(a, a.contracts[k], a.links[k].payment, k)
  {
    hide CommandsInv, LotsInv, SettlementInv, WithdrawalsInv, OwnersInv, EffectsInv, Conserved, LotsMove;
    assert Formed(a, k) && Formed(b, k);
    assert b.links[k] == a.links[k];
    PaidOrderIsLinked(a, k);
    PaidOrderIsLinked(b, k);
    var r := a.links[k].reservation;
    EscrowOfHold(a, r);
    EscrowOfHold(b, r);
    TransferOfReservation(a, r);
    TransferOfReservation(b, r);
    assert b.transfers[r] == a.transfers[r];
    FundingSame(a, b, k);
  }

  lemma FundingSame(a: Db, b: Db, k: nat)
    requires Extends(a, b) && k < |a.links| && k < |a.contracts|
    requires Formed(a, k) && Formed(b, k) && b.links[k] == a.links[k] && b.contracts[k] == a.contracts[k]
    requires b.reservations[a.links[k].reservation] == a.reservations[a.links[k].reservation]
    requires FindEscrow(b, a.links[k].reservation) == FindEscrow(a, a.links[k].reservation)
    requires FindTransfer(a, a.links[k].reservation) == Some(a.links[k].reservation)
    requires FindTransfer(b, a.links[k].reservation) == Some(a.links[k].reservation)
    ensures LoadFunding(b, a.contracts[k], a.links[k].payment, k) == LoadFunding(a, a.contracts[k], a.links[k].payment, k)
  {
    hide FindEscrow, FindTransfer, LotsMove;
    var x := a.links[k].reservation;
    assert b.transfers[x] == a.transfers[x];
    var act := a.transfers[x].action;
    assert b.actions[act] == a.actions[act];
    var op := a.actions[act].operation;
    assert b.operations[op] == a.operations[op];
    assert b.commands[a.operations[op].command] == a.commands[a.operations[op].command];
  }

  lemma AccountsSame(a: Db, b: Db, worker: nat)
    requires OnlyEscrowsAdded(a, b) && b.holders == a.holders
    ensures LoadAccounts(b, worker) == LoadAccounts(a, worker)
  {
    var platform := FindHolder(a, PlatformBinding);
    if platform.Some? {
      FoundAccountSame(a, b, platform.value, POINT, SettledAccount);
      FoundAccountSame(a, b, platform.value, INCOME, IssuerAccount);
      FoundAccountSame(a, b, worker, INCOME, AvailableAccount);
    }
  }

  /** The hold of one contract is settled by nobody else. */
  lemma HoldSame(a: Db, b: Db, r: Request, t: Targets, other: Request, otherTargets: Targets)
    requires ProductInv(a) && r.SettleRequest? && r.contract < |a.contracts|
    requires Footprint(a, b, other, otherTargets) && Apart(r, t, other, otherTargets)
    ensures r.contract < |a.links| && a.links[r.contract].reservation < |a.reservations| <= |b.reservations|
    ensures b.reservations[a.links[r.contract].reservation] == a.reservations[a.links[r.contract].reservation]
  {
    assert Formed(a, r.contract);
  }

  lemma SettlePlanSame(a: Db, b: Db, r: Request, t: Targets)
    requires r.SettleRequest? && t.SettleTargets? && r.contract < |a.contracts| && r.contract < |b.contracts|
    requires b.contracts[r.contract] == a.contracts[r.contract] && b.holders == a.holders
    requires r.contract < |a.links| && a.contracts[r.contract].order < |a.orders| && |b.orders| == |a.orders|
    requires a.links[r.contract].payment < |a.payments| && |b.payments| == |a.payments| && r.contract < |b.links|
    requires LoadPaidOrder(a, a.contracts[r.contract]) == Some((a.links[r.contract].payment, r.contract))
    requires LoadPaidOrder(b, a.contracts[r.contract]) == Some((a.links[r.contract].payment, r.contract))
    requires LoadFunding(b, a.contracts[r.contract], a.links[r.contract].payment, r.contract)
          == LoadFunding(a, a.contracts[r.contract], a.links[r.contract].payment, r.contract)
    requires forall worker :: LoadAccounts(b, worker) == LoadAccounts(a, worker)
    ensures PlanSettle(b, r, t) == PlanSettle(a, r, t)
  {
    hide LoadFunding, LoadAccounts, LoadPaidOrder, Settleable;
  }

  lemma SettleFromPlan(a: Db, b: Db, r: Request, t: Targets)
    requires r.SettleRequest? && t.SettleTargets? && a.commands <= b.commands && PlanSettle(b, r, t) == PlanSettle(a, r, t)
    requires FindCommand(b, r.actor, SETTLE, r.key) == FindCommand(a, r.actor, SETTLE, r.key)
    requires FindCompleted(b, COMMISSION, SETTLE, ContractSubject(r.contract))
          == FindCompleted(a, COMMISSION, SETTLE, ContractSubject(r.contract))
    ensures DecideSettle(b, r, t) == DecideSettle(a, r, t)
  {
    hide PlanSettle;
  }

  lemma SettleSame(a: Db, b: Db, r: Request, t: Targets, other: Request, otherTargets: Targets)
    requires Inv(a) && Inv(b) && r.SettleRequest? && Prepared(a, r, t)
    requires Footprint(a, b, other, otherTargets) && Apart(r, t, other, otherTargets)
    ensures t.SettleTargets? && DecideSettle(b, r, t) == DecideSettle(a, r, t)
  {
    hide Inv, PlanSettle, LotsMove, LotsSpared, FindCommand, FindCompleted, DecideSettle, CommandsOnlyFor, LoadPaidOrder,
         LoadFunding;
    ProductOf(a);
    hide ProductInv;
    FoundCommandSame(a, b, r, t, other, otherTargets);
    HoldSame(a, b, r, t, other, otherTargets);
    SettleFactsSame(a, b, r.contract);
    forall worker ensures LoadAccounts(b, worker) == LoadAccounts(a, worker) {
      AccountsSame(a, b, worker);
    }
    SettlePlanSame(a, b, r, t);
    SettleFromPlan(a, b, r, t);
  }

  /** A commit under other locks does not change what a prepared transaction decides, or what its look-ups find. */
  lemma DecisionFramed(a: Db, b: Db, r: Request, t: Targets, other: Request, otherTargets: Targets)
    requires Inv(a) && Inv(b) && Prepared(a, r, t) && Matching(other, otherTargets)
    requires Footprint(a, b, other, otherTargets) && Apart(r, t, other, otherTargets)
    ensures Matching(r, t) && Prepared(b, r, t)
    ensures Decide(b, r, t) == Decide(a, r, t)
    ensures NewCommand(b, r) <==> NewCommand(a, r)
  {
    hide Inv, DecideCharge, DecideCheckout, DecideSettle, DecideWithdraw, Prepare;
    PreparedMatches(a, r, t);
    PreparedStable(a, b, r, t);
    FoundCommandSame(a, b, r, t, other, otherTargets);
    match r
    case ChargeRequest(_, _, _, _) => ChargeSame(a, b, r, t, other, otherTargets);
    case CheckoutRequest(_, _, _) => CheckoutSame(a, b, r, t, other, otherTargets);
    case SettleRequest(_, _, _) => SettleSame(a, b, r, t, other, otherTargets);
    case WithdrawRequest(_, _, _) => WithdrawSame(a, b, r, t, other, otherTargets);
  }
}
