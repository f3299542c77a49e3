/**
 Every transaction that commits keeps the invariant.

 Each use-case gets one lemma per group of tables: the tables it leaves alone by the `...Untouched` lemmas,
 the ones it appends to by an `...Added` lemma, and the sums by the laws of `LedgerStable`.  A checkout and a
 withdrawal share `Reserved`, the one description of taking lots into escrow.
 */
module LedgerKeeps {
  import opened Prelude
  import opened ReservationPlans
  import opened LedgerTables
  import opened LotQueue
  import opened LedgerUseCases
  import opened LedgerHistory
  import opened LedgerInvariant
  import opened LedgerStable
  import opened LedgerPlans

  // ----- Commands -----

  ghost predicate FreshKey(commands: seq<Command>, row: Command) {
    forall i :: 0 <= i < |commands| ==> !SameKey(commands[i], row)
  }

  ghost predicate FreshSubject(commands: seq<Command>, row: Command) {
    forall i :: 0 <= i < |commands| ==> !(commands[i].kind == row.kind && commands[i].subject == row.subject)
  }

  /** A new command with its operation, and at most one action of that operation. */
  ghost predicate CommandAdded(a: Db, b: Db, row: Command) {
    && Extends(a, b) && b.commands == a.commands + [row]
    && b.operations == a.operations + [Operation(row.flow, row.kind, |a.commands|)]
    && row.result == Some(|a.operations|)
    && (b.actions == a.actions || b.actions == a.actions + [TransferAction(|a.operations|, row.flow, row.kind)])
    && row.flow < |b.flows| && b.flows[row.flow].kind == row.flowKind == FlowKindOf(row.kind)
    && KindFits(row) && FreshKey(a.commands, row) && FreshSubject(a.commands, row)
  }

  lemma CommandAddedKeeps(a: Db, b: Db, row: Command)
    requires CommandsInv(a) && CommandAdded(a, b, row)
    ensures CommandsInv(b)
  {
    forall i | 0 <= i < |b.commands| ensures CommandOk(b, i) {
      if i < |a.commands| { CommandStable(a, b, i); }
    }
    forall op | 0 <= op < |b.operations| ensures OperationOk(b, op) {
      if op < |a.operations| { OperationStable(a, b, op); }
    }
    forall x | 0 <= x < |b.actions| ensures ActionOk(b, x) {
      if x < |a.actions| { ActionStable(a, b, x); }
    }
  }

  lemma AliasAddedKeeps(a: Db, row: Command, c: nat)
    requires CommandsInv(a) && c < |a.commands| && FreshKey(a.commands, row)
    requires row == a.commands[c].(key := row.key) && row.kind != CHARGE
    ensures CommandsInv(AfterAlias(a, row)) && Extends(a, AfterAlias(a, row))
  {
    var b := AfterAlias(a, row);
    assert CommandOk(a, c);
    forall i | 0 <= i < |b.commands| ensures CommandOk(b, i) {
      if i < |a.commands| { CommandStable(a, b, i); }
    }
    forall op | 0 <= op < |b.operations| ensures OperationOk(b, op) { OperationStable(a, b, op); }
    forall x | 0 <= x < |b.actions| ensures ActionOk(b, x) { ActionStable(a, b, x); }
  }

  /** A look-up that found nothing says the key, or the subject, is new. */
  lemma NewCommandIsFresh(db: Db, r: Request, row: Command)
    requires CommandsInv(db) && NewCommand(db, r)
    requires row.principal == r.actor && row.kind == KindOf(r) && row.key == r.key
    ensures FreshKey(db.commands, row)
    ensures SubjectOf(r) == Some(row.subject) ==> FreshSubject(db.commands, row)
  {
    if SubjectOf(r) == Some(row.subject) {
      forall i | 0 <= i < |db.commands|
        ensures !(db.commands[i].kind == row.kind && db.commands[i].subject == row.subject)
      {
        assert CommandOk(db, i);
      }
    }
  }

  // ----- Tables a transaction leaves alone -----

  lemma HoldsUntouched(a: Db, b: Db)
    requires HoldsInv(a) && Extends(a, b)
    requires |b.reservations| == |a.reservations| && b.transfers == a.transfers
    requires b.accounts == a.accounts && b.allocations == a.allocations
    ensures HoldsInv(b)
  {
    forall t | 0 <= t < |b.transfers| ensures TransferOk(b, t) { TransferStable(a, b, t); }
    forall i | 0 <= i < |b.accounts| ensures EscrowOk(b, i) { EscrowStable(a, b, i); }
  }

  lemma ProductUntouched(a: Db, b: Db)
    requires ProductInv(a) && Extends(a, b)
    requires b.orders == a.orders && b.payments == a.payments && b.slots == a.slots
    requires b.contracts == a.contracts && b.links == a.links
    ensures ProductInv(b)
  {
    forall k | 0 <= k < |b.contracts| ensures Formed(b, k) { FormedStable(a, b, k); }
    forall o ensures HasContract(b, o) <==> HasContract(a, o) {}
    forall p ensures HasLink(b, p) <==> HasLink(a, p) {}
    forall s ensures SlotTaken(b, s) <==> SlotTaken(a, s) {}
  }

  lemma SettlementUntouched(a: Db, b: Db)
    requires SettlementInv(a) && Extends(a, b) && b.swaps == a.swaps && b.legs == a.legs
    requires a.reservations <= b.reservations
    requires forall r :: |a.reservations| <= r < |b.reservations| ==> b.reservations[r].state == HELD
    ensures SettlementInv(b)
  {
    forall s | 0 <= s < |b.swaps| ensures SwapOk(b, s) && b.swaps[s].reservation < |a.reservations| {
      assert SwapOk(a, s);
      SwapStable(a, b, s);
    }
    forall r | 0 <= r < |b.reservations| ensures b.reservations[r].state == SETTLED <==> HasSwap(b, r) {
      if r < |a.reservations| {
        assert HasSwap(b, r) <==> HasSwap(a, r);
      }
    }
  }

  lemma WithdrawalsUntouched(a: Db, b: Db)
    requires WithdrawalsInv(a) && Extends(a, b) && b.withdrawals == a.withdrawals
    requires forall r :: 0 <= r < |a.reservations| && a.reservations[r].purpose == IncomeWithdrawal ==>
               b.reservations[r] == a.reservations[r]
    ensures WithdrawalsInv(b)
  {
    forall w | 0 <= w < |b.withdrawals| ensures WithdrawalOk(b, w) { assert WithdrawalOk(a, w); }
  }

  lemma OwnersUntouched(a: Db, b: Db)
    requires OwnersInv(a) && Extends(a, b) && |b.reservations| == |a.reservations|
    ensures OwnersInv(b)
  {
    forall r | 0 <= r < |b.reservations| ensures HoldOwned(b, r) { HoldOwnedStable(a, b, r); }
  }

  lemma EffectsExtended(a: Db, b: Db)
    requires EffectsInv(a) && Extends(a, b)
    ensures forall i :: 0 <= i < |a.commands| ==> EffectOk(b, i)
  {
    forall i | 0 <= i < |a.commands| ensures EffectOk(b, i) { EffectStable(a, b, i); }
  }

  // ----- Alias -----

  lemma AliasKeeps(db: Db, r: Request, c: nat)
    requires Inv(db) && c < |db.commands| && ApplyAlias(db, r, c).Ok?
    requires AliasRow(db, r, c) == db.commands[c].(key := r.key) && !r.ChargeRequest?
    ensures ApplyAlias(db, r, c).value == AfterAlias(db, AliasRow(db, r, c))
    ensures Inv(ApplyAlias(db, r, c).value) && Extends(db, ApplyAlias(db, r, c).value)
  {
    var row := AliasRow(db, r, c);
    var b := AfterAlias(db, row);
    assert FreshKey(db.commands, row);
    AliasAddedKeeps(db, row, c);
    HoldsUntouched(db, b);
    ProductUntouched(db, b);
    SettlementUntouched(db, b);
    WithdrawalsUntouched(db, b);
    OwnersUntouched(db, b);
    LotsUntouched(db, b);
    EffectsExtended(db, b);
    AliasEffect(db, b, c);
  }

  lemma LotsUntouched(a: Db, b: Db)
    requires LotsInv(a) && Extends(a, b) && b.lots == a.lots && b.allocations == a.allocations
    ensures LotsInv(b)
  {
    forall x | 0 <= x < |b.allocations| ensures AllocationOk(b, x) { AllocationStable(a, b, x); }
    forall l | 0 <= l < |b.lots| ensures LotConserved(b, l) && LotSourced(b, l) {
      assert LotConserved(a, l);
      LotSourcedStable(a, b, l);
    }
  }

  lemma AliasEffect(a: Db, b: Db, c: nat)
    requires EffectsInv(a) && Extends(a, b) && c < |a.commands| && |b.commands| == |a.commands| + 1
    requires b.commands[|a.commands|].(key := "") == a.commands[c].(key := "")
    ensures EffectOk(b, |a.commands|)
  {
    EffectStable(a, b, c);
    var i := |a.commands|;
    assert b.commands[c] == a.commands[c];
    match b.commands[c].kind
    case PAY =>
      var k: nat :| PaidBy(b, c, k);
      assert PaidBy(b, i, k);
    case SETTLE =>
      var s: nat :| SettledBy(b, c, s);
      assert SettledBy(b, i, s);
    case CHARGE =>
      var l: nat :| ChargedBy(b, c, l);
      assert ChargedBy(b, i, l);
    case WITHDRAW =>
      var w: nat :| WithdrawnBy(b, c, w);
      assert WithdrawnBy(b, i, w);
    case _ =>
  }

  // ----- Charge -----

  lemma ChargeKeeps(db: Db, r: Request, plan: Plan, now: int)
    requires Inv(db) && ChargeReady(db, r, plan) && ApplyCharge(db, r, plan, now).Ok?
    ensures Inv(AfterCharge(db, r, plan, now)) && Extends(db, AfterCharge(db, r, plan, now))
  {
    hide HoldsInv, LotsInv, ProductInv, SettlementInv, WithdrawalsInv, OwnersInv, Conserved;
    var b := AfterCharge(db, r, plan, now);
    var row := CommandRow(db, r, |db.flows|, ExternalPaymentSubject(r.externalPaymentId), |db.operations|);
    ChargeWrites(db, r, plan, now);
    NewCommandIsFresh(db, r, row);
    CommandAddedKeeps(db, b, row);
    HoldsUntouched(db, b);
    ProductUntouched(db, b);
    SettlementUntouched(db, b);
    WithdrawalsUntouched(db, b);
    OwnersUntouched(db, b);
    LotAdded(db, b, PointLot(plan.account, r.amount, |db.operations|, |db.flows|, now));
    EffectsExtended(db, b);
    assert ChargedBy(b, |db.commands|, |db.lots|);
    MintedTotals(db, b, PointLot(plan.account, r.amount, |db.operations|, |db.flows|, now));
  }

  lemma MintedTotals(a: Db, b: Db, lot: Lot)
    requires Conserved(a) && b.lots == a.lots + [lot] && b.reservations == a.reservations
    requires lot.currency == POINT && lot.original == lot.remaining
    ensures Conserved(b)
  {
    LotTotalsAppend(a.lots, lot, POINT);
    LotTotalsAppend(a.lots, lot, INCOME);
  }

  /** A freshly issued lot: nothing drawn, and an operation and swap of its own. */
  lemma LotAdded(a: Db, b: Db, lot: Lot)
    requires LotsInv(a) && Extends(a, b) && b.lots == a.lots + [lot] && b.allocations == a.allocations
    requires lot.original == lot.remaining && lot.source.Some?
    requires lot.source.value.operation == |a.operations| < |b.operations|
    requires lot.currency == INCOME ==> lot.source.value.flowKind == COMMISSION && lot.swap.Some?
    requires lot.currency == POINT ==> lot.source.value.flowKind == POINT_CHARGE && lot.source.value.kind == CHARGE
    requires lot.swap.Some? ==> lot.swap.value == |a.swaps| < |b.swaps|
    ensures LotsInv(b)
  {
    forall x | 0 <= x < |b.allocations| ensures AllocationOk(b, x) { AllocationStable(a, b, x); }
    forall l | 0 <= l < |b.lots| ensures LotConserved(b, l) && LotSourced(b, l) {
      if l < |a.lots| {
        assert LotConserved(a, l);
        LotSourcedStable(a, b, l);
      } else {
        forall x | 0 <= x < |a.allocations| ensures a.allocations[x].lot != l { assert AllocationOk(a, x); }
        NothingDrawn(a.allocations, l, 0);
      }
    }
    forall i, j | 0 <= i < j < |b.lots|
      ensures !(b.lots[i].source.Some? && b.lots[j].source.Some? && b.lots[i].source.value.operation == b.lots[j].source.value.operation)
      ensures !(b.lots[i].swap.Some? && b.lots[i].swap == b.lots[j].swap)
    {
      assert LotSourced(a, i);
    }
  }

  // ----- Settle -----

  lemma SettleKeeps(db: Db, r: Request, plan: Plan, now: int)
    requires Inv(db) && SettleReady(db, r, plan) && ApplySettle(db, r, plan, now).Ok?
    ensures plan.reservation < |db.reservations|
    ensures Inv(AfterSettle(db, r, plan, now)) && Extends(db, AfterSettle(db, r, plan, now))
  {
    SettleWrites(db, r, plan, now);
    ApplyPlanExtends(db, r, plan, now);
    var b := AfterSettle(db, r, plan, now);
    SettleCommand(db, r, plan, now);
    SettleTables(db, r, plan, now);
    SwapAdded(db, r, plan, now);
    SettleEffects(db, r, plan, now);
    SettleTotals(db, r, plan, now);
  }

  lemma SettleCommand(db: Db, r: Request, plan: Plan, now: int)
    requires Inv(db) && SettleReady(db, r, plan) && ApplySettle(db, r, plan, now).Ok?
    requires Extends(db, AfterSettle(db, r, plan, now))
    ensures CommandsInv(AfterSettle(db, r, plan, now))
  {
    var row := CommandRow(db, r, plan.flow, ContractSubject(r.contract), |db.operations|);
    SettleWrites(db, r, plan, now);
    NewCommandIsFresh(db, r, row);
    CommandAddedKeeps(db, AfterSettle(db, r, plan, now), row);
  }

  lemma SettleTables(db: Db, r: Request, plan: Plan, now: int)
    requires Inv(db) && SettleReady(db, r, plan) && ApplySettle(db, r, plan, now).Ok?
    requires Extends(db, AfterSettle(db, r, plan, now))
    ensures var b := AfterSettle(db, r, plan, now);
            HoldsInv(b) && ProductInv(b) && WithdrawalsInv(b) && OwnersInv(b) && LotsInv(b)
  {
    hide CommandsInv, HoldsInv, LotsInv, SettlementInv, OwnersInv, EffectsInv, Conserved, Extends;
    var b := AfterSettle(db, r, plan, now);
    SettleWrites(db, r, plan, now);
    assert Formed(db, r.contract);
    HoldsUntouched(db, b);
    ProductUntouched(db, b);
    WithdrawalsUntouched(db, b);
    OwnersUntouched(db, b);
    LotAdded(db, b, IncomeLot(plan, |db.operations|, |db.swaps|, now));
  }

  lemma SettleEffects(db: Db, r: Request, plan: Plan, now: int)
    requires Inv(db) && SettleReady(db, r, plan) && ApplySettle(db, r, plan, now).Ok?
    requires Extends(db, AfterSettle(db, r, plan, now))
    ensures EffectsInv(AfterSettle(db, r, plan, now))
  {
    var b := AfterSettle(db, r, plan, now);
    SettleWrites(db, r, plan, now);
    EffectsExtended(db, b);
    assert SettledBy(b, |db.commands|, |db.swaps|);
  }

  lemma SettleTotals(db: Db, r: Request, plan: Plan, now: int)
    requires Inv(db) && SettleReady(db, r, plan) && ApplySettle(db, r, plan, now).Ok?
    ensures Conserved(AfterSettle(db, r, plan, now))
  {
    hide CommandsInv, HoldsInv, LotsInv, SettlementInv, OwnersInv, EffectsInv, WithdrawalsInv;
    assert Formed(db, r.contract);
    LotTotalsAppend(db.lots, IncomeLot(plan, |db.operations|, |db.swaps|, now), POINT);
    LotTotalsAppend(db.lots, IncomeLot(plan, |db.operations|, |db.swaps|, now), INCOME);
    HoldsSettle(db.reservations, plan.reservation, POINT);
    HoldsSettle(db.reservations, plan.reservation, INCOME);
  }

  lemma SwapAdded(db: Db, r: Request, plan: Plan, now: int)
    requires Inv(db) && SettleReady(db, r, plan) && ApplySettle(db, r, plan, now).Ok?
    requires Extends(db, AfterSettle(db, r, plan, now))
    ensures SettlementInv(AfterSettle(db, r, plan, now))
  {
    hide CommandsInv, HoldsInv, LotsInv, ProductInv, WithdrawalsInv, OwnersInv, EffectsInv, Conserved;
    var b := AfterSettle(db, r, plan, now);
    SettleWrites(db, r, plan, now);
    var n := |db.swaps|;
    forall s | 0 <= s < |b.swaps| ensures SwapOk(b, s) {
      if s < n {
        SwapStable(db, b, s);
      } else {
        assert LinkOfSwap(b, s, r.contract) && LotOfSwap(b, s, |db.lots|);
      }
    }
    assert b.swaps[n].reservation == plan.reservation;
    forall h | 0 <= h < |b.reservations| ensures b.reservations[h].state == SETTLED <==> HasSwap(b, h) {
      if HasSwap(db, h) {
        var s: nat :| 0 <= s < n && db.swaps[s].reservation == h;
        assert b.swaps[s].reservation == h;
      }
      if HasSwap(b, h) && h != plan.reservation {
        var s: nat :| 0 <= s < |b.swaps| && b.swaps[s].reservation == h;
        assert s < n && db.swaps[s].reservation == h;
      }
    }
  }

  // ----- Reserving, for a checkout or a withdrawal -----

  /** One more hold, filled by one transfer from an available account into a fresh escrow account. */
  ghost predicate Reserved(a: Db, b: Db, hold: Reservation, account: nat, allocations: seq<Allocation>) {
    && Extends(a, b) && hold.state == HELD
    && SpendableAccount(a, account, hold.holder, hold.currency)
    && Funds(a, account, hold.currency, allocations, hold.target)
    && TakeAll(a.lots, account, hold.currency, allocations) == Some(b.lots)
    && b.reservations == a.reservations + [hold]
    && b.accounts == a.accounts + [Account(hold.currency, EscrowAccount, ReservationOwner(|a.reservations|))]
    && b.transfers == a.transfers + [Transfer(|a.reservations|, hold.flow, hold.currency, account, |a.accounts|,
                                              hold.target, |a.actions|)]
    && |b.actions| > |a.actions|
    && b.allocations == a.allocations + AllocationRows(|a.transfers|, account, hold.currency, allocations)
    && b.swaps == a.swaps && b.legs == a.legs
  }

  lemma ReservedHolds(a: Db, b: Db, hold: Reservation, account: nat, allocations: seq<Allocation>)
    requires HoldsInv(a) && LotsInv(a) && Reserved(a, b, hold, account, allocations)
    ensures HoldsInv(b)
  {
    var n := |a.transfers|;
    forall t | 0 <= t < |b.transfers| ensures TransferOk(b, t) {
      if t < n { TransferStable(a, b, t); }
    }
    forall i | 0 <= i < |b.accounts| ensures EscrowOk(b, i) {
      if i < |a.accounts| { EscrowStable(a, b, i); }
    }
    forall t | 0 <= t < |b.transfers| ensures DrawnByTransfer(b.allocations, t) == b.transfers[t].amount {
      AllocationRowsDrawn(a.allocations, n, account, hold.currency, allocations, 0, t);
      if t == n {
        forall x | 0 <= x < |a.allocations| ensures a.allocations[x].transfer != n { assert AllocationOk(a, x); }
        NothingTransferred(a.allocations, n);
      }
    }
  }

  lemma ReservedLots(a: Db, b: Db, hold: Reservation, account: nat, allocations: seq<Allocation>)
    requires HoldsInv(a) && LotsInv(a) && Reserved(a, b, hold, account, allocations)
    ensures LotsInv(b)
  {
    var n := |a.transfers|;
    TakeAllMoves(a.lots, account, hold.currency, allocations);
    forall x | 0 <= x < |b.allocations| ensures AllocationOk(b, x) {
      if x < |a.allocations| {
        AllocationStable(a, b, x);
      } else {
        TakeAllOwn(a.lots, account, hold.currency, allocations, x - |a.allocations|);
      }
    }
    forall l | 0 <= l < |b.lots| ensures LotConserved(b, l) && LotSourced(b, l) {
      assert LotConserved(a, l);
      LotSourcedStable(a, b, l);
      TakeAllEach(a.lots, account, hold.currency, allocations, l);
      AllocationRowsDrawn(a.allocations, n, account, hold.currency, allocations, l, 0);
    }
    LotsStayDistinct(a.lots, b.lots);
  }

  lemma LotsStayDistinct(a: seq<Lot>, b: seq<Lot>)
    requires LotsDistinct(a) && LotsMove(a, b) && |a| == |b|
    ensures LotsDistinct(b)
  {
  }

  lemma ReservedTotals(a: Db, b: Db, hold: Reservation, account: nat, allocations: seq<Allocation>)
    requires Conserved(a) && Reserved(a, b, hold, account, allocations)
    ensures Conserved(b)
  {
    TakeAllTotals(a.lots, account, hold.currency, allocations, POINT);
    TakeAllTotals(a.lots, account, hold.currency, allocations, INCOME);
    HoldsAppend(a.reservations, hold, POINT, HELD);
    HoldsAppend(a.reservations, hold, POINT, SETTLED);
    HoldsAppend(a.reservations, hold, INCOME, HELD);
    HoldsAppend(a.reservations, hold, INCOME, SETTLED);
  }

  // ----- Withdraw -----

  lemma WithdrawKeeps(db: Db, r: Request, plan: Plan)
    requires Inv(db) && WithdrawReady(db, r, plan) && ApplyWithdraw(db, r, plan).Ok?
    ensures Inv(ApplyWithdraw(db, r, plan).value) && Extends(db, ApplyWithdraw(db, r, plan).value)
  {
    hide HoldsInv, LotsInv, ProductInv, SettlementInv, WithdrawalsInv, OwnersInv, EffectsInv, Conserved;
    WithdrawWrites(db, r, plan);
    ApplyPlanExtends(db, r, plan, 0);
    hide ApplyWithdraw, Extends;
    var b := ApplyWithdraw(db, r, plan).value;
    var f := |db.flows|;
    var row := CommandRow(db, r, f, WithdrawalSubject(f), |db.operations|);
    var hold := WithdrawalHold(r, plan, f);
    NewCommandIsFresh(db, r, row);
    forall i | 0 <= i < |db.commands| ensures !(db.commands[i].kind == WITHDRAW && db.commands[i].subject == row.subject) {
      assert CommandOk(db, i);
    }
    CommandAddedKeeps(db, b, row);
    ReservedHolds(db, b, hold, plan.account, plan.allocations);
    ReservedLots(db, b, hold, plan.account, plan.allocations);
    ReservedTotals(db, b, hold, plan.account, plan.allocations);
    ProductUntouched(db, b);
    SettlementUntouched(db, b);
    WithdrawalAdded(db, b);
    HoldAdded(db, b);
    WithdrawEffects(db, b, r, plan);
  }

  lemma WithdrawEffects(db: Db, b: Db, r: Request, plan: Plan)
    requires Inv(db) && WithdrawReady(db, r, plan) && ApplyWithdraw(db, r, plan) == Ok(b) && Extends(db, b)
    ensures EffectsInv(b)
  {
    hide CommandsInv, HoldsInv, LotsInv, ProductInv, SettlementInv, OwnersInv, WithdrawalsInv, Conserved;
    WithdrawWrites(db, r, plan);
    EffectsExtended(db, b);
    assert WithdrawnBy(b, |db.commands|, |db.withdrawals|);
  }

  lemma WithdrawalAdded(a: Db, b: Db)
    requires WithdrawalsInv(a) && Extends(a, b) && a.reservations <= b.reservations
    requires |b.withdrawals| == |a.withdrawals| + 1
    requires var x := b.withdrawals[|a.withdrawals|];
             x.reservation == |a.reservations| && x.flow == |a.flows| && WithdrawalOk(b, |a.withdrawals|)
    ensures WithdrawalsInv(b)
  {
    forall w | 0 <= w < |b.withdrawals| ensures WithdrawalOk(b, w) {
      if w < |a.withdrawals| { assert WithdrawalOk(a, w); }
    }
    forall i, j | 0 <= i < j < |b.withdrawals|
      ensures b.withdrawals[i].reservation != b.withdrawals[j].reservation && b.withdrawals[i].flow != b.withdrawals[j].flow
    {
      assert WithdrawalOk(a, i);
    }
  }

  /** The new hold belongs to the link or withdrawal added with it. */
  lemma HoldAdded(a: Db, b: Db)
    requires OwnersInv(a) && Extends(a, b) && |b.reservations| == |a.reservations| + 1
    requires var r := |a.reservations|;
             (b.reservations[r].purpose == CommissionPayment && |b.links| > |a.links| && b.links[|a.links|].reservation == r)
             || (b.reservations[r].purpose == IncomeWithdrawal && |b.withdrawals| > |a.withdrawals|
                 && b.withdrawals[|a.withdrawals|].reservation == r)
    ensures OwnersInv(b)
  {
    forall r | 0 <= r < |b.reservations| ensures HoldOwned(b, r) {
      if r < |a.reservations| {
        HoldOwnedStable(a, b, r);
      } else if b.reservations[r].purpose == CommissionPayment {
        assert b.links[|a.links|].reservation == r;
      } else {
        assert b.withdrawals[|a.withdrawals|].reservation == r;
      }
    }
  }

  // ----- Checkout -----

  lemma CheckoutKeeps(db: Db, r: Request, plan: Plan)
    requires Inv(db) && CheckoutReady(db, r, plan) && ApplyCheckout(db, r, plan).Ok?
    ensures Inv(ApplyCheckout(db, r, plan).value) && Extends(db, ApplyCheckout(db, r, plan).value)
  {
    ApplyPlanExtends(db, r, plan, 0);
    var b := ApplyCheckout(db, r, plan).value;
    CheckoutCommand(db, b, r, plan);
    CheckoutReserves(db, b, r, plan);
    CheckoutForms(db, b, r, plan);
    CheckoutTables(db, b, r, plan);
    CheckoutEffects(db, b, r, plan);
  }

  lemma CheckoutCommand(db: Db, b: Db, r: Request, plan: Plan)
    requires Inv(db) && CheckoutReady(db, r, plan) && ApplyCheckout(db, r, plan) == Ok(b) && Extends(db, b)
    ensures CommandsInv(b)
  {
    var row := CommandRow(db, r, plan.flow, OrderPaymentSubject(r.payment), |db.operations|);
    CheckoutWrites(db, r, plan);
    NewCommandIsFresh(db, r, row);
    CommandAddedKeeps(db, b, row);
  }

  lemma CheckoutReserves(db: Db, b: Db, r: Request, plan: Plan)
    requires Inv(db) && CheckoutReady(db, r, plan) && ApplyCheckout(db, r, plan) == Ok(b) && Extends(db, b)
    ensures HoldsInv(b) && LotsInv(b) && Conserved(b)
  {
    hide CommandsInv, HoldsInv, LotsInv, SettlementInv, OwnersInv, EffectsInv, WithdrawalsInv, ProductInv, Conserved, Extends;
    var hold := CommissionHold(r, plan);
    CheckoutWrites(db, r, plan);
    ReservedHolds(db, b, hold, plan.account, plan.allocations);
    ReservedLots(db, b, hold, plan.account, plan.allocations);
    ReservedTotals(db, b, hold, plan.account, plan.allocations);
  }

  lemma CheckoutTables(db: Db, b: Db, r: Request, plan: Plan)
    requires Inv(db) && CheckoutReady(db, r, plan) && ApplyCheckout(db, r, plan) == Ok(b) && Extends(db, b)
    ensures SettlementInv(b) && WithdrawalsInv(b) && OwnersInv(b)
  {
    hide CommandsInv, HoldsInv, LotsInv, SettlementInv, OwnersInv, EffectsInv, WithdrawalsInv, Conserved, Extends;
    CheckoutWrites(db, r, plan);
    SettlementUntouched(db, b);
    WithdrawalsUntouched(db, b);
    HoldAdded(db, b);
  }

  lemma CheckoutEffects(db: Db, b: Db, r: Request, plan: Plan)
    requires Inv(db) && CheckoutReady(db, r, plan) && ApplyCheckout(db, r, plan) == Ok(b) && Extends(db, b)
    ensures EffectsInv(b)
  {
    hide CommandsInv, LotsInv, SettlementInv, OwnersInv, WithdrawalsInv, Conserved, ApplyCheckout, Funds, TakeAll, Extends,
         NewCommand, FindCommand, FindContract;
    CheckoutWrites(db, r, plan);
    EffectsExtended(db, b);
    assert PaidBy(b, |db.commands|, |db.links|);
  }

  lemma CheckoutForms(db: Db, b: Db, r: Request, plan: Plan)
    requires Inv(db) && CheckoutReady(db, r, plan) && ApplyCheckout(db, r, plan) == Ok(b) && Extends(db, b)
    ensures ProductInv(b)
  {
    hide CommandsInv, HoldsInv, LotsInv, SettlementInv, OwnersInv, EffectsInv, WithdrawalsInv, Conserved,
         ApplyCheckout, Funds, NewCommand, Formed, Catalogue, StatesInStep, TakeAll;
    CheckoutWrites(db, r, plan);
    var n := |db.contracts|;
    forall k | 0 <= k < |b.contracts| ensures Formed(b, k) {
      if k < n {
        FormedStable(db, b, k);
      } else {
        NewContractFormed(db, b, r, plan);
      }
    }
    CheckoutDistinct(db, b, r, plan);
    CheckoutStates(db, b, r, plan);
    CheckoutCatalogue(db, b, r, plan);
  }

  lemma NewContractFormed(db: Db, b: Db, r: Request, plan: Plan)
    requires Inv(db) && CheckoutReady(db, r, plan) && ApplyCheckout(db, r, plan) == Ok(b)
    ensures Formed(b, |db.contracts|)
  {
    hide CommandsInv, LotsInv, SettlementInv, OwnersInv, EffectsInv, WithdrawalsInv, Conserved,
         ApplyCheckout, Funds, TakeAll, StatesInStep;
    CheckoutWrites(db, r, plan);
  }

  lemma CheckoutCatalogue(db: Db, b: Db, r: Request, plan: Plan)
    requires Inv(db) && CheckoutReady(db, r, plan) && ApplyCheckout(db, r, plan) == Ok(b)
    ensures Catalogue(b)
  {
    hide CommandsInv, HoldsInv, LotsInv, SettlementInv, OwnersInv, EffectsInv, WithdrawalsInv, Conserved,
         ApplyCheckout, Funds, TakeAll, NewCommand;
    CheckoutWrites(db, r, plan);
  }

  lemma CheckoutDistinct(db: Db, b: Db, r: Request, plan: Plan)
    requires Inv(db) && CheckoutReady(db, r, plan) && ApplyCheckout(db, r, plan) == Ok(b)
    ensures FormedDistinct(b)
  {
    hide CommandsInv, HoldsInv, LotsInv, SettlementInv, OwnersInv, EffectsInv, WithdrawalsInv, Conserved,
         ApplyCheckout, Funds, TakeAll, Catalogue;
    CheckoutWrites(db, r, plan);
    forall i | 0 <= i < |db.contracts|
      ensures db.contracts[i].order != plan.order && db.links[i].payment != r.payment
      ensures db.links[i].reservation != |db.reservations|
    {
      assert Formed(db, i);
    }
  }

  lemma CheckoutStates(db: Db, b: Db, r: Request, plan: Plan)
    requires Inv(db) && CheckoutReady(db, r, plan) && ApplyCheckout(db, r, plan) == Ok(b)
    ensures StatesInStep(b)
  {
    hide CommandsInv, HoldsInv, LotsInv, SettlementInv, OwnersInv, EffectsInv, WithdrawalsInv, Conserved,
         ApplyCheckout, Funds, TakeAll, NewCommand;
    CheckoutWrites(db, r, plan);
    forall o: nat | o < |b.orders| ensures b.orders[o].state == ORDER_PAID <==> HasContract(b, o) {
      Appended(db.contracts, b.contracts, o);
    }
    forall p: nat | p < |b.payments| ensures b.payments[p].state == PAYMENT_PAID <==> HasLink(b, p) {
      AppendedLink(db.links, b.links, p);
    }
    forall s: nat | s < |b.slots| ensures b.slots[s].state == SLOT_OCCUPIED <==> SlotTaken(b, s) {
      AppendedSlot(db, b, plan.order, s);
    }
  }

  /** One more contract takes exactly the slot of its order. */
  lemma AppendedSlot(a: Db, b: Db, order: nat, slot: nat)
    requires |b.contracts| == |a.contracts| + 1 && a.contracts <= b.contracts
    requires b.contracts[|a.contracts|].order == order < |a.orders| == |b.orders|
    requires forall o :: 0 <= o < |a.orders| ==> b.orders[o].slot == a.orders[o].slot
    ensures SlotTaken(b, slot) <==> SlotTaken(a, slot) || a.orders[order].slot == slot
  {
    if SlotTaken(a, slot) {
      var k: nat :| 0 <= k < |a.contracts| && a.contracts[k].order < |a.orders| && a.orders[a.contracts[k].order].slot == slot;
      assert b.contracts[k].order < |b.orders| && b.orders[b.contracts[k].order].slot == slot;
    }
    if SlotTaken(b, slot) {
      var k: nat :| 0 <= k < |b.contracts| && b.contracts[k].order < |b.orders| && b.orders[b.contracts[k].order].slot == slot;
      if k < |a.contracts| {
        assert a.contracts[k].order < |a.orders| && a.orders[a.contracts[k].order].slot == slot;
      }
    }
    if a.orders[order].slot == slot {
      assert b.orders[b.contracts[|a.contracts|].order].slot == slot;
    }
  }

  lemma Appended(a: seq<Contract>, b: seq<Contract>, order: nat)
    requires |b| == |a| + 1 && a <= b
    ensures (exists k :: 0 <= k < |b| && b[k].order == order) <==>
            (exists k :: 0 <= k < |a| && a[k].order == order) || b[|a|].order == order
  {
    if k: nat :| 0 <= k < |a| && a[k].order == order {
      assert b[k].order == order;
    }
    if k: nat :| 0 <= k < |b| && b[k].order == order {
      if k < |a| { assert a[k].order == order; }
    }
  }

  lemma AppendedLink(a: seq<Link>, b: seq<Link>, payment: nat)
    requires |b| == |a| + 1 && a <= b
    ensures (exists k :: 0 <= k < |b| && b[k].payment == payment) <==>
            (exists k :: 0 <= k < |a| && a[k].payment == payment) || b[|a|].payment == payment
  {
    if k: nat :| 0 <= k < |a| && a[k].payment == payment {
      assert b[k].payment == payment;
    }
    if k: nat :| 0 <= k < |b| && b[k].payment == payment {
      if k < |a| { assert a[k].payment == payment; }
    }
  }
}
