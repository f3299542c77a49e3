/**
 What is true of the ledger and product tables between transactions.
 */
module LedgerInvariant {
  import opened Prelude
  import opened LedgerTables
  import opened LedgerUseCases

  // ----- Commands and operations -----

  ghost predicate KindFits(c: Command) {
    match c.kind
    case PAY => c.subject.OrderPaymentSubject? && c.payload == [Num(c.subject.orderPaymentId), Num(c.principal)]
    case SETTLE => c.subject.ContractSubject? && c.payload == [Num(c.subject.contractId), Num(c.principal)]
    case WITHDRAW => c.subject == WithdrawalSubject(c.flow)
    case CHARGE => c.subject.ExternalPaymentSubject? && c.key != ""
    case _ => false
  }

  /** A committed command has the kind its flow allows and a result of its own kind and flow. */
  ghost predicate CommandOk(db: Db, i: nat) {
    i < |db.commands|
    && var c := db.commands[i];
       && c.flow < |db.flows| && db.flows[c.flow].kind == c.flowKind == FlowKindOf(c.kind)
       && KindFits(c)
       && c.result.Some? && c.result.value < |db.operations|
       && db.operations[c.result.value].kind == c.kind && db.operations[c.result.value].flow == c.flow
  }

  ghost predicate OperationOk(db: Db, op: nat) {
    op < |db.operations|
    && var o := db.operations[op];
       && o.command < |db.commands| && db.commands[o.command].result == Some(op)
       && db.commands[o.command].kind == o.kind && db.commands[o.command].flow == o.flow
  }

  ghost predicate ActionOk(db: Db, a: nat) {
    a < |db.actions| && db.actions[a].operation < |db.operations|
    && db.operations[db.actions[a].operation].kind == db.actions[a].kind
    && db.operations[db.actions[a].operation].flow == db.actions[a].flow
  }

  ghost predicate SameKey(a: Command, b: Command) {
    a.principal == b.principal && a.kind == b.kind && a.key == b.key
  }

  ghost predicate KeysUnique(commands: seq<Command>) {
    forall i, j :: 0 <= i < j < |commands| ==> !SameKey(commands[i], commands[j])
  }

  /** Commands about one subject are aliases of one another: only their keys differ. */
  ghost predicate SubjectsAgree(commands: seq<Command>) {
    forall i, j :: 0 <= i < |commands| && 0 <= j < |commands|
                   && commands[i].kind == commands[j].kind && commands[i].subject == commands[j].subject ==>
                     commands[i].(key := "") == commands[j].(key := "")
  }

  ghost predicate CommandsInv(db: Db) {
    && (forall i :: 0 <= i < |db.commands| ==> CommandOk(db, i))
    && (forall op :: 0 <= op < |db.operations| ==> OperationOk(db, op))
    && (forall a :: 0 <= a < |db.actions| ==> ActionOk(db, a))
    && KeysUnique(db.commands) && SubjectsAgree(db.commands)
  }

  // ----- Holds, transfers and escrow accounts -----

  function DrawnByTransfer(rows: seq<AllocationRow>, transfer: nat): int {
    if rows == [] then 0 else
      DrawnByTransfer(rows[..|rows| - 1], transfer)
      + if rows[|rows| - 1].transfer == transfer then rows[|rows| - 1].amount else 0
  }

  function DrawnFromLot(rows: seq<AllocationRow>, lot: nat): int {
    if rows == [] then 0 else
      DrawnFromLot(rows[..|rows| - 1], lot)
      + if rows[|rows| - 1].lot == lot then rows[|rows| - 1].amount else 0
  }

  /** Every hold is filled by exactly one transfer of its amount into its own escrow account. */
  ghost predicate TransferOk(db: Db, t: nat) {
    t < |db.transfers| && t < |db.reservations|
    && var x, r := db.transfers[t], db.reservations[t];
       && x.reservation == t && x.amount == r.target > 0 && x.currency == r.currency && x.flow == r.flow
       && x.action < |db.actions| && x.toAccount < |db.accounts| && x.fromAccount < |db.accounts|
       && db.accounts[x.toAccount].owner == ReservationOwner(t)
       && db.accounts[x.fromAccount] == Account(r.currency, AvailableAccount, HolderOwner(r.holder))
  }

  ghost predicate EscrowOk(db: Db, i: nat) {
    i < |db.accounts| && (db.accounts[i].owner.ReservationOwner? ==>
      db.accounts[i].owner.reservation < |db.reservations|
      && db.accounts[i].owner.reservation < |db.transfers|
      && db.transfers[db.accounts[i].owner.reservation].toAccount == i)
  }

  ghost predicate HoldsInv(db: Db) {
    && |db.transfers| == |db.reservations|
    && (forall t :: 0 <= t < |db.transfers| ==> TransferOk(db, t))
    && (forall i :: 0 <= i < |db.accounts| ==> EscrowOk(db, i))
    && (forall t :: 0 <= t < |db.transfers| ==> DrawnByTransfer(db.allocations, t) == db.transfers[t].amount)
  }

  // ----- Lots -----

  ghost predicate AllocationOk(db: Db, a: nat) {
    a < |db.allocations|
    && var row := db.allocations[a];
       && row.transfer < |db.transfers| && row.lot < |db.lots| && row.amount > 0
       && row.currency == db.lots[row.lot].currency == db.transfers[row.transfer].currency
       && row.fromAccount == db.lots[row.lot].account
  }

  ghost predicate LotConserved(db: Db, l: nat) {
    l < |db.lots| && db.lots[l].original == db.lots[l].remaining + DrawnFromLot(db.allocations, l)
  }

  ghost predicate LotSourced(db: Db, l: nat) {
    l < |db.lots|
    && var lot := db.lots[l];
       && (lot.source.Some? ==> lot.source.value.operation < |db.operations|)
       && (lot.currency == INCOME ==>
            lot.source.Some? && lot.source.value.flowKind == COMMISSION && lot.swap.Some?)
       && (lot.currency == POINT && lot.source.Some? ==>
            lot.source.value.flowKind == POINT_CHARGE && lot.source.value.kind == CHARGE)
       && (lot.swap.Some? ==> lot.swap.value < |db.swaps|)
  }

  ghost predicate LotsDistinct(lots: seq<Lot>) {
    forall i, j :: 0 <= i < j < |lots| ==>
      && !(lots[i].source.Some? && lots[j].source.Some? && lots[i].source.value.operation == lots[j].source.value.operation)
      && !(lots[i].swap.Some? && lots[i].swap == lots[j].swap)
  }

  ghost predicate LotsInv(db: Db) {
    && (forall a :: 0 <= a < |db.allocations| ==> AllocationOk(db, a))
    && (forall l :: 0 <= l < |db.lots| ==> LotConserved(db, l))
    && (forall l :: 0 <= l < |db.lots| ==> LotSourced(db, l))
    && LotsDistinct(db.lots)
  }

  // ----- The commission product -----

  ghost predicate Catalogue(db: Db) {
    && (forall p :: 0 <= p < |db.payments| ==>
         db.payments[p].order < |db.orders| && db.payments[p].flow == db.orders[db.payments[p].order].flow)
    && (forall o :: 0 <= o < |db.orders| ==> db.orders[o].slot < |db.slots| && db.orders[o].commissionType < |db.types|)
    && (forall i, j :: 0 <= i < j < |db.orders| ==> db.orders[i].slot != db.orders[j].slot)
  }

  /** The k-th contract with everything checkout formed around it; its link has the same index. */
  ghost predicate Formed(db: Db, k: nat) {
    k < |db.contracts| && k < |db.links|
    && var c, l := db.contracts[k], db.links[k];
       var p, r := l.payment, l.reservation;
       && p < |db.payments| && c.order < |db.orders| && r < |db.reservations| && r < |db.transfers|
       && var order, payment, hold, transfer := db.orders[c.order], db.payments[p], db.reservations[r], db.transfers[r];
          && payment.order == c.order && payment.state == PAYMENT_PAID && order.state == ORDER_PAID
          && order.slot < |db.slots| && db.slots[order.slot].state == SLOT_OCCUPIED
          && order.commissionType < |db.types| && c.worker == db.types[order.commissionType].worker
          && c.buyer == order.buyer
          && c.flow == order.flow == payment.flow == l.flow == hold.flow == transfer.flow
          && order.currency == POINT && payment.currency == POINT && hold.currency == POINT && transfer.currency == POINT
          && db.types[order.commissionType].price == order.amount == payment.amount == hold.target == transfer.amount
          && hold.purpose == CommissionPayment && hold.binding == OrderPaymentSubject(p)
          && hold.holder < |db.holders| && db.holders[hold.holder] == UserBinding(order.buyer)
          && PaidThrough(db, k)
  }

  /** The PAY operation behind the k-th contract, and the command that originated it. */
  ghost predicate PaidThrough(db: Db, k: nat)
    requires k < |db.links| && k < |db.contracts| && db.links[k].reservation < |db.transfers|
    requires db.contracts[k].order < |db.orders|
  {
    var a := db.transfers[db.links[k].reservation].action;
    && a < |db.actions| && db.actions[a].operation < |db.operations| && db.actions[a].kind == PAY
    && var op := db.actions[a].operation;
       && db.operations[op].kind == PAY && db.operations[op].flow == db.contracts[k].flow
       && db.operations[op].command < |db.commands|
       && var c := db.commands[db.operations[op].command];
          && c.kind == PAY && c.flow == db.contracts[k].flow && c.principal == db.orders[db.contracts[k].order].buyer
          && c.subject == OrderPaymentSubject(db.links[k].payment) && c.result == Some(op)
  }

  ghost predicate FormedDistinct(db: Db) {
    |db.links| == |db.contracts|
    && forall i, j :: 0 <= i < j < |db.contracts| ==>
         && db.contracts[i].order != db.contracts[j].order
         && db.links[i].payment != db.links[j].payment && db.links[i].reservation != db.links[j].reservation
  }

  ghost predicate HasContract(db: Db, order: nat) {
    exists k :: 0 <= k < |db.contracts| && db.contracts[k].order == order
  }

  ghost predicate HasLink(db: Db, payment: nat) {
    exists k :: 0 <= k < |db.links| && db.links[k].payment == payment
  }

  ghost predicate SlotTaken(db: Db, slot: nat) {
    exists k :: 0 <= k < |db.contracts| && db.contracts[k].order < |db.orders| && db.orders[db.contracts[k].order].slot == slot
  }

  /** Product states say exactly whether checkout has happened. */
  ghost predicate StatesInStep(db: Db) {
    && (forall o :: 0 <= o < |db.orders| ==> (db.orders[o].state == ORDER_PAID <==> HasContract(db, o)))
    && (forall p :: 0 <= p < |db.payments| ==> (db.payments[p].state == PAYMENT_PAID <==> HasLink(db, p)))
    && (forall s :: 0 <= s < |db.slots| ==> (db.slots[s].state == SLOT_OCCUPIED <==> SlotTaken(db, s)))
  }

  ghost predicate ProductInv(db: Db) {
    && Catalogue(db) && FormedDistinct(db) && StatesInStep(db)
    && forall k :: 0 <= k < |db.contracts| ==> Formed(db, k)
  }

  // ----- Settlements and withdrawals -----

  ghost predicate LotOfSwap(db: Db, s: nat, l: nat) {
    s < |db.swaps| && l < |db.lots| && db.swaps[s].reservation < |db.reservations|
    && db.lots[l].swap == Some(s) && db.lots[l].currency == INCOME
    && db.lots[l].original == db.reservations[db.swaps[s].reservation].target
    && db.lots[l].source == Some(LotSource(db.swaps[s].operation, db.swaps[s].flow, COMMISSION, SETTLE))
  }

  ghost predicate LinkOfSwap(db: Db, s: nat, k: nat) {
    s < |db.swaps| && k < |db.links| && db.links[k].reservation == db.swaps[s].reservation
  }

  /** A swap settles one commission hold: a POINT leg and an INCOME leg of its amount, one INCOME lot. */
  ghost predicate SwapOk(db: Db, s: nat) {
    s < |db.swaps| && 2 * s + 1 < |db.legs|
    && var x := db.swaps[s];
       && x.reservation < |db.reservations| && db.reservations[x.reservation].state == SETTLED
       && x.flow == db.reservations[x.reservation].flow
       && x.operation < |db.operations| && db.operations[x.operation].kind == SETTLE
       && LegsOk(db, s)
       && (exists k :: LinkOfSwap(db, s, k)) && (exists l :: LotOfSwap(db, s, l))
  }

  ghost predicate LegsOk(db: Db, s: nat)
    requires s < |db.swaps| && 2 * s + 1 < |db.legs| && db.swaps[s].reservation < |db.reservations|
  {
    var point, income := db.legs[2 * s], db.legs[2 * s + 1];
    && point.swap == s && income.swap == s && point.currency == POINT && income.currency == INCOME
    && point.amount == income.amount == db.reservations[db.swaps[s].reservation].target
  }

  ghost predicate SwapsDistinct(swaps: seq<Swap>) {
    forall i, j :: 0 <= i < j < |swaps| ==>
      swaps[i].reservation != swaps[j].reservation && swaps[i].operation != swaps[j].operation
  }

  ghost predicate HasSwap(db: Db, reservation: nat) {
    exists s :: 0 <= s < |db.swaps| && db.swaps[s].reservation == reservation
  }

  ghost predicate SettlementInv(db: Db) {
    && |db.legs| == 2 * |db.swaps| && SwapsDistinct(db.swaps)
    && (forall s :: 0 <= s < |db.swaps| ==> SwapOk(db, s))
    && forall r :: 0 <= r < |db.reservations| ==> (db.reservations[r].state == SETTLED <==> HasSwap(db, r))
  }

  ghost predicate WithdrawalOk(db: Db, w: nat) {
    w < |db.withdrawals|
    && var x := db.withdrawals[w];
       && x.reservation < |db.reservations| && x.flow < |db.flows|
       && var hold := db.reservations[x.reservation];
          && hold.purpose == IncomeWithdrawal && hold.currency == INCOME && hold.flow == x.flow && hold.state == HELD
          && hold.binding == WithdrawalSubject(x.flow)
  }

  ghost predicate WithdrawalsDistinct(withdrawals: seq<Withdrawal>) {
    forall i, j :: 0 <= i < j < |withdrawals| ==>
      withdrawals[i].reservation != withdrawals[j].reservation && withdrawals[i].flow != withdrawals[j].flow
  }

  ghost predicate WithdrawalsInv(db: Db) {
    WithdrawalsDistinct(db.withdrawals) && forall w :: 0 <= w < |db.withdrawals| ==> WithdrawalOk(db, w)
  }

  /** Every hold belongs to a commission link or to a withdrawal. */
  ghost predicate HoldOwned(db: Db, r: nat) {
    r < |db.reservations|
    && match db.reservations[r].purpose
       case CommissionPayment => exists k :: 0 <= k < |db.links| && db.links[k].reservation == r
       case IncomeWithdrawal => exists w :: 0 <= w < |db.withdrawals| && db.withdrawals[w].reservation == r
  }

  ghost predicate OwnersInv(db: Db) {
    forall r :: 0 <= r < |db.reservations| ==> HoldOwned(db, r)
  }

  // ----- Every command has its effect -----

  ghost predicate PaidBy(db: Db, i: nat, k: nat) {
    i < |db.commands| && k < |db.links| && k < |db.contracts|
    && db.commands[i].subject == OrderPaymentSubject(db.links[k].payment)
    && db.commands[i].flow == db.links[k].flow
    && db.links[k].reservation < |db.transfers|
    && db.transfers[db.links[k].reservation].action < |db.actions|
    && db.commands[i].result == Some(db.actions[db.transfers[db.links[k].reservation].action].operation)
  }

  ghost predicate SettledBy(db: Db, i: nat, s: nat) {
    i < |db.commands| && s < |db.swaps| && db.commands[i].subject.ContractSubject?
    && db.commands[i].result == Some(db.swaps[s].operation)
    && var k := db.commands[i].subject.contractId;
       k < |db.contracts| && k < |db.links| && db.contracts[k].flow == db.commands[i].flow
       && db.links[k].reservation == db.swaps[s].reservation
  }

  /** The account is the POINT account of the user's holder. */
  ghost predicate IssuedTo(db: Db, account: nat, user: nat) {
    var holder := FindHolder(db, UserBinding(user));
    holder.Some? && account < |db.accounts|
    && db.accounts[account] == Account(POINT, AvailableAccount, HolderOwner(holder.value))
  }

  ghost predicate ChargedBy(db: Db, i: nat, l: nat) {
    i < |db.commands| && l < |db.lots| && db.commands[i].subject.ExternalPaymentSubject?
    && db.commands[i].result.Some?
    && db.lots[l].source == Some(LotSource(db.commands[i].result.value, db.commands[i].flow, POINT_CHARGE, CHARGE))
    && db.lots[l].currency == POINT && IssuedTo(db, db.lots[l].account, db.commands[i].principal)
    && db.commands[i].payload == [Num(db.commands[i].principal), Num(db.lots[l].original),
                                  Str(db.commands[i].subject.externalPaymentId)]
  }

  ghost predicate WithdrawnBy(db: Db, i: nat, w: nat) {
    i < |db.commands| && w < |db.withdrawals| && db.withdrawals[w].flow == db.commands[i].flow
    && db.commands[i].result == Some(db.withdrawals[w].operation)
    && db.withdrawals[w].reservation < |db.reservations|
    && db.commands[i].payload
       == [Num(db.commands[i].principal), Num(db.reservations[db.withdrawals[w].reservation].target)]
  }

  ghost predicate EffectOk(db: Db, i: nat) {
    i < |db.commands|
    && match db.commands[i].kind
       case PAY => exists k :: PaidBy(db, i, k)
       case SETTLE => exists s :: SettledBy(db, i, s)
       case CHARGE => exists l :: ChargedBy(db, i, l)
       case WITHDRAW => exists w :: WithdrawnBy(db, i, w)
       case _ => false
  }

  ghost predicate EffectsInv(db: Db) {
    forall i :: 0 <= i < |db.commands| ==> EffectOk(db, i)
  }

  // ----- Conservation of each currency -----

  function Originals(lots: seq<Lot>, currency: Currency): int {
    if lots == [] then 0 else
      Originals(lots[..|lots| - 1], currency)
      + if lots[|lots| - 1].currency == currency then lots[|lots| - 1].original else 0
  }

  function Remainings(lots: seq<Lot>, currency: Currency): int {
    if lots == [] then 0 else
      Remainings(lots[..|lots| - 1], currency)
      + if lots[|lots| - 1].currency == currency then lots[|lots| - 1].remaining else 0
  }

  function Holds(reservations: seq<Reservation>, currency: Currency, state: ReservationState): int {
    if reservations == [] then 0 else
      Holds(reservations[..|reservations| - 1], currency, state)
      + var r := reservations[|reservations| - 1];
        if r.currency == currency && r.state == state then r.target else 0
  }

  ghost predicate Conserved(db: Db) {
    && Originals(db.lots, POINT)
       == Remainings(db.lots, POINT) + Holds(db.reservations, POINT, HELD) + Holds(db.reservations, POINT, SETTLED)
    && Originals(db.lots, INCOME) == Remainings(db.lots, INCOME) + Holds(db.reservations, INCOME, HELD)
    && Originals(db.lots, INCOME) == Holds(db.reservations, POINT, SETTLED)
    && Holds(db.reservations, INCOME, SETTLED) == 0
  }

  ghost predicate Inv(db: Db) {
    && CommandsInv(db) && HoldsInv(db) && LotsInv(db) && ProductInv(db) && SettlementInv(db)
    && WithdrawalsInv(db) && OwnersInv(db) && EffectsInv(db) && Conserved(db)
  }

  // ----- Where runs start -----

  /** Orders are requested, payments pending, slots free; only initial POINT lots exist. */
  ghost predicate Initial(db: Db) {
    && Catalogue(db)
    && db.commands == [] && db.operations == [] && db.actions == [] && db.reservations == [] && db.transfers == []
    && db.allocations == [] && db.swaps == [] && db.legs == [] && db.withdrawals == [] && db.contracts == [] && db.links == []
    && (forall i :: 0 <= i < |db.accounts| ==> db.accounts[i].owner.HolderOwner?)
    && (forall l :: 0 <= l < |db.lots| ==>
         db.lots[l].currency == POINT && db.lots[l].source.None? && db.lots[l].swap.None?
         && db.lots[l].original == db.lots[l].remaining)
    && (forall o :: 0 <= o < |db.orders| ==> db.orders[o].state == ORDER_REQUESTED)
    && (forall p :: 0 <= p < |db.payments| ==> db.payments[p].state == PAYMENT_PENDING)
    && forall s :: 0 <= s < |db.slots| ==> db.slots[s].state == SLOT_AVAILABLE
  }

  lemma {:induction false} UntouchedTotals(lots: seq<Lot>)
    requires forall l :: 0 <= l < |lots| ==> lots[l].currency == POINT && lots[l].original == lots[l].remaining
    ensures Originals(lots, POINT) == Remainings(lots, POINT)
    ensures Originals(lots, INCOME) == 0 && Remainings(lots, INCOME) == 0
  {
    if lots != [] {
      UntouchedTotals(lots[..|lots| - 1]);
    }
  }

  lemma InitialInv(db: Db)
    requires Initial(db)
    ensures Inv(db)
  {
    UntouchedTotals(db.lots);
  }
}
