/**
 The tables of the financial ledger and of the commission product, with their look-ups.  A row's id is
 its position in its table, so ids are fresh and rows are never renumbered.
 */
module LedgerTables {
  import opened Prelude

  datatype FlowKind = COMMISSION | WITHDRAWAL | POINT_CHARGE

  datatype CommandKind = PAY | EXTRA_PAY | SETTLE | REFUND | CANCEL | WITHDRAW | CHARGE

  datatype Currency = POINT | INCOME

  datatype Flow = Flow(kind: FlowKind, allowed: set<CommandKind>)

  /** (subjectNamespace, subjectKey): the namespace is the constructor, the key its argument. */
  datatype Subject =
    | OrderPaymentSubject(orderPaymentId: nat)
    | ContractSubject(contractId: nat)
    | WithdrawalSubject(flowId: nat)
    | ExternalPaymentSubject(externalPaymentId: string)

  /** The JSON array that is hashed into payloadHash; equal hashes stand for equal payloads. */
  datatype Json = Num(n: int) | Str(s: string)
  type Payload = seq<Json>

  datatype Command = Command(
    flow: nat, flowKind: FlowKind, kind: CommandKind, principal: nat, key: string,
    payload: Payload, subject: Subject, result: Option<nat>)

  datatype Operation = Operation(flow: nat, kind: CommandKind, command: nat)

  datatype TransferAction = TransferAction(operation: nat, flow: nat, kind: CommandKind)

  datatype Binding = UserBinding(userId: nat) | PlatformBinding

  datatype Owner = HolderOwner(holder: nat) | ReservationOwner(reservation: nat)

  datatype Purpose = AvailableAccount | EscrowAccount | SettledAccount | IssuerAccount

  datatype Account = Account(currency: Currency, purpose: Purpose, owner: Owner)

  datatype LotSource = LotSource(operation: nat, flow: nat, flowKind: FlowKind, kind: CommandKind)

  datatype Lot = Lot(
    account: nat, currency: Currency, source: Option<LotSource>, swap: Option<nat>,
    original: int, remaining: nat, createdAt: int)

  datatype ReservationPurpose = CommissionPayment | IncomeWithdrawal

  datatype ReservationState = HELD | SETTLED

  datatype Reservation = Reservation(
    flow: nat, binding: Subject, holder: nat, purpose: ReservationPurpose, currency: Currency,
    target: int, state: ReservationState)

  datatype Transfer = Transfer(
    reservation: nat, flow: nat, currency: Currency, fromAccount: nat, toAccount: nat, amount: int, action: nat)

  datatype AllocationRow = AllocationRow(transfer: nat, fromAccount: nat, currency: Currency, lot: nat, amount: int)

  datatype Swap = Swap(flow: nat, operation: nat, reservation: nat, beneficiary: nat)

  datatype Leg = Leg(swap: nat, flow: nat, currency: Currency, fromAccount: nat, toAccount: nat, amount: int)

  datatype Withdrawal = Withdrawal(flow: nat, operation: nat, action: nat, reservation: nat)

  datatype OrderState = ORDER_REQUESTED | ORDER_PAID
  datatype PaymentState = PAYMENT_PENDING | PAYMENT_PAID
  datatype SlotState = SLOT_AVAILABLE | SLOT_OCCUPIED

  datatype Order = Order(
    buyer: nat, commissionType: nat, slot: nat, flow: nat, amount: int, currency: Currency, state: OrderState)

  datatype Payment = Payment(order: nat, flow: nat, amount: int, currency: Currency, state: PaymentState)

  datatype Slot = Slot(worker: nat, state: SlotState)

  datatype CommissionType = CommissionType(worker: nat, price: int)

  datatype Contract = Contract(order: nat, flow: nat, buyer: nat, worker: nat)

  datatype Link = Link(payment: nat, flow: nat, reservation: nat)

  datatype Db = Db(
    flows: seq<Flow>, commands: seq<Command>, operations: seq<Operation>, actions: seq<TransferAction>,
    holders: seq<Binding>, accounts: seq<Account>, lots: seq<Lot>, reservations: seq<Reservation>,
    transfers: seq<Transfer>, allocations: seq<AllocationRow>, swaps: seq<Swap>, legs: seq<Leg>,
    withdrawals: seq<Withdrawal>, orders: seq<Order>, payments: seq<Payment>, slots: seq<Slot>,
    types: seq<CommissionType>, contracts: seq<Contract>, links: seq<Link>)

  // ----- Finding rows -----

  /** The first row with a property. */
  function First<T>(rows: seq<T>, p: T -> bool): (r: Option<nat>)
    ensures r.Some? ==> r.value < |rows| && p(rows[r.value]) && forall j :: 0 <= j < r.value ==> !p(rows[j])
    ensures r.None? ==> forall j :: 0 <= j < |rows| ==> !p(rows[j])
  {
    if rows == [] then None
    else
      var n := |rows| - 1;
      var before := First(rows[..n], p);
      if before.Some? then before else if p(rows[n]) then Some(n) else None
  }

  /** A found row stays found when rows are appended; a fresh match is found only if there was none. */
  lemma FirstExtends<T>(before: seq<T>, after: seq<T>, p: T -> bool)
    requires |before| <= |after| && forall i :: 0 <= i < |before| ==> p(after[i]) == p(before[i])
    ensures First(before, p).Some? ==> First(after, p) == First(before, p)
    ensures First(before, p).None? && (forall i :: |before| <= i < |after| ==> !p(after[i])) ==> First(after, p).None?
  {
    if First(before, p).Some? {
      FirstIs(after, p, First(before, p).value);
    }
  }

  lemma FirstIs<T>(rows: seq<T>, p: T -> bool, i: nat)
    requires i < |rows| && p(rows[i]) && forall j :: 0 <= j < i ==> !p(rows[j])
    ensures First(rows, p) == Some(i)
  {
  }

  function FindHolder(db: Db, binding: Binding): Option<nat> {
    First(db.holders, (h: Binding) => h == binding)
  }

  function FindAccount(db: Db, holder: nat, currency: Currency, purpose: Purpose): Option<nat> {
    First(db.accounts, (a: Account) => a == Account(currency, purpose, HolderOwner(holder)))
  }

  function FindEscrow(db: Db, reservation: nat): Option<nat> {
    First(db.accounts, (a: Account) => a.owner == ReservationOwner(reservation))
  }

  function FindTransfer(db: Db, reservation: nat): Option<nat> {
    First(db.transfers, (t: Transfer) => t.reservation == reservation)
  }

  /** (principal, kind, idempotency key) is unique, so the first match is the only one. */
  function FindCommand(db: Db, principal: nat, kind: CommandKind, key: string): Option<nat> {
    First(db.commands, (c: Command) => c.principal == principal && c.kind == kind && c.key == key)
  }

  /** The oldest completed command for a subject. */
  function FindCompleted(db: Db, flowKind: FlowKind, kind: CommandKind, subject: Subject): Option<nat> {
    First(db.commands, (c: Command) =>
      c.subject == subject && c.flowKind == flowKind && c.kind == kind && c.result.Some?)
  }

  function FindPaidPayment(db: Db, order: nat): Option<nat> {
    First(db.payments, (p: Payment) => p.order == order && p.state == PAYMENT_PAID)
  }

  function FindLink(db: Db, payment: nat): Option<nat> {
    First(db.links, (l: Link) => l.payment == payment)
  }

  function FindContract(db: Db, order: nat): Option<nat> {
    First(db.contracts, (c: Contract) => c.order == order)
  }

  function FindSwap(db: Db, operation: nat): Option<nat> {
    First(db.swaps, (s: Swap) => s.operation == operation)
  }

  function FindLot(db: Db, operation: nat): Option<nat> {
    First(db.lots, (l: Lot) => l.source.Some? && l.source.value.operation == operation)
  }

  function FindWithdrawal(db: Db, flow: nat): Option<nat> {
    First(db.withdrawals, (w: Withdrawal) => w.flow == flow)
  }

  // ----- The lots an account can still give, in FIFO order -----

  predicate Spendable(lot: Lot, account: nat, currency: Currency) {
    lot.account == account && lot.currency == currency && lot.remaining > 0
  }
}
