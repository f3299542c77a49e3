/**
 The four money-moving requests, each as the source runs it: prepare the lock targets, decide under the
 locks (replay, alias, reject, or proceed with a plan), then write.
 */
module LedgerUseCases {
  import opened Prelude
  import opened ReservationPlans
  import opened LedgerTables
  import opened LotQueue
  import F = FifoOrder

  datatype Request =
    | ChargeRequest(actor: nat, amount: int, externalPaymentId: string, key: string)
    | CheckoutRequest(payment: nat, actor: nat, key: string)
    | SettleRequest(contract: nat, actor: nat, key: string)
    | WithdrawRequest(actor: nat, amount: int, key: string)

  /** What the prepare phase reads outside the transaction to choose its locks. */
  datatype Targets =
    | ChargeTargets(holder: nat)
    | CheckoutTargets(buyer: nat, slot: nat, holder: nat)
    | SettleTargets(holder: nat)
    | WithdrawTargets(holder: nat)

  datatype Rejection =
    | NotFound(what: string)
    | IdentityMismatch            // the key was used with another payload or subject
    | NotCompleted
    | ActorMismatch
    | NotPayable
    | NotSettleable
    | InvalidRequest
    | BadPlan(reason: PlanError)
    | ConcurrentUpdate
    | UniqueViolation
    | PolicyViolation             // the flow does not allow this command
    | CorruptResult

  datatype Plan =
    | ChargePlan(account: nat)
    | CheckoutPlan(flow: nat, holder: nat, account: nat, amount: int, allocations: seq<Allocation>,
                   order: nat, slot: nat, buyer: nat, worker: nat)
    | SettlePlan(flow: nat, reservation: nat, beneficiary: nat, amount: int,
                 escrow: nat, settled: nat, issuer: nat, available: nat)
    | WithdrawPlan(holder: nat, account: nat, allocations: seq<Allocation>)

  datatype Decision =
    | Reject(reason: Rejection)
    | Replay(command: nat)
    | Alias(command: nat)
    | Proceed(plan: Plan)

  /** Public identifiers are the pair of a persisted kind and a row id. */
  datatype Receipt = Receipt(
    flowKind: FlowKind, flow: nat, commandKind: CommandKind, command: nat,
    operationKind: CommandKind, operation: nat, replayed: bool, effect: Effect)

  datatype Source = Source(flow: nat, amount: int)

  datatype Effect =
    | Charged(lot: nat, amount: int)
    | CheckedOut(order: nat, payment: nat, contract: nat, reservation: nat)
    | Settled(contract: nat, settledReservation: nat, incomeLot: nat)
    | Withdrawn(withdrawal: nat, heldReservation: nat, sources: seq<Source>)

  type Outcome = Result<(Db, Receipt), Rejection>

  // ----- Identity of a request -----

  function KindOf(request: Request): CommandKind {
    match request
    case ChargeRequest(_, _, _, _) => CHARGE
    case CheckoutRequest(_, _, _) => PAY
    case SettleRequest(_, _, _) => SETTLE
    case WithdrawRequest(_, _, _) => WITHDRAW
  }

  function FlowKindOf(kind: CommandKind): FlowKind {
    if kind == CHARGE then POINT_CHARGE else if kind == WITHDRAW then WITHDRAWAL else COMMISSION
  }

  function PayloadOf(request: Request): Payload {
    match request
    case ChargeRequest(actor, amount, external, _) => [Num(actor), Num(amount), Str(external)]
    case CheckoutRequest(payment, actor, _) => [Num(payment), Num(actor)]
    case SettleRequest(contract, actor, _) => [Num(contract), Num(actor)]
    case WithdrawRequest(actor, amount, _) => [Num(actor), Num(amount)]
  }

  /** A withdrawal's subject is the flow it creates, so it has none before it runs. */
  function SubjectOf(request: Request): Option<Subject> {
    match request
    case ChargeRequest(_, _, external, _) => Some(ExternalPaymentSubject(external))
    case CheckoutRequest(payment, _, _) => Some(OrderPaymentSubject(payment))
    case SettleRequest(contract, _, _) => Some(ContractSubject(contract))
    case WithdrawRequest(_, _, _) => None
  }

  // ----- Prepare -----

  function Prepare(db: Db, request: Request): Result<Targets, Rejection> {
    match request
    case ChargeRequest(actor, _, _, _) =>
      (match FindHolder(db, UserBinding(actor))
       case None => Err(NotFound("holder"))
       case Some(h) => Ok(ChargeTargets(h)))
    case CheckoutRequest(payment, _, _) =>
      if payment >= |db.payments| || db.payments[payment].order >= |db.orders| then Err(NotFound("order payment")) else
        var order := db.orders[db.payments[payment].order];
        (match FindHolder(db, UserBinding(order.buyer))
         case None => Err(NotFound("holder"))
         case Some(h) => Ok(CheckoutTargets(order.buyer, order.slot, h)))
    case SettleRequest(contract, _, _) =>
      if contract >= |db.contracts| then Err(NotFound("contract")) else
        (match FindHolder(db, UserBinding(db.contracts[contract].worker))
         case None => Err(NotFound("holder"))
         case Some(h) => Ok(SettleTargets(h)))
    case WithdrawRequest(actor, _, _) =>
      (match FindHolder(db, UserBinding(actor))
       case None => Err(NotFound("holder"))
       case Some(h) => Ok(WithdrawTargets(h)))
  }

  /** The targets a request prepared are those it would prepare now. */
  predicate Prepared(db: Db, r: Request, t: Targets) {
    Prepare(db, r) == Ok(t)
  }

  // ----- Deciding under the locks -----

  /** Same key, or same subject, must mean the same request. */
  predicate SameIdentity(stored: Command, kind: CommandKind, payload: Payload, subject: Subject) {
    stored.flowKind == FlowKindOf(kind) && stored.kind == kind && stored.payload == payload && stored.subject == subject
  }

  function DecideCharge(db: Db, r: Request, holder: nat): Decision
    requires r.ChargeRequest?
  {
    var subject := ExternalPaymentSubject(r.externalPaymentId);
    var byKey := FindCommand(db, r.actor, CHARGE, r.key);
    var found := if byKey.Some? then byKey else FindCompleted(db, POINT_CHARGE, CHARGE, subject);
    match found
    case Some(c) =>
      if !SameIdentity(db.commands[c], CHARGE, PayloadOf(r), subject) || db.commands[c].principal != r.actor
      then Reject(IdentityMismatch)
      else if db.commands[c].result.None? then Reject(NotCompleted)
      else Replay(c)
    case None => PlanPointCharge(db, r, holder)
  }

  function PlanPointCharge(db: Db, r: Request, holder: nat): Decision
    requires r.ChargeRequest?
  {
    match FindAccount(db, holder, POINT, AvailableAccount)
    case None => Reject(NotFound("account"))
    case Some(account) =>
      if r.amount <= 0 || r.amount > MAX_SAFE_INTEGER || r.externalPaymentId == "" || r.key == ""
      then Reject(InvalidRequest)
      else Proceed(ChargePlan(account))
  }

  function DecideCheckout(db: Db, r: Request, targets: Targets): Decision
    requires r.CheckoutRequest? && targets.CheckoutTargets?
  {
    var subject := OrderPaymentSubject(r.payment);
    match FindCommand(db, r.actor, PAY, r.key)
    case Some(c) =>
      if !SameIdentity(db.commands[c], PAY, PayloadOf(r), subject) then Reject(IdentityMismatch)
      else if db.commands[c].result.None? then Reject(NotCompleted)
      else Replay(c)
    case None =>
      match FindCompleted(db, COMMISSION, PAY, subject)
      case Some(c) =>
        if r.payment >= |db.payments| || db.payments[r.payment].order >= |db.orders| then Reject(CorruptResult)
        else if db.orders[db.payments[r.payment].order].buyer != r.actor then Reject(ActorMismatch)
        else Alias(c)
      case None => PlanCheckout(db, r, targets)
  }

  /** `planCommissionCheckout`'s chain of checks. */
  predicate Payable(order: Order, payment: Payment, terms: CommissionType, slot: Slot) {
    && order.state == ORDER_REQUESTED && payment.state == PAYMENT_PENDING
    && slot.state == SLOT_AVAILABLE
    && terms.worker == slot.worker
    && order.flow == payment.flow
    && order.currency == POINT && payment.currency == POINT
    && order.amount == payment.amount && order.amount == terms.price
  }

  function PlanCheckout(db: Db, r: Request, targets: Targets): Decision
    requires r.CheckoutRequest? && targets.CheckoutTargets?
  {
    if r.payment >= |db.payments| || db.payments[r.payment].order >= |db.orders| then Reject(NotFound("order payment")) else
      var payment := db.payments[r.payment];
      var order := db.orders[payment.order];
      if order.commissionType >= |db.types| then Reject(NotFound("commission type"))
      else if order.slot >= |db.slots| then Reject(NotFound("slot"))
      else
        var holder := FindHolder(db, UserBinding(order.buyer));
        if holder.None? then Reject(NotFound("holder"))
        else if targets != CheckoutTargets(order.buyer, order.slot, holder.value) then Reject(ConcurrentUpdate)
        else if order.buyer != r.actor then Reject(ActorMismatch)
        else if !Payable(order, payment, db.types[order.commissionType], db.slots[order.slot]) then Reject(NotPayable)
        else
          match FindAccount(db, holder.value, POINT, AvailableAccount)
          case None => Reject(NotFound("account"))
          case Some(account) =>
            match PlanDraws(LoadLots(db.lots, account, POINT), payment.amount)
            case Err(e) => Reject(BadPlan(e))
            case Ok(allocations) =>
              Proceed(CheckoutPlan(payment.flow, holder.value, account, payment.amount, allocations,
                                   payment.order, order.slot, order.buyer, db.types[order.commissionType].worker))
  }

  function DecideSettle(db: Db, r: Request, targets: Targets): Decision
    requires r.SettleRequest? && targets.SettleTargets?
  {
    var subject := ContractSubject(r.contract);
    var existing := FindCommand(db, r.actor, SETTLE, r.key);
    var stored := if existing.Some? then existing else FindCompleted(db, COMMISSION, SETTLE, subject);
    match stored
    case Some(c) =>
      if !SameIdentity(db.commands[c], SETTLE, PayloadOf(r), subject) then Reject(IdentityMismatch)
      else if db.commands[c].result.None? then Reject(NotCompleted)
      else if existing.Some? then Replay(c) else Alias(c)
    case None => PlanSettle(db, r, targets)
  }

  /** The facts a settlement reads besides the contract itself. */
  datatype Funding = Funding(
    order: Order, orderId: nat, payment: Payment, paymentId: nat, link: Link, reservation: Reservation,
    escrow: nat, transfer: Transfer, action: TransferAction, operation: Operation, operationId: nat,
    command: Command, holder: Binding)

  /** `loadCommissionSettlementOrderSnapshot`: the order's first PAID payment and its link. */
  function LoadPaidOrder(db: Db, contract: Contract): Option<(nat, nat)> {
    if contract.order >= |db.orders| then None else
      match FindPaidPayment(db, contract.order)
      case None => None
      case Some(p) =>
        match FindLink(db, p)
        case None => None
        case Some(l) => Some((p, l))
  }

  /** `loadCommissionSettlementFunding`: the hold, its transfer, and the PAY it came from. */
  function LoadFunding(db: Db, contract: Contract, p: nat, l: nat): Option<Funding>
    requires contract.order < |db.orders| && p < |db.payments| && l < |db.links|
  {
    var r := db.links[l].reservation;
    if r >= |db.reservations| || db.reservations[r].holder >= |db.holders| then None else
      match FindEscrow(db, r)
      case None => None
      case Some(escrow) =>
        match FindTransfer(db, r)
        case None => None
        case Some(t) =>
          var a := db.transfers[t].action;
          if a >= |db.actions| then None else
            var op := db.actions[a].operation;
            if op >= |db.operations| || db.operations[op].command >= |db.commands| then None else
              Some(Funding(db.orders[contract.order], contract.order, db.payments[p], p, db.links[l],
                           db.reservations[r], escrow, db.transfers[t], db.actions[a], db.operations[op], op,
                           db.commands[db.operations[op].command], db.holders[db.reservations[r].holder]))
  }

  /** `planCommissionSettlement`'s chain of checks. */
  predicate Settleable(contract: Contract, f: Funding, actor: nat) {
    && contract.order == f.orderId
    && contract.worker == actor
    && f.order.state == ORDER_PAID && f.payment.state == PAYMENT_PAID && f.reservation.state == HELD
    && f.order.currency == POINT && f.payment.currency == POINT
    && f.reservation.currency == POINT && f.transfer.currency == POINT && f.reservation.target > 0
    && contract.flow == f.order.flow == f.payment.flow == f.link.flow == f.reservation.flow == f.transfer.flow
    && f.action.kind == PAY && f.operation.kind == PAY && f.command.kind == PAY
    && f.command.result == Some(f.operationId)
    && f.operation.flow == contract.flow && f.command.flow == contract.flow
    && f.command.principal == f.order.buyer && f.command.subject == OrderPaymentSubject(f.paymentId)
    && f.holder == UserBinding(f.order.buyer)
    && f.order.amount == f.payment.amount == f.reservation.target == f.transfer.amount
    && f.transfer.toAccount == f.escrow
  }

  function PlanSettle(db: Db, r: Request, targets: Targets): Decision
    requires r.SettleRequest? && targets.SettleTargets?
  {
    if r.contract >= |db.contracts| then Reject(NotFound("contract")) else
      var contract := db.contracts[r.contract];
      match LoadPaidOrder(db, contract)
      case None => Reject(NotFound("paid order"))
      case Some((p, l)) =>
        var worker := FindHolder(db, UserBinding(contract.worker));
        if worker.None? then Reject(NotFound("holder"))
        else if worker.value != targets.holder then Reject(NotSettleable)
        else
          match LoadFunding(db, contract, p, l)
          case None => Reject(NotFound("funded reservation"))
          case Some(f) =>
            match LoadAccounts(db, worker.value)
            case None => Reject(NotFound("account"))
            case Some(accounts) =>
              if !Settleable(contract, f, r.actor) then Reject(NotSettleable)
              else Proceed(SettlePlan(contract.flow, f.link.reservation, worker.value, f.reservation.target,
                                      f.escrow, accounts.settled, accounts.issuer, accounts.available))
  }

  datatype SettlementAccounts = SettlementAccounts(settled: nat, issuer: nat, available: nat)

  /** `loadCommissionSettlementAccounts`. */
  function LoadAccounts(db: Db, worker: nat): Option<SettlementAccounts> {
    match FindHolder(db, PlatformBinding)
    case None => None
    case Some(platform) =>
      var settled := FindAccount(db, platform, POINT, SettledAccount);
      var issuer := FindAccount(db, platform, INCOME, IssuerAccount);
      var available := FindAccount(db, worker, INCOME, AvailableAccount);
      if settled.None? || issuer.None? || available.None? then None
      else Some(SettlementAccounts(settled.value, issuer.value, available.value))
  }

  function DecideWithdraw(db: Db, r: Request, holder: nat): Decision
    requires r.WithdrawRequest?
  {
    match FindCommand(db, r.actor, WITHDRAW, r.key)
    case Some(c) =>
      var stored := db.commands[c];
      if !SameIdentity(stored, WITHDRAW, PayloadOf(r), WithdrawalSubject(stored.flow)) then Reject(IdentityMismatch)
      else if stored.result.None? then Reject(NotCompleted)
      else Replay(c)
    case None => PlanWithdraw(db, r, holder)
  }

  function PlanWithdraw(db: Db, r: Request, holder: nat): Decision
    requires r.WithdrawRequest?
  {
    match FindAccount(db, holder, INCOME, AvailableAccount)
    case None => Reject(NotFound("account"))
    case Some(account) =>
      match PlanWithdrawalDraws(LoadLots(db.lots, account, INCOME), r.amount)
      case Err(e) => Reject(BadPlan(e))
      case Ok(allocations) => Proceed(WithdrawPlan(holder, account, allocations))
  }

  predicate Matching(request: Request, targets: Targets) {
    match request
    case ChargeRequest(_, _, _, _) => targets.ChargeTargets?
    case CheckoutRequest(_, _, _) => targets.CheckoutTargets?
    case SettleRequest(_, _, _) => targets.SettleTargets?
    case WithdrawRequest(_, _, _) => targets.WithdrawTargets?
  }

  function Decide(db: Db, request: Request, targets: Targets): Decision
    requires Matching(request, targets)
  {
    match request
    case ChargeRequest(_, _, _, _) => DecideCharge(db, request, targets.holder)
    case CheckoutRequest(_, _, _) => DecideCheckout(db, request, targets)
    case SettleRequest(_, _, _) => DecideSettle(db, request, targets)
    case WithdrawRequest(_, _, _) => DecideWithdraw(db, request, targets.holder)
  }

  // ----- Inserts with their unique constraints and foreign keys -----

  function InsertCommand(db: Db, row: Command): Result<Db, Rejection> {
    if FindCommand(db, row.principal, row.kind, row.key).Some? then Err(UniqueViolation)
    else if !(row.flow < |db.flows| && db.flows[row.flow].kind == row.flowKind && row.kind in db.flows[row.flow].allowed)
    then Err(PolicyViolation)
    else Ok(db.(commands := db.commands + [row]))
  }

  /** Start a command, create its operation, and point the command at it. */
  function RunCommand(db: Db, row: Command): Result<Db, Rejection>
    requires row.result == Some(|db.operations|)
  {
    match InsertCommand(db, row)
    case Err(e) => Err(e)
    case Ok(d) => Ok(d.(operations := d.operations + [Operation(row.flow, row.kind, |db.commands|)]))
  }

  predicate BindingTaken(db: Db, binding: Subject) {
    First(db.reservations, (r: Reservation) => r.binding == binding).Some?
  }

  /** Take the lots, create the hold, its escrow account, the transfer and its allocations. */
  function Reserve(db: Db, reservation: Reservation, account: nat, allocations: seq<Allocation>, action: nat)
    : Result<Db, Rejection>
  {
    match TakeAll(db.lots, account, reservation.currency, allocations)
    case None => Err(ConcurrentUpdate)
    case Some(lots) =>
      if BindingTaken(db, reservation.binding) then Err(UniqueViolation) else
        var r, escrow, t := |db.reservations|, |db.accounts|, |db.transfers|;
        Ok(db.(lots := lots,
               reservations := db.reservations + [reservation],
               accounts := db.accounts + [Account(reservation.currency, EscrowAccount, ReservationOwner(r))],
               transfers := db.transfers + [Transfer(r, reservation.flow, reservation.currency, account, escrow,
                                                     reservation.target, action)],
               allocations := db.allocations + AllocationRows(t, account, reservation.currency, allocations)))
  }

  function AllocationRows(transfer: nat, account: nat, currency: Currency, allocations: seq<Allocation>)
    : (rows: seq<AllocationRow>)
    ensures |rows| == |allocations|
    ensures forall i :: 0 <= i < |rows| ==>
              rows[i] == AllocationRow(transfer, account, currency, allocations[i].lotId, allocations[i].amount)
  {
    seq(|allocations|, i requires 0 <= i < |allocations| =>
      AllocationRow(transfer, account, currency, allocations[i].lotId, allocations[i].amount))
  }

  function FormContract(db: Db, row: Contract): Result<Db, Rejection> {
    if FindContract(db, row.order).Some? then Err(UniqueViolation)
    else Ok(db.(contracts := db.contracts + [row]))
  }

  predicate LinkTaken(db: Db, row: Link) {
    First(db.links, (l: Link) => l.payment == row.payment || l.reservation == row.reservation).Some?
  }

  /** `applyCommissionCheckoutPayment`: two state compare-and-swaps, then the link. */
  function PayOrder(db: Db, order: nat, link: Link): Result<Db, Rejection> {
    if !(link.payment < |db.payments| && db.payments[link.payment].order == order
         && db.payments[link.payment].state == PAYMENT_PENDING) then Err(ConcurrentUpdate)
    else if !(order < |db.orders| && db.orders[order].state == ORDER_REQUESTED) then Err(ConcurrentUpdate)
    else if LinkTaken(db, link) then Err(UniqueViolation)
    else Ok(db.(payments := db.payments[link.payment := db.payments[link.payment].(state := PAYMENT_PAID)],
                orders := db.orders[order := db.orders[order].(state := ORDER_PAID)],
                links := db.links + [link]))
  }

  function OccupySlot(db: Db, slot: nat, worker: nat): Result<Db, Rejection> {
    if slot < |db.slots| && db.slots[slot] == Slot(worker, SLOT_AVAILABLE)
    then Ok(db.(slots := db.slots[slot := Slot(worker, SLOT_OCCUPIED)]))
    else Err(ConcurrentUpdate)
  }

  predicate SwapTaken(db: Db, swap: Swap) {
    First(db.swaps, (s: Swap) => s.reservation == swap.reservation || s.operation == swap.operation).Some?
  }

  function SwapInto(db: Db, swap: Swap, plan: Plan, now: int): Result<Db, Rejection>
    requires plan.SettlePlan?
  {
    if SwapTaken(db, swap) then Err(UniqueViolation)
    else if FindLot(db, swap.operation).Some? then Err(UniqueViolation)
    else if !(swap.reservation < |db.reservations| && db.reservations[swap.reservation].flow == swap.flow
              && db.reservations[swap.reservation].state == HELD) then Err(ConcurrentUpdate)
    else
      var s := |db.swaps|;
      Ok(db.(swaps := db.swaps + [swap],
             legs := db.legs + [Leg(s, swap.flow, POINT, plan.escrow, plan.settled, plan.amount),
                                Leg(s, swap.flow, INCOME, plan.issuer, plan.available, plan.amount)],
             lots := db.lots + [IncomeLot(plan, swap.operation, s, now)],
             reservations := db.reservations[swap.reservation := db.reservations[swap.reservation].(state := SETTLED)]))
  }

  function IncomeLot(plan: Plan, operation: nat, swap: nat, now: int): Lot
    requires plan.SettlePlan?
  {
    Lot(plan.available, INCOME, Some(LotSource(operation, plan.flow, COMMISSION, SETTLE)), Some(swap),
        plan.amount, Max(0, plan.amount), now)
  }

  // ----- Applying a decision -----

  function CommandRow(db: Db, r: Request, flow: nat, subject: Subject, result: nat): Command {
    Command(flow, FlowKindOf(KindOf(r)), KindOf(r), r.actor, r.key, PayloadOf(r), subject, Some(result))
  }

  function ApplyCharge(db: Db, r: Request, plan: Plan, now: int): Result<Db, Rejection>
    requires r.ChargeRequest? && plan.ChargePlan?
  {
    var f, op := |db.flows|, |db.operations|;
    var flowed := db.(flows := db.flows + [Flow(POINT_CHARGE, {CHARGE})]);
    match RunCommand(flowed, CommandRow(db, r, f, ExternalPaymentSubject(r.externalPaymentId), op))
    case Err(e) => Err(e)
    case Ok(d) =>
      if FindLot(d, op).Some? then Err(UniqueViolation) else
        Ok(d.(lots := d.lots + [PointLot(plan.account, r.amount, op, f, now)]))
  }

  function PointLot(account: nat, amount: int, operation: nat, flow: nat, now: int): Lot {
    Lot(account, POINT, Some(LotSource(operation, flow, POINT_CHARGE, CHARGE)), None, amount, Max(0, amount), now)
  }

  function CommissionHold(r: Request, plan: Plan): Reservation
    requires r.CheckoutRequest? && plan.CheckoutPlan?
  {
    Reservation(plan.flow, OrderPaymentSubject(r.payment), plan.holder, CommissionPayment, POINT, plan.amount, HELD)
  }

  function ApplyCheckout(db: Db, r: Request, plan: Plan): Result<Db, Rejection>
    requires r.CheckoutRequest? && plan.CheckoutPlan?
  {
    var op, action := |db.operations|, |db.actions|;
    match RunCommand(db, CommandRow(db, r, plan.flow, OrderPaymentSubject(r.payment), op))
    case Err(e) => Err(e)
    case Ok(d1) =>
      var d2 := d1.(actions := d1.actions + [TransferAction(op, plan.flow, PAY)]);
      match Reserve(d2, CommissionHold(r, plan), plan.account, plan.allocations, action)
      case Err(e) => Err(e)
      case Ok(d3) =>
        match FormContract(d3, Contract(plan.order, plan.flow, plan.buyer, plan.worker))
        case Err(e) => Err(e)
        case Ok(d4) =>
          match PayOrder(d4, plan.order, Link(r.payment, plan.flow, |db.reservations|))
          case Err(e) => Err(e)
          case Ok(d5) => OccupySlot(d5, plan.slot, plan.worker)
  }

  function ApplySettle(db: Db, r: Request, plan: Plan, now: int): Result<Db, Rejection>
    requires r.SettleRequest? && plan.SettlePlan?
  {
    var op := |db.operations|;
    match RunCommand(db, CommandRow(db, r, plan.flow, ContractSubject(r.contract), op))
    case Err(e) => Err(e)
    case Ok(d) => SwapInto(d, Swap(plan.flow, op, plan.reservation, plan.beneficiary), plan, now)
  }

  function WithdrawalHold(r: Request, plan: Plan, flow: nat): Reservation
    requires r.WithdrawRequest? && plan.WithdrawPlan?
  {
    Reservation(flow, WithdrawalSubject(flow), plan.holder, IncomeWithdrawal, INCOME, r.amount, HELD)
  }

  function ApplyWithdraw(db: Db, r: Request, plan: Plan): Result<Db, Rejection>
    requires r.WithdrawRequest? && plan.WithdrawPlan?
  {
    var f, op, action := |db.flows|, |db.operations|, |db.actions|;
    var flowed := db.(flows := db.flows + [Flow(WITHDRAWAL, {WITHDRAW})]);
    match RunCommand(flowed, CommandRow(db, r, f, WithdrawalSubject(f), op))
    case Err(e) => Err(e)
    case Ok(d1) =>
      var d2 := d1.(actions := d1.actions + [TransferAction(op, f, WITHDRAW)]);
      match Reserve(d2, WithdrawalHold(r, plan, f), plan.account, plan.allocations, action)
      case Err(e) => Err(e)
      case Ok(d3) => Ok(d3.(withdrawals := d3.withdrawals + [Withdrawal(f, op, action, |db.reservations|)]))
  }

  predicate PlanFits(r: Request, plan: Plan) {
    match r
    case ChargeRequest(_, _, _, _) => plan.ChargePlan?
    case CheckoutRequest(_, _, _) => plan.CheckoutPlan?
    case SettleRequest(_, _, _) => plan.SettlePlan?
    case WithdrawRequest(_, _, _) => plan.WithdrawPlan?
  }

  function ApplyPlan(db: Db, r: Request, plan: Plan, now: int): Result<Db, Rejection>
    requires PlanFits(r, plan)
  {
    match r
    case ChargeRequest(_, _, _, _) => ApplyCharge(db, r, plan, now)
    case CheckoutRequest(_, _, _) => ApplyCheckout(db, r, plan)
    case SettleRequest(_, _, _) => ApplySettle(db, r, plan, now)
    case WithdrawRequest(_, _, _) => ApplyWithdraw(db, r, plan)
  }

  /** A second key for a completed operation: a command row that points at it. */
  function ApplyAlias(db: Db, r: Request, completed: nat): Result<Db, Rejection>
    requires completed < |db.commands|
  {
    var c := db.commands[completed];
    InsertCommand(db, Command(c.flow, FlowKindOf(KindOf(r)), KindOf(r), r.actor, r.key, PayloadOf(r), c.subject, c.result))
  }

  // ----- Results, always loaded from the tables -----

  /** The amounts taken from each commission flow, in order of first appearance. */
  function AddSource(sources: seq<Source>, flow: nat, amount: int): seq<Source> {
    if sources == [] then [Source(flow, amount)]
    else if sources[0].flow == flow then [Source(flow, sources[0].amount + amount)] + sources[1..]
    else [sources[0]] + AddSource(sources[1..], flow, amount)
  }

  predicate CommissionSourced(lots: seq<Lot>, id: nat) {
    id < |lots| && lots[id].source.Some? && lots[id].source.value.flowKind == COMMISSION
  }

  /** The allocation rows of one transfer, by lot id. */
  function TransferKeys(rows: seq<AllocationRow>, transfer: nat, n: nat): seq<F.Key>
    requires n <= |rows|
  {
    if n == 0 then [] else
      TransferKeys(rows, transfer, n - 1)
      + if rows[n - 1].transfer == transfer then [F.Key(rows[n - 1].lot, n - 1)] else []
  }

  /** Folding the rows into sources; `None` when a lot has no commission source. */
  function CollectSources(db: Db, keys: seq<F.Key>): Option<seq<Source>> {
    if keys == [] then Some([]) else
      var n := |keys| - 1;
      match CollectSources(db, keys[..n])
      case None => None
      case Some(sources) =>
        if keys[n].id >= |db.allocations| || !CommissionSourced(db.lots, db.allocations[keys[n].id].lot) then None
        else Some(AddSource(sources, db.lots[db.allocations[keys[n].id].lot].source.value.flow,
                            db.allocations[keys[n].id].amount))
  }

  /** `loadIncomeWithdrawalSources`. */
  function LoadSources(db: Db, reservation: nat): Option<seq<Source>> {
    match FindTransfer(db, reservation)
    case None => Some([])
    case Some(t) => CollectSources(db, F.Order(TransferKeys(db.allocations, t, |db.allocations|)))
  }

  function LoadEffect(db: Db, c: Command, operation: nat): Result<Effect, Rejection> {
    match c.subject
    case ExternalPaymentSubject(_) =>
      (match FindLot(db, operation)
       case None => Err(CorruptResult)
       case Some(lot) => Ok(Charged(lot, db.lots[lot].original)))
    case OrderPaymentSubject(p) =>
      if p >= |db.payments| || db.payments[p].flow != c.flow || db.payments[p].order >= |db.orders| then Err(CorruptResult) else
        (match FindLink(db, p)
         case None => Err(CorruptResult)
         case Some(l) =>
           match FindContract(db, db.payments[p].order)
           case None => Err(CorruptResult)
           case Some(k) => Ok(CheckedOut(db.payments[p].order, p, k, db.links[l].reservation)))
    case ContractSubject(k) =>
      if k >= |db.contracts| || db.contracts[k].flow != c.flow then Err(CorruptResult) else
        (match FindSwap(db, operation)
         case None => Err(CorruptResult)
         case Some(s) =>
           match FindLot(db, operation)
           case None => Err(CorruptResult)
           case Some(lot) => Ok(Settled(k, db.swaps[s].reservation, lot)))
    case WithdrawalSubject(_) =>
      (match FindWithdrawal(db, c.flow)
       case None => Err(CorruptResult)
       case Some(w) =>
         match LoadSources(db, db.withdrawals[w].reservation)
         case None => Err(CorruptResult)
         case Some(sources) => Ok(Withdrawn(w, db.withdrawals[w].reservation, sources)))
  }

  /** The receipt a stored command stands for. */
  function LoadReceipt(db: Db, command: nat, replayed: bool): Result<Receipt, Rejection>
    requires command < |db.commands|
  {
    var c := db.commands[command];
    if c.result.None? || c.result.value >= |db.operations| then Err(NotCompleted) else
      match LoadEffect(db, c, c.result.value)
      case Err(e) => Err(e)
      case Ok(effect) =>
        Ok(Receipt(c.flowKind, c.flow, c.kind, command, db.operations[c.result.value].kind, c.result.value,
                   replayed, effect))
  }

  function WithReceipt(db: Db, command: nat, replayed: bool): Outcome
    requires command < |db.commands|
  {
    match LoadReceipt(db, command, replayed)
    case Err(e) => Err(e)
    case Ok(receipt) => Ok((db, receipt))
  }

  /** Whether a decision can be applied to this state at all. */
  predicate DecisionFits(db: Db, r: Request, d: Decision) {
    match d
    case Reject(_) => true
    case Replay(c) => c < |db.commands|
    case Alias(c) => c < |db.commands|
    case Proceed(plan) => PlanFits(r, plan)
  }

  function Apply(db: Db, r: Request, decision: Decision, now: int): Outcome
    requires DecisionFits(db, r, decision)
  {
    match decision
    case Reject(e) => Err(e)
    case Replay(c) => WithReceipt(db, c, true)
    case Alias(c) =>
      (match ApplyAlias(db, r, c)
       case Err(e) => Err(e)
       case Ok(d) => if |d.commands| == 0 then Err(CorruptResult) else WithReceipt(d, |d.commands| - 1, true))
    case Proceed(plan) =>
      match ApplyPlan(db, r, plan, now)
      case Err(e) => Err(e)
      case Ok(d) => if |d.commands| == 0 then Err(CorruptResult) else WithReceipt(d, |d.commands| - 1, false)
  }

  lemma DecideFits(db: Db, r: Request, targets: Targets)
    requires Matching(r, targets)
    ensures DecisionFits(db, r, Decide(db, r, targets))
  {
  }

  /** One whole transaction run alone: an error leaves no trace. */
  function Exec(db: Db, r: Request, targets: Targets, now: int): Outcome
    requires Matching(r, targets)
  {
    DecideFits(db, r, targets);
    Apply(db, r, Decide(db, r, targets), now)
  }
}
