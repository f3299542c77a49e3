/**
 The financial ledger as it runs: repository functions that insert and update rows in place, and the four
 use-cases that call them in the source's order inside one transaction.
 */
module LedgerStoreModule {
  import opened Prelude
  import opened ReservationPlans
  import opened LedgerTables
  import opened LotQueue
  import opened LedgerUseCases
  import opened LedgerHistory
  import opened LedgerInvariant
  import opened LedgerPlans
  import opened LedgerKeeps
  import opened LedgerReceipts
  import opened LedgerRuns
  import opened LedgerIdempotency

  /** The ids a checkout's result is built from. */
  datatype Written = Written(command: nat, operation: nat, contract: nat, reservation: nat)

  /** The store did what the specification says, or failed with its error. */
  ghost predicate Performed(spec: Outcome, outcome: Result<Receipt, Rejection>, after: Db) {
    match spec
    case Err(e) => outcome == Err(e)
    case Ok(done) => outcome == Ok(done.1) && after == done.0
  }

  class LedgerStore {
    var flows: seq<Flow>
    var commands: seq<Command>
    var operations: seq<Operation>
    var actions: seq<TransferAction>
    var holders: seq<Binding>
    var accounts: seq<Account>
    var lots: seq<Lot>
    var reservations: seq<Reservation>
    var transfers: seq<Transfer>
    var allocations: seq<AllocationRow>
    var swaps: seq<Swap>
    var legs: seq<Leg>
    var withdrawals: seq<Withdrawal>
    var orders: seq<Order>
    var payments: seq<Payment>
    var slots: seq<Slot>
    var types: seq<CommissionType>
    var contracts: seq<Contract>
    var links: seq<Link>

    function View(): Db
      reads this
    {
      Db(flows, commands, operations, actions, holders, accounts, lots, reservations, transfers, allocations, swaps,
         legs, withdrawals, orders, payments, slots, types, contracts, links)
    }

    constructor (db: Db)
      ensures View() == db
    {
      flows, commands, operations, actions := db.flows, db.commands, db.operations, db.actions;
      holders, accounts, lots, reservations := db.holders, db.accounts, db.lots, db.reservations;
      transfers, allocations, swaps, legs := db.transfers, db.allocations, db.swaps, db.legs;
      withdrawals, orders, payments, slots := db.withdrawals, db.orders, db.payments, db.slots;
      types, contracts, links := db.types, db.contracts, db.links;
    }

    method RestoreLedger(db: Db)
      modifies this`flows, this`commands, this`operations, this`actions, this`accounts, this`lots, this`reservations,
               this`transfers, this`allocations
      ensures flows == db.flows && commands == db.commands && operations == db.operations && actions == db.actions
      ensures accounts == db.accounts && lots == db.lots && reservations == db.reservations
      ensures transfers == db.transfers && allocations == db.allocations
    {
      flows, commands, operations, actions := db.flows, db.commands, db.operations, db.actions;
      accounts, lots, reservations := db.accounts, db.lots, db.reservations;
      transfers, allocations := db.transfers, db.allocations;
    }

    method RestoreProduct(db: Db)
      modifies this`swaps, this`legs, this`withdrawals, this`orders, this`payments, this`slots, this`contracts, this`links
      ensures swaps == db.swaps && legs == db.legs && withdrawals == db.withdrawals
      ensures orders == db.orders && payments == db.payments && slots == db.slots
      ensures contracts == db.contracts && links == db.links
    {
      swaps, legs, withdrawals := db.swaps, db.legs, db.withdrawals;
      orders, payments, slots := db.orders, db.payments, db.slots;
      contracts, links := db.contracts, db.links;
    }

    /** A rolled-back transaction leaves the tables as it found them. */
    method Restore(db: Db)
      requires db.holders == holders && db.types == types
      modifies this
      ensures View() == db
    {
      RestoreLedger(db);
      RestoreProduct(db);
    }

    // ----- transaction-flow.repo.ts -----

    method CreateFlow(kind: FlowKind, allowed: set<CommandKind>) returns (id: nat)
      modifies this`flows
      ensures id == |old(flows)| && flows == old(flows) + [Flow(kind, allowed)]
    {
      id := |flows|;
      flows := flows + [Flow(kind, allowed)];
    }

    /** Also `saveCommandAlias`, whose row already has its result. */
    method StartCommand(row: Command) returns (r: Result<nat, Rejection>)
      modifies this`commands
      ensures match InsertCommand(old(View()), row)
              case Err(e) => r == Err(e) && commands == old(commands)
              case Ok(d) => r == Ok(|old(commands)|) && View() == d
    {
      if FindCommand(View(), row.principal, row.kind, row.key).Some? {
        return Err(UniqueViolation);
      }
      if !(row.flow < |flows| && flows[row.flow].kind == row.flowKind && row.kind in flows[row.flow].allowed) {
        return Err(PolicyViolation);
      }
      r := Ok(|commands|);
      commands := commands + [row];
    }

    method CreateOperation(command: nat, flow: nat, kind: CommandKind) returns (id: nat)
      modifies this`operations
      ensures id == |old(operations)| && operations == old(operations) + [Operation(flow, kind, command)]
    {
      id := |operations|;
      operations := operations + [Operation(flow, kind, command)];
    }

    method CompleteCommand(command: nat, operation: nat)
      requires command < |commands|
      modifies this`commands
      ensures commands == old(commands)[..command] + [old(commands)[command].(result := Some(operation))] + old(commands)[command + 1..]
    {
      commands := commands[command := commands[command].(result := Some(operation))];
    }

    // ----- financial-ledger.repo.ts -----

    method CreateTransferAction(operation: nat, flow: nat, kind: CommandKind) returns (id: nat)
      modifies this`actions
      ensures id == |old(actions)| && actions == old(actions) + [TransferAction(operation, flow, kind)]
    {
      id := |actions|;
      actions := actions + [TransferAction(operation, flow, kind)];
    }

    /** A lot's source operation is unique. */
    method CreateLot(lot: Lot, operation: nat) returns (r: Result<nat, Rejection>)
      modifies this`lots
      ensures FindLot(old(View()), operation).Some? ==> r == Err(UniqueViolation)
      ensures FindLot(old(View()), operation).None? ==> r == Ok(|old(lots)|) && lots == old(lots) + [lot]
    {
      if FindLot(View(), operation).Some? {
        return Err(UniqueViolation);
      }
      r := Ok(|lots|);
      lots := lots + [lot];
    }

    method ApplyPointChargeLot(account: nat, amount: int, operation: nat, flow: nat, now: int) returns (r: Result<nat, Rejection>)
      modifies this`lots
      ensures FindLot(old(View()), operation).Some? ==> r == Err(UniqueViolation)
      ensures FindLot(old(View()), operation).None? ==>
                && r == Ok(|old(lots)|)
                && lots == old(lots) + [Lot(account, POINT, Some(LotSource(operation, flow, POINT_CHARGE, CHARGE)), None,
                                            amount, Max(0, amount), now)]
    {
      r := CreateLot(Lot(account, POINT, Some(LotSource(operation, flow, POINT_CHARGE, CHARGE)), None,
                         amount, Max(0, amount), now), operation);
    }

    /** The guarded decrements of a reservation, one allocation at a time; the first miss stops the loop. */
    method TakeLots(account: nat, currency: Currency, parts: seq<Allocation>) returns (ok: bool)
      modifies this`lots
      ensures ok <==> TakeAll(old(lots), account, currency, parts).Some?
      ensures ok ==> lots == TakeAll(old(lots), account, currency, parts).value
    {
      var i := 0;
      while i < |parts|
        invariant 0 <= i <= |parts|
        invariant TakeAll(old(lots), account, currency, parts) == TakeAll(lots, account, currency, parts[i..])
      {
        var a := parts[i];
        assert parts[i..][1..] == parts[i + 1..];
        if !LotGuard(lots, account, currency, a) {
          return false;
        }
        lots := lots[a.lotId := lots[a.lotId].(remaining := lots[a.lotId].remaining - a.amount)];
        i := i + 1;
      }
      return true;
    }

    /** `applyCommissionPaymentReservation` and `applyIncomeWithdrawalReservation`. */
    method ApplyReservation(hold: Reservation, account: nat, parts: seq<Allocation>, action: nat) returns (r: Result<nat, Rejection>)
      modifies this`lots, this`reservations, this`accounts, this`transfers, this`allocations
      ensures match Reserve(old(View()), hold, account, parts, action)
              case Err(e) => r == Err(e)
              case Ok(d) => r == Ok(|old(reservations)|) && View() == d
    {
      hide First, TakeAll;
      var taken := TakeLots(account, hold.currency, parts);
      if !taken {
        return Err(ConcurrentUpdate);
      }
      if BindingTaken(View(), hold.binding) {
        return Err(UniqueViolation);
      }
      var id, escrow, transfer := |reservations|, |accounts|, |transfers|;
      reservations := reservations + [hold];
      accounts := accounts + [Account(hold.currency, EscrowAccount, ReservationOwner(id))];
      transfers := transfers + [Transfer(id, hold.flow, hold.currency, account, escrow, hold.target, action)];
      allocations := allocations + AllocationRows(transfer, account, hold.currency, parts);
      return Ok(id);
    }

    method CreateSwap(swap: Swap, plan: Plan) returns (r: Result<nat, Rejection>)
      requires plan.SettlePlan?
      modifies this`swaps, this`legs
      ensures SwapTaken(old(View()), swap) ==> r == Err(UniqueViolation)
      ensures !SwapTaken(old(View()), swap) ==>
                r == Ok(|old(swaps)|) && swaps == old(swaps) + [swap]
                && legs == old(legs) + [Leg(|old(swaps)|, swap.flow, POINT, plan.escrow, plan.settled, plan.amount),
                                        Leg(|old(swaps)|, swap.flow, INCOME, plan.issuer, plan.available, plan.amount)]
    {
      if SwapTaken(View(), swap) {
        return Err(UniqueViolation);
      }
      var id := |swaps|;
      swaps := swaps + [swap];
      legs := legs + [Leg(id, swap.flow, POINT, plan.escrow, plan.settled, plan.amount),
                      Leg(id, swap.flow, INCOME, plan.issuer, plan.available, plan.amount)];
      return Ok(id);
    }

    method SettleHold(reservation: nat, flow: nat) returns (ok: bool)
      modifies this`reservations
      ensures ok <==> reservation < |old(reservations)| && old(reservations)[reservation].flow == flow
                      && old(reservations)[reservation].state == HELD
      ensures ok ==> reservations == old(reservations)[reservation := old(reservations)[reservation].(state := SETTLED)]
    {
      ok := reservation < |reservations| && reservations[reservation].flow == flow && reservations[reservation].state == HELD;
      if ok {
        reservations := reservations[reservation := reservations[reservation].(state := SETTLED)];
      }
    }

    method ApplyCommissionIncomeSettlement(swap: Swap, plan: Plan, now: int) returns (r: Result<nat, Rejection>)
      requires plan.SettlePlan?
      modifies this`swaps, this`legs, this`lots, this`reservations
      ensures match SwapInto(old(View()), swap, plan, now)
              case Err(e) => r == Err(e)
              case Ok(d) => r == Ok(|old(lots)|) && View() == d
    {
      hide First, SwapTaken, IncomeLot, Max;
      var id := CreateSwap(swap, plan);
      if id.Err? {
        return Err(id.error);
      }
      r := CreateLot(IncomeLot(plan, swap.operation, id.value, now), swap.operation);
      if r.Ok? {
        var settled := SettleHold(swap.reservation, swap.flow);
        if !settled {
          return Err(ConcurrentUpdate);
        }
      }
    }

    // ----- contract.repo.ts, order.repo.ts, slot.repo.ts -----

    method ApplyContractFormation(row: Contract) returns (r: Result<nat, Rejection>)
      modifies this`contracts
      ensures match FormContract(old(View()), row)
              case Err(e) => r == Err(e)
              case Ok(d) => r == Ok(|old(contracts)|) && View() == d
    {
      if FindContract(View(), row.order).Some? {
        return Err(UniqueViolation);
      }
      r := Ok(|contracts|);
      contracts := contracts + [row];
    }

    method ApplyCheckoutPayment(order: nat, link: Link) returns (r: Result<(), Rejection>)
      modifies this`payments, this`orders, this`links
      ensures match PayOrder(old(View()), order, link)
              case Err(e) => r == Err(e)
              case Ok(d) => r.Ok? && View() == d
    {
      if !(link.payment < |payments| && payments[link.payment].order == order
           && payments[link.payment].state == PAYMENT_PENDING) {
        return Err(ConcurrentUpdate);
      }
      payments := payments[link.payment := payments[link.payment].(state := PAYMENT_PAID)];
      if !(order < |orders| && orders[order].state == ORDER_REQUESTED) {
        return Err(ConcurrentUpdate);
      }
      orders := orders[order := orders[order].(state := ORDER_PAID)];
      if LinkTaken(View(), link) {
        return Err(UniqueViolation);
      }
      links := links + [link];
      return Ok(());
    }

    method ApplySlotOccupation(slot: nat, worker: nat) returns (r: Result<(), Rejection>)
      modifies this`slots
      ensures match OccupySlot(old(View()), slot, worker)
              case Err(e) => r == Err(e)
              case Ok(d) => r.Ok? && View() == d
    {
      if !(slot < |slots| && slots[slot].worker == worker && slots[slot].state == SLOT_AVAILABLE) {
        return Err(ConcurrentUpdate);
      }
      slots := slots[slot := slots[slot].(state := SLOT_OCCUPIED)];
      return Ok(());
    }

    /** A command and its operation, with the command's result still to come. */
    method StartOperation(row: Command) returns (r: Result<(nat, nat), Rejection>)
      requires row.result.None?
      modifies this`commands, this`operations
      ensures match RunCommand(old(View()), row.(result := Some(|old(operations)|)))
              case Err(e) => r == Err(e)
              case Ok(d) => r == Ok((|old(commands)|, |old(operations)|)) && commands == old(commands) + [row]
                            && d.commands == old(commands) + [row.(result := Some(|old(operations)|))]
                            && View() == d.(commands := commands)
    {
      hide First;
      var started := StartCommand(row);
      if started.Err? {
        return Err(started.error);
      }
      var operation := CreateOperation(started.value, row.flow, row.kind);
      return Ok((started.value, operation));
    }

    /** The row `startCommand` inserts: it has no result yet. */
    static function StartedRow(db: Db, r: Request, flow: nat, subject: Subject): Command {
      CommandRow(db, r, flow, subject, 0).(result := None)
    }

    // ----- The write phase of each use-case; a failure may leave some of the writes behind -----

    /** The flow, command and operation of a point charge. */
    method OpenCharge(r: Request) returns (begun: Result<(nat, nat, nat), Rejection>)
      requires r.ChargeRequest?
      modifies this`flows, this`commands, this`operations
      ensures var f, op := |old(flows)|, |old(operations)|;
              var flowed := old(View()).(flows := old(flows) + [Flow(POINT_CHARGE, {CHARGE})]);
              var row := CommandRow(old(View()), r, f, ExternalPaymentSubject(r.externalPaymentId), op);
              match RunCommand(flowed, row)
              case Err(e) => begun == Err(e)
              case Ok(d) => begun == Ok((f, |old(commands)|, op))
                            && commands == old(commands) + [row.(result := None)] && d.commands == old(commands) + [row]
                            && View() == d.(commands := commands)
    {
      hide InsertCommand;
      var flow := CreateFlow(POINT_CHARGE, {CHARGE});
      var started := StartOperation(StartedRow(View(), r, flow, ExternalPaymentSubject(r.externalPaymentId)));
      if started.Err? {
        return Err(started.error);
      }
      return Ok((flow, started.value.0, started.value.1));
    }

    method WriteCharge(r: Request, plan: Plan, now: int) returns (done: Result<nat, Rejection>)
      requires r.ChargeRequest? && plan.ChargePlan?
      modifies this`flows, this`commands, this`operations, this`lots
      ensures match ApplyCharge(old(View()), r, plan, now)
              case Err(e) => done == Err(e)
              case Ok(d) => done == Ok(|old(commands)|) && View() == d && |commands| == |old(commands)| + 1
    {
      var begun := OpenCharge(r);
      hide RunCommand, CommandRow, First;
      if begun.Err? {
        return Err(begun.error);
      }
      var (flow, command, operation) := begun.value;
      var lot := ApplyPointChargeLot(plan.account, r.amount, operation, flow, now);
      if lot.Err? {
        return Err(lot.error);
      }
      CompleteCommand(command, operation);
      return Ok(command);
    }

    /** Command, operation and transfer action of a checkout, completed before any economic write. */
    method OpenCheckout(r: Request, flow: nat) returns (begun: Result<(nat, nat), Rejection>)
      requires r.CheckoutRequest?
      modifies this`commands, this`operations, this`actions
      ensures match RunCommand(old(View()), CommandRow(old(View()), r, flow, OrderPaymentSubject(r.payment), |old(operations)|))
              case Err(e) => begun == Err(e)
              case Ok(d) => begun == Ok((|old(commands)|, |old(actions)|))
                            && View() == d.(actions := d.actions + [TransferAction(|old(operations)|, flow, PAY)])
    {
      hide InsertCommand;
      var started := StartOperation(StartedRow(View(), r, flow, OrderPaymentSubject(r.payment)));
      if started.Err? {
        return Err(started.error);
      }
      var (command, operation) := started.value;
      var action := CreateTransferAction(operation, flow, PAY);
      CompleteCommand(command, operation);
      return Ok((command, action));
    }

    method WriteCheckout(r: Request, plan: Plan) returns (done: Result<Written, Rejection>)
      requires r.CheckoutRequest? && plan.CheckoutPlan?
      modifies this`commands, this`operations, this`actions, this`lots, this`reservations, this`accounts, this`transfers,
               this`allocations, this`contracts, this`payments, this`orders, this`links, this`slots
      ensures match ApplyCheckout(old(View()), r, plan)
              case Err(e) => done == Err(e)
              case Ok(d) => done == Ok(Written(|old(commands)|, |old(operations)|, |old(contracts)|, |old(reservations)|))
                            && View() == d
    {
      ghost var db := View();
      var operation := |operations|;
      var begun := OpenCheckout(r, plan.flow);
      if begun.Err? {
        return Err(begun.error);
      }
      hide RunCommand, Reserve, FormContract, PayOrder, OccupySlot, CommandRow;
      ghost var d2 := View();
      var reservation := ApplyReservation(CommissionHold(r, plan), plan.account, plan.allocations, begun.value.1);
      assert begun.value.1 == |db.actions|;
      if reservation.Err? {
        return Err(reservation.error);
      }
      var contract := ApplyContractFormation(Contract(plan.order, plan.flow, plan.buyer, plan.worker));
      if contract.Err? {
        return Err(contract.error);
      }
      var paid := ApplyCheckoutPayment(plan.order, Link(r.payment, plan.flow, reservation.value));
      if paid.Err? {
        return Err(paid.error);
      }
      var occupied := ApplySlotOccupation(plan.slot, plan.worker);
      if occupied.Err? {
        return Err(occupied.error);
      }
      return Ok(Written(begun.value.0, operation, contract.value, reservation.value));
    }

    method WriteSettlement(r: Request, plan: Plan, now: int) returns (done: Result<(nat, nat), Rejection>)
      requires r.SettleRequest? && plan.SettlePlan?
      modifies this`commands, this`operations, this`swaps, this`legs, this`lots, this`reservations
      ensures match ApplySettle(old(View()), r, plan, now)
              case Err(e) => done == Err(e)
              case Ok(d) => done == Ok((|old(commands)|, |old(lots)|)) && View() == d && |commands| == |old(commands)| + 1
    {
      ghost var row := CommandRow(View(), r, plan.flow, ContractSubject(r.contract), |operations|);
      var started := StartOperation(StartedRow(View(), r, plan.flow, ContractSubject(r.contract)));
      hide RunCommand, SwapInto, CommandRow;
      if started.Err? {
        return Err(started.error);
      }
      var (command, operation) := started.value;
      var swap := Swap(plan.flow, operation, plan.reservation, plan.beneficiary);
      SwapIgnoresCommands(RunCommand(old(View()), row).value, commands, swap, plan, now);
      var lot := ApplyCommissionIncomeSettlement(swap, plan, now);
      if lot.Err? {
        return Err(lot.error);
      }
      CompleteCommand(command, operation);
      return Ok((command, lot.value));
    }

    /** The flow, command, operation and transfer action of a withdrawal. */
    method OpenWithdrawal(r: Request) returns (begun: Result<(nat, nat, nat, nat), Rejection>)
      requires r.WithdrawRequest?
      modifies this`flows, this`commands, this`operations, this`actions
      ensures var f, op := |old(flows)|, |old(operations)|;
              var flowed := old(View()).(flows := old(flows) + [Flow(WITHDRAWAL, {WITHDRAW})]);
              var row := CommandRow(old(View()), r, f, WithdrawalSubject(f), op);
              match RunCommand(flowed, row)
              case Err(e) => begun == Err(e)
              case Ok(d) => begun == Ok((f, |old(commands)|, op, |old(actions)|))
                            && commands == old(commands) + [row.(result := None)] && d.commands == old(commands) + [row]
                            && View() == d.(actions := d.actions + [TransferAction(op, f, WITHDRAW)], commands := commands)
    {
      hide InsertCommand;
      var flow := CreateFlow(WITHDRAWAL, {WITHDRAW});
      var started := StartOperation(StartedRow(View(), r, flow, WithdrawalSubject(flow)));
      if started.Err? {
        return Err(started.error);
      }
      var (command, operation) := started.value;
      var action := CreateTransferAction(operation, flow, WITHDRAW);
      return Ok((flow, command, operation, action));
    }

    /** Hold the INCOME, then `createWithdrawal`. */
    method HoldIncome(hold: Reservation, account: nat, parts: seq<Allocation>, action: nat, operation: nat)
      returns (r: Result<(), Rejection>)
      modifies this`lots, this`reservations, this`accounts, this`transfers, this`allocations, this`withdrawals
      ensures match Reserve(old(View()), hold, account, parts, action)
              case Err(e) => r == Err(e)
              case Ok(d) => r.Ok? && View() == d.(withdrawals := d.withdrawals
                              + [Withdrawal(hold.flow, operation, action, |old(reservations)|)])
    {
      hide Reserve;
      var reservation := ApplyReservation(hold, account, parts, action);
      if reservation.Err? {
        return Err(reservation.error);
      }
      withdrawals := withdrawals + [Withdrawal(hold.flow, operation, action, reservation.value)];
      return Ok(());
    }

    method WriteWithdrawal(r: Request, plan: Plan) returns (done: Result<nat, Rejection>)
      requires r.WithdrawRequest? && plan.WithdrawPlan?
      modifies this`flows, this`commands, this`operations, this`actions, this`lots, this`reservations, this`accounts,
               this`transfers, this`allocations, this`withdrawals
      ensures match ApplyWithdraw(old(View()), r, plan)
              case Err(e) => done == Err(e)
              case Ok(d) => done == Ok(|old(commands)|) && View() == d && |commands| == |old(commands)| + 1
    {
      ghost var flowed := View().(flows := flows + [Flow(WITHDRAWAL, {WITHDRAW})]);
      ghost var row := CommandRow(View(), r, |flows|, WithdrawalSubject(|flows|), |operations|);
      var begun := OpenWithdrawal(r);
      hide RunCommand, Reserve, CommandRow;
      if begun.Err? {
        return Err(begun.error);
      }
      var (flow, command, operation, action) := begun.value;
      var hold := WithdrawalHold(r, plan, flow);
      ghost var d := RunCommand(flowed, row).value;
      ReserveIgnoresCommands(d.(actions := actions), commands, hold, plan.account, plan.allocations, action);
      ReserveKeepsOthers(d.(actions := actions), hold, plan.account, plan.allocations, action);
      var held := HoldIncome(hold, plan.account, plan.allocations, action, operation);
      if held.Err? {
        return Err(held.error);
      }
      CompleteCommand(command, operation);
      return Ok(command);
    }

    // ----- One transaction of each use-case -----

    method ExecutePointCharge(r: Request, t: Targets, now: int) returns (outcome: Result<Receipt, Rejection>)
      requires Inv(View()) && r.ChargeRequest? && t.ChargeTargets?
      modifies this`flows, this`commands, this`operations, this`lots
      ensures Performed(Exec(old(View()), r, t, now), outcome, View())
    {
      hide Inv, DecideCharge, ApplyCharge, LoadReceipt;
      var decision := DecideCharge(View(), r, t.holder);
      ChargeNeverAliases(View(), r, t.holder);
      DecideFits(View(), r, t);
      if decision.Reject? {
        return Err(decision.reason);
      }
      if decision.Replay? {
        return LoadReceipt(View(), decision.command, true);
      }
      var done := WriteCharge(r, decision.plan, now);
      if done.Err? {
        return Err(done.error);
      }
      return LoadReceipt(View(), done.value, false);
    }

    /** `saveCommandAlias` after the stored result has been loaded; the alias keeps its own command id. */
    method AnswerAlias(r: Request, completed: nat) returns (outcome: Result<Receipt, Rejection>)
      requires Inv(View()) && completed < |commands|
      requires AliasRow(View(), r, completed) == commands[completed].(key := r.key) && !r.ChargeRequest?
      modifies this`commands
      ensures match ApplyAlias(old(View()), r, completed)
              case Err(e) => outcome == Err(e)
              case Ok(d) => View() == d && |commands| == |old(commands)| + 1
                            && outcome == LoadReceipt(d, |old(commands)|, true)
    {
      hide Inv, LoadReceipt, InsertCommand, Extends;
      ReceiptLoads(View(), completed, true);
      var stored := LoadReceipt(View(), completed, true);
      ghost var db := View();
      if ApplyAlias(db, r, completed).Ok? {
        AliasAnswer(db, r, completed);
      }
      var alias := StartCommand(commands[completed].(key := r.key));
      if alias.Err? {
        return Err(alias.error);
      }
      return Ok(stored.value.(command := alias.value));
    }

    method ExecuteCheckout(r: Request, t: Targets) returns (outcome: Result<Receipt, Rejection>)
      requires Inv(View()) && r.CheckoutRequest? && t.CheckoutTargets?
      modifies this`commands, this`operations, this`actions, this`lots, this`reservations, this`accounts, this`transfers,
               this`allocations, this`contracts, this`payments, this`orders, this`links, this`slots
      ensures Performed(Exec(old(View()), r, t, 0), outcome, View())
    {
      hide Inv, DecideCheckout, ApplyCheckout, ApplyAlias, LoadReceipt, CheckoutReady;
      var decision := DecideCheckout(View(), r, t);
      DecideFits(View(), r, t);
      match decision {
        case Reject(e) => return Err(e);
        case Replay(c) => return LoadReceipt(View(), c, true);
        case Alias(c) =>
          AliasIsSameCommand(View(), r, t);
          outcome := AnswerAlias(r, c);
        case Proceed(plan) =>
          CheckoutDecided(View(), r, t);
          if ApplyCheckout(View(), r, plan).Ok? {
            CheckoutReceipt(View(), r, plan);
          }
          var done := WriteCheckout(r, plan);
          if done.Err? {
            return Err(done.error);
          }
          var ids := done.value;
          return Ok(Receipt(COMMISSION, plan.flow, PAY, ids.command, PAY, ids.operation, false,
                            CheckedOut(plan.order, r.payment, ids.contract, ids.reservation)));
      }
    }

    method ExecuteSettlement(r: Request, t: Targets, now: int) returns (outcome: Result<Receipt, Rejection>)
      requires Inv(View()) && r.SettleRequest? && t.SettleTargets?
      modifies this`commands, this`operations, this`swaps, this`legs, this`lots, this`reservations
      ensures Performed(Exec(old(View()), r, t, now), outcome, View())
    {
      hide Inv, DecideSettle, ApplySettle, ApplyAlias, LoadReceipt, SettleReady;
      var decision := DecideSettle(View(), r, t);
      DecideFits(View(), r, t);
      match decision {
        case Reject(e) => return Err(e);
        case Replay(c) => return LoadReceipt(View(), c, true);
        case Alias(c) =>
          AliasIsSameCommand(View(), r, t);
          outcome := AnswerAlias(r, c);
        case Proceed(plan) =>
          ProductOf(View());
          SettleDecided(View(), r, t);
          var operation := |operations|;
          if ApplySettle(View(), r, plan, now).Ok? {
            SettlementResult(View(), r, plan, now);
          }
          var done := WriteSettlement(r, plan, now);
          if done.Err? {
            return Err(done.error);
          }
          return Ok(Receipt(COMMISSION, plan.flow, SETTLE, done.value.0, SETTLE, operation, false,
                            Settled(r.contract, plan.reservation, done.value.1)));
      }
    }

    method ExecuteWithdrawal(r: Request, t: Targets) returns (outcome: Result<Receipt, Rejection>)
      requires Inv(View()) && r.WithdrawRequest? && t.WithdrawTargets?
      modifies this`flows, this`commands, this`operations, this`actions, this`lots, this`reservations, this`accounts,
               this`transfers, this`allocations, this`withdrawals
      ensures Performed(Exec(old(View()), r, t, 0), outcome, View())
    {
      hide Inv, DecideWithdraw, ApplyWithdraw, LoadReceipt;
      var decision := DecideWithdraw(View(), r, t.holder);
      WithdrawNeverAliases(View(), r, t.holder);
      DecideFits(View(), r, t);
      if decision.Reject? {
        return Err(decision.reason);
      }
      if decision.Replay? {
        return LoadReceipt(View(), decision.command, true);
      }
      var done := WriteWithdrawal(r, decision.plan);
      if done.Err? {
        return Err(done.error);
      }
      return LoadReceipt(View(), done.value, false);
    }

    /**
     A request from choosing its targets to its commit or rollback: the tables and the answer are those of
     the specification, so every theorem about its runs holds of this store.
     */
    method Transact(r: Request, now: int) returns (outcome: Result<Receipt, Rejection>)
      requires Inv(View())
      modifies this
      ensures Inv(View()) && Extends(old(View()), View())
      ensures View() == After(old(View()), Event(r, now))
      ensures match Serve(old(View()), Event(r, now))
              case Err(e) => outcome == Err(e)
              case Ok(done) => outcome == Ok(done.1)
    {
      hide Inv, Extends, Exec, Prepare;
      AfterKeeps(View(), Event(r, now));
      var prepared := Prepare(View(), r);
      if prepared.Err? {
        return Err(prepared.error);
      }
      TargetsMatch(View(), r);
      var saved := View();
      match r {
        case ChargeRequest(_, _, _, _) => outcome := ExecutePointCharge(r, prepared.value, now);
        case CheckoutRequest(_, _, _) => outcome := ExecuteCheckout(r, prepared.value);
        case SettleRequest(_, _, _) => outcome := ExecuteSettlement(r, prepared.value, now);
        case WithdrawRequest(_, _, _) => outcome := ExecuteWithdrawal(r, prepared.value);
      }
      TimeMatters(saved, r, prepared.value, now);
      if outcome.Err? {
        Restore(saved);
      }
    }
  }

  lemma TargetsMatch(db: Db, r: Request)
    requires Prepare(db, r).Ok?
    ensures Matching(r, Prepare(db, r).value)
  {
  }

  /** Only charges and settlements stamp a row with the time. */
  lemma TimeMatters(db: Db, r: Request, t: Targets, now: int)
    requires Matching(r, t)
    ensures r.CheckoutRequest? || r.WithdrawRequest? ==> Exec(db, r, t, 0) == Exec(db, r, t, now)
  {
  }

  lemma AliasAnswer(db: Db, r: Request, c: nat)
    requires Inv(db) && c < |db.commands| && ApplyAlias(db, r, c).Ok? && LoadReceipt(db, c, true).Ok?
    requires AliasRow(db, r, c) == db.commands[c].(key := r.key) && !r.ChargeRequest?
    ensures ApplyAlias(db, r, c).value == AfterAlias(db, AliasRow(db, r, c))
    ensures LoadReceipt(AfterAlias(db, AliasRow(db, r, c)), |db.commands|, true)
         == Ok(LoadReceipt(db, c, true).value.(command := |db.commands|))
  {
    AliasKeeps(db, r, c);
    var after := AfterAlias(db, AliasRow(db, r, c));
    ReceiptStable(db, after, c, true);
    AliasReceipt(after, c, |db.commands|);
  }

  lemma WithdrawNeverAliases(db: Db, r: Request, holder: nat)
    requires r.WithdrawRequest?
    ensures !DecideWithdraw(db, r, holder).Alias?
  {
  }

  // ----- Receipts a use-case builds from what it wrote -----

  /** The result a checkout returns from its writes is the one every replay loads from the tables. */
  lemma CheckoutReceipt(db: Db, r: Request, plan: Plan)
    requires Inv(db) && CheckoutReady(db, r, plan) && ApplyCheckout(db, r, plan).Ok?
    ensures var after := ApplyCheckout(db, r, plan).value;
            |after.commands| == |db.commands| + 1
            && LoadReceipt(after, |db.commands|, false)
               == Ok(Receipt(COMMISSION, plan.flow, PAY, |db.commands|, PAY, |db.operations|, false,
                             CheckedOut(plan.order, r.payment, |db.contracts|, |db.reservations|)))
  {
    hide CommandsInv, HoldsInv, LotsInv, SettlementInv, WithdrawalsInv, OwnersInv, EffectsInv, Conserved, Formed,
         ApplyCheckout, Catalogue, StatesInStep, Funds, NewCommand, TakeAll, Extends;
    CheckoutWrites(db, r, plan);
    CheckoutKeeps(db, r, plan);
    var after := ApplyCheckout(db, r, plan).value;
    LinkUnique(after, |db.contracts|);
    ContractOfOrder(after, |db.contracts|);
  }

  /** The same for a settlement. */
  lemma SettlementResult(db: Db, r: Request, plan: Plan, now: int)
    requires Inv(db) && SettleReady(db, r, plan) && ApplySettle(db, r, plan, now).Ok?
    ensures var after := ApplySettle(db, r, plan, now).value;
            |after.commands| == |db.commands| + 1
            && LoadReceipt(after, |db.commands|, false)
               == Ok(Receipt(COMMISSION, plan.flow, SETTLE, |db.commands|, SETTLE, |db.operations|, false,
                             Settled(r.contract, plan.reservation, |db.lots|)))
  {
    hide CommandsInv, HoldsInv, WithdrawalsInv, OwnersInv, EffectsInv, Conserved;
    SettleWrites(db, r, plan, now);
    SettleKeeps(db, r, plan, now);
    var after := ApplySettle(db, r, plan, now).value;
    SwapOfOperation(after, |db.swaps|);
    LotOfOperation(after, |db.lots|);
  }

  lemma ChargeNeverAliases(db: Db, r: Request, holder: nat)
    requires r.ChargeRequest?
    ensures !DecideCharge(db, r, holder).Alias?
  {
  }

  /** Completing the command after the economic writes, rather than before, comes to the same. */
  lemma SwapIgnoresCommands(db: Db, commands: seq<Command>, swap: Swap, plan: Plan, now: int)
    requires plan.SettlePlan?
    ensures SwapInto(db.(commands := commands), swap, plan, now)
         == match SwapInto(db, swap, plan, now)
            case Err(e) => Err(e)
            case Ok(d) => Ok(d.(commands := commands))
  {
  }

  lemma ReserveKeepsOthers(db: Db, hold: Reservation, account: nat, parts: seq<Allocation>, action: nat)
    ensures var r := Reserve(db, hold, account, parts, action);
            r.Ok? ==> r.value == db.(lots := r.value.lots, reservations := r.value.reservations, accounts := r.value.accounts,
                                     transfers := r.value.transfers, allocations := r.value.allocations)
  {
  }

  lemma ReserveIgnoresCommands(
    db: Db, commands: seq<Command>, hold: Reservation, account: nat, parts: seq<Allocation>, action: nat)
    ensures Reserve(db.(commands := commands), hold, account, parts, action)
         == match Reserve(db, hold, account, parts, action)
            case Err(e) => Err(e)
            case Ok(d) => Ok(d.(commands := commands))
  {
  }
}
