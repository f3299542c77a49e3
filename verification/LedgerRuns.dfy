/**
 Whole runs: any sequence of requests, each prepared, decided and applied; errors leave no trace.
 */
module LedgerRuns {
  import opened Prelude
  import opened LedgerTables
  import opened LedgerUseCases
  import opened LedgerHistory
  import opened LedgerInvariant
  import opened LedgerPlans
  import opened LedgerKeeps

  datatype Event = Event(request: Request, now: int)

  /** One request served alone, from choosing its lock targets to its commit. */
  function Serve(db: Db, e: Event): Outcome {
    match Prepare(db, e.request)
    case Err(reason) => Err(reason)
    case Ok(targets) => Exec(db, e.request, targets, e.now)
  }

  function After(db: Db, e: Event): Db {
    match Serve(db, e)
    case Err(_) => db
    case Ok(done) => done.0
  }

  function RunAll(db: Db, events: seq<Event>): Db
    decreases |events|
  {
    if events == [] then db else RunAll(After(db, events[0]), events[1..])
  }

  /** An alias row is the completed command under another key. */
  lemma AliasIsSameCommand(db: Db, r: Request, targets: Targets)
    requires Inv(db) && Matching(r, targets) && Decide(db, r, targets).Alias?
    ensures var c := Decide(db, r, targets).command;
            c < |db.commands| && AliasRow(db, r, c) == db.commands[c].(key := r.key)
            && FindCommand(db, r.actor, KindOf(r), r.key).None?
            && SubjectOf(r) == Some(db.commands[c].subject) && !r.ChargeRequest?
  {
    hide HoldsInv, LotsInv, ProductInv, SettlementInv, WithdrawalsInv, OwnersInv, EffectsInv, Conserved;
    var c := Decide(db, r, targets).command;
    assert CommandOk(db, c);
    if r.CheckoutRequest? {
      PaidByTheBuyer(db, c);
    }
  }

  /** Whoever paid an order payment is its order's buyer. */
  lemma PaidByTheBuyer(db: Db, c: nat)
    requires Inv(db) && c < |db.commands| && db.commands[c].kind == PAY && db.commands[c].subject.OrderPaymentSubject?
    ensures var p := db.commands[c].subject.orderPaymentId;
            p < |db.payments| && db.payments[p].order < |db.orders|
            && db.commands[c].principal == db.orders[db.payments[p].order].buyer
  {
    hide HoldsInv, LotsInv, SettlementInv, WithdrawalsInv, OwnersInv, Conserved;
    assert CommandOk(db, c) && EffectOk(db, c);
    var k: nat :| PaidBy(db, c, k);
    assert Formed(db, k);
    var origin := db.operations[db.actions[db.transfers[db.links[k].reservation].action].operation].command;
    assert db.commands[origin].(key := "") == db.commands[c].(key := "");
  }

  lemma ExecKeeps(db: Db, r: Request, targets: Targets, now: int)
    requires Inv(db) && Prepared(db, r, targets) && Matching(r, targets) && Exec(db, r, targets, now).Ok?
    ensures var after := Exec(db, r, targets, now).value.0;
            Inv(after) && Extends(db, after)
  {
    hide Decide, ApplyAlias, ApplyPlan, LoadReceipt, Inv, Extends, Ready;
    DecideFits(db, r, targets);
    var d := Decide(db, r, targets);
    match d
    case Reject(_) =>
    case Replay(_) => ExtendsItself(db);
    case Alias(c) =>
      AliasIsSameCommand(db, r, targets);
      AliasKeeps(db, r, c);
    case Proceed(plan) =>
      ProductOf(db);
      Decided(db, r, targets);
      ProceedKeeps(db, r, plan, now);
  }

  lemma ProductOf(db: Db)
    requires Inv(db)
    ensures ProductInv(db)
  {
  }

  lemma ExtendsItself(db: Db)
    ensures Extends(db, db)
  {
  }

  lemma ProceedKeeps(db: Db, r: Request, plan: Plan, now: int)
    requires Inv(db) && PlanFits(r, plan) && Ready(db, r, plan) && ApplyPlan(db, r, plan, now).Ok?
    ensures Inv(ApplyPlan(db, r, plan, now).value) && Extends(db, ApplyPlan(db, r, plan, now).value)
  {
    match r
    case ChargeRequest(_, _, _, _) => ChargeWrites(db, r, plan, now); ChargeKeeps(db, r, plan, now);
    case CheckoutRequest(_, _, _) => CheckoutKeeps(db, r, plan);
    case SettleRequest(_, _, _) => SettleWrites(db, r, plan, now); SettleKeeps(db, r, plan, now);
    case WithdrawRequest(_, _, _) => WithdrawKeeps(db, r, plan);
  }

  lemma AfterKeeps(db: Db, e: Event)
    requires Inv(db)
    ensures Inv(After(db, e)) && Extends(db, After(db, e))
  {
    ExtendsItself(db);
    if Prepare(db, e.request).Ok? && Exec(db, e.request, Prepare(db, e.request).value, e.now).Ok? {
      ExecKeeps(db, e.request, Prepare(db, e.request).value, e.now);
    }
  }

  lemma {:induction false} RunKeeps(db: Db, events: seq<Event>)
    requires Inv(db)
    ensures Inv(RunAll(db, events)) && Extends(db, RunAll(db, events))
    decreases |events|
  {
    if events == [] {
      ExtendsItself(db);
    } else {
      AfterKeeps(db, events[0]);
      RunKeeps(After(db, events[0]), events[1..]);
      ExtendsTransitive(db, After(db, events[0]), RunAll(db, events));
    }
  }

  // ----- Conservation and states over every run -----

  /**
   End-to-end conservation: POINT issued is available, held or settled; INCOME available plus INCOME held
   by withdrawals is the POINT settled; every lot is what remains of it plus what was drawn from it; every
   transfer is the sum of its allocations.
   */
  lemma EveryRunConserves(db: Db, events: seq<Event>)
    requires Initial(db)
    ensures var end := RunAll(db, events);
            && Originals(end.lots, POINT)
               == Remainings(end.lots, POINT) + Holds(end.reservations, POINT, HELD) + Holds(end.reservations, POINT, SETTLED)
            && Remainings(end.lots, INCOME) + Holds(end.reservations, INCOME, HELD) == Holds(end.reservations, POINT, SETTLED)
            && (forall l :: 0 <= l < |end.lots| ==>
                 end.lots[l].original == end.lots[l].remaining + DrawnFromLot(end.allocations, l))
            && |end.transfers| == |end.reservations|
            && forall t :: 0 <= t < |end.transfers| ==>
                 end.transfers[t].amount == end.reservations[t].target == DrawnByTransfer(end.allocations, t)
  {
    InitialInv(db);
    RunKeeps(db, events);
    var end := RunAll(db, events);
    forall l | 0 <= l < |end.lots| ensures end.lots[l].original == end.lots[l].remaining + DrawnFromLot(end.allocations, l) {
      assert LotConserved(end, l);
    }
    forall t | 0 <= t < |end.transfers| ensures end.transfers[t].amount == end.reservations[t].target {
      assert TransferOk(end, t);
    }
  }

  /** How many rows satisfy a property. */
  ghost function PaidCount(payments: seq<Payment>, order: nat): nat {
    if payments == [] then 0 else
      PaidCount(payments[..|payments| - 1], order)
      + if payments[|payments| - 1].order == order && payments[|payments| - 1].state == PAYMENT_PAID then 1 else 0
  }

  lemma {:induction false} NoPaid(payments: seq<Payment>, order: nat)
    requires forall p :: 0 <= p < |payments| ==> !(payments[p].order == order && payments[p].state == PAYMENT_PAID)
    ensures PaidCount(payments, order) == 0
  {
    if payments != [] {
      NoPaid(payments[..|payments| - 1], order);
    }
  }

  lemma {:induction false} OnePaid(payments: seq<Payment>, order: nat, p: nat)
    requires p < |payments| && payments[p].order == order && payments[p].state == PAYMENT_PAID
    requires forall q :: 0 <= q < |payments| && q != p ==> !(payments[q].order == order && payments[q].state == PAYMENT_PAID)
    ensures PaidCount(payments, order) == 1
  {
    var n := |payments| - 1;
    if p == n {
      NoPaid(payments[..n], order);
    } else {
      OnePaid(payments[..n], order, p);
    }
  }

  /**
   Product states stay in step: an order is PAID iff it has a contract, and then exactly one of its
   payments is PAID, its slot is OCCUPIED and that payment is linked to a commission hold of the price;
   a requested order has no PAID payment and an AVAILABLE slot.
   */
  lemma OrderStatesInStep(db: Db, events: seq<Event>, o: nat)
    requires Initial(db) && o < |db.orders|
    ensures var end := RunAll(db, events);
            && o < |end.orders| && end.orders[o].slot < |end.slots|
            && (end.orders[o].state == ORDER_PAID <==> HasContract(end, o))
            && (end.orders[o].state == ORDER_PAID <==> PaidCount(end.payments, o) == 1)
            && (end.orders[o].state == ORDER_REQUESTED <==> PaidCount(end.payments, o) == 0)
            && (end.orders[o].state == ORDER_PAID <==> end.slots[end.orders[o].slot].state == SLOT_OCCUPIED)
            && (end.orders[o].state == ORDER_PAID <==> exists k: nat :: Formed(end, k) && end.contracts[k].order == o)
  {
    InitialInv(db);
    RunKeeps(db, events);
    var end := RunAll(db, events);
    OrderInStep(end, o);
  }

  lemma OrderInStep(db: Db, o: nat)
    requires ProductInv(db) && o < |db.orders|
    ensures (db.orders[o].state == ORDER_PAID <==> PaidCount(db.payments, o) == 1)
         && (db.orders[o].state == ORDER_REQUESTED <==> PaidCount(db.payments, o) == 0)
    ensures db.orders[o].slot < |db.slots|
    ensures db.orders[o].state == ORDER_PAID <==> db.slots[db.orders[o].slot].state == SLOT_OCCUPIED
    ensures db.orders[o].state == ORDER_PAID <==> exists k: nat :: Formed(db, k) && db.contracts[k].order == o
  {
    SlotInStep(db, o);
    PaidInStep(db, o);
    if HasContract(db, o) {
      var k: nat :| 0 <= k < |db.contracts| && db.contracts[k].order == o;
      assert Formed(db, k);
    }
  }

  lemma SlotInStep(db: Db, o: nat)
    requires ProductInv(db) && o < |db.orders|
    ensures SlotTaken(db, db.orders[o].slot) <==> HasContract(db, o)
  {
    hide Formed;
    var slot := db.orders[o].slot;
    if SlotTaken(db, slot) {
      var k: nat :| 0 <= k < |db.contracts| && db.contracts[k].order < |db.orders| && db.orders[db.contracts[k].order].slot == slot;
      assert db.contracts[k].order == o;
    }
    if HasContract(db, o) {
      var k: nat :| 0 <= k < |db.contracts| && db.contracts[k].order == o;
      assert db.orders[db.contracts[k].order].slot == slot;
    }
  }

  lemma PaidInStep(db: Db, o: nat)
    requires ProductInv(db) && o < |db.orders|
    ensures PaidCount(db.payments, o) == if HasContract(db, o) then 1 else 0
  {
    if HasContract(db, o) {
      var k: nat :| 0 <= k < |db.contracts| && db.contracts[k].order == o;
      assert Formed(db, k);
      var p := db.links[k].payment;
      forall q | 0 <= q < |db.payments| && q != p ensures !(db.payments[q].order == o && db.payments[q].state == PAYMENT_PAID) {
        if db.payments[q].state == PAYMENT_PAID { PaidPaymentHasContract(db, q); }
      }
      OnePaid(db.payments, o, p);
    } else {
      forall q | 0 <= q < |db.payments| ensures !(db.payments[q].order == o && db.payments[q].state == PAYMENT_PAID) {
        if db.payments[q].state == PAYMENT_PAID { PaidPaymentHasContract(db, q); }
      }
      NoPaid(db.payments, o);
    }
  }

  lemma PaidPaymentHasContract(db: Db, q: nat)
    requires ProductInv(db) && q < |db.payments| && db.payments[q].state == PAYMENT_PAID
    ensures exists k :: 0 <= k < |db.contracts| && db.links[k].payment == q && db.contracts[k].order == db.payments[q].order
  {
    assert HasLink(db, q);
    var k: nat :| 0 <= k < |db.links| && db.links[k].payment == q;
    assert Formed(db, k);
  }

  /** A commission hold is SETTLED iff it has a swap, and then exactly one, with equal legs and one INCOME lot. */
  lemma SettledIffSwapped(db: Db, events: seq<Event>, r: nat)
    requires Initial(db)
    ensures var end := RunAll(db, events);
            r < |end.reservations| ==>
              && (end.reservations[r].state == SETTLED <==> exists s: nat :: SwapOk(end, s) && end.swaps[s].reservation == r)
              && (forall s: nat, s': nat | SwapOk(end, s) && SwapOk(end, s') ::
                   end.swaps[s].reservation == r == end.swaps[s'].reservation ==> s == s')
              && (forall s: nat, l: nat, l': nat | LotOfSwap(end, s, l) && LotOfSwap(end, s, l') :: l == l')
  {
    InitialInv(db);
    RunKeeps(db, events);
    var end := RunAll(db, events);
    if r < |end.reservations| && HasSwap(end, r) {
      var s: nat :| 0 <= s < |end.swaps| && end.swaps[s].reservation == r;
      assert SwapOk(end, s);
    }
    forall s: nat, l: nat, l': nat | LotOfSwap(end, s, l) && LotOfSwap(end, s, l') ensures l == l' {
      SwapLotUnique(end, s, l, l');
    }
  }

  lemma SwapLotUnique(db: Db, s: nat, l: nat, l': nat)
    requires LotsDistinct(db.lots) && LotOfSwap(db, s, l) && LotOfSwap(db, s, l')
    ensures l == l'
  {
  }
}
