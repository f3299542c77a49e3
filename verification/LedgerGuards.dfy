/**
 The optimistic guards behind a decision to proceed: on consistent tables none of them can miss.
 */
module LedgerGuards {
  import opened LedgerTables
  import opened LotQueue
  import opened LedgerUseCases
  import opened LedgerInvariant
  import opened LedgerPlans
  import opened LedgerReceipts
  import opened LedgerRuns
  import opened LedgerIdempotency
  import opened LedgerConcurrency

  // The state compare-and-swaps, the lot guards and the unique constraints all hold, so a commit fails only
  // when the flow's policy does not admit the command.

  predicate Admits(db: Db, flow: nat, kind: CommandKind) {
    flow < |db.flows| && db.flows[flow].kind == FlowKindOf(kind) && kind in db.flows[flow].allowed
  }

  /** New flows admit their own command; a commission's flow came with its order. */
  predicate PolicyAdmits(db: Db, plan: Plan) {
    match plan
    case CheckoutPlan(flow, _, _, _, _, _, _, _, _) => Admits(db, flow, PAY)
    case SettlePlan(flow, _, _, _, _, _, _, _) => Admits(db, flow, SETTLE)
    case _ => true
  }

  lemma NoLotOfNextOperation(db: Db)
    requires LotsInv(db)
    ensures FindLot(db, |db.operations|).None?
  {
    forall l | 0 <= l < |db.lots| ensures db.lots[l].source.Some? ==> db.lots[l].source.value.operation != |db.operations| {
      assert LotSourced(db, l);
    }
  }

  lemma ChargeCommits(db: Db, r: Request, plan: Plan, now: int)
    requires LotsInv(db) && ChargeReady(db, r, plan)
    ensures ApplyCharge(db, r, plan, now).Ok?
  {
    NoLotOfNextOperation(db);
  }

  /** The hold of a pending payment is not taken. */
  lemma PendingHasNoHold(db: Db, p: nat)
    requires Inv(db) && p < |db.payments| && db.payments[p].state == PAYMENT_PENDING
    ensures !BindingTaken(db, OrderPaymentSubject(p))
  {
    hide CommandsInv, LotsInv, SettlementInv, EffectsInv, Conserved;
    forall k | 0 <= k < |db.links|
      ensures db.links[k].reservation < |db.reservations| && db.links[k].payment != p
              && db.reservations[db.links[k].reservation].binding == OrderPaymentSubject(db.links[k].payment)
    {
      assert Formed(db, k);
    }
    forall x | 0 <= x < |db.reservations| ensures db.reservations[x].binding != OrderPaymentSubject(p) {
      WithdrawalBinding(db, x);
      assert HoldOwned(db, x);
    }
  }

  lemma PendingHasNoLink(db: Db, p: nat, flow: nat)
    requires ProductInv(db) && p < |db.payments| && db.payments[p].state == PAYMENT_PENDING
    ensures !LinkTaken(db, Link(p, flow, |db.reservations|))
  {
    forall k | 0 <= k < |db.links| ensures db.links[k].payment != p && db.links[k].reservation != |db.reservations| {
      assert Formed(db, k);
    }
  }

  lemma RequestedHasNoContract(db: Db, o: nat)
    requires ProductInv(db) && o < |db.orders| && db.orders[o].state == ORDER_REQUESTED
    ensures FindContract(db, o).None?
  {
    assert !HasContract(db, o);
  }

  lemma CheckoutCommits(db: Db, r: Request, plan: Plan)
    requires Inv(db) && CheckoutReady(db, r, plan)
    ensures ApplyCheckout(db, r, plan).Ok? <==> Admits(db, plan.flow, PAY)
    ensures ApplyCheckout(db, r, plan).Err? ==> ApplyCheckout(db, r, plan).error == PolicyViolation
  {
    hide CommandsInv, HoldsInv, LotsInv, SettlementInv, WithdrawalsInv, OwnersInv, EffectsInv, Conserved;
    PendingHasNoHold(db, r.payment);
    PendingHasNoLink(db, r.payment, plan.flow);
    RequestedHasNoContract(db, plan.order);
    hide ProductInv, BindingTaken, LinkTaken, FindContract, FindCommand, TakeAll;
    FreshTake(db.lots, plan.account, POINT, plan.allocations);
    CheckoutConstraints(db, r, plan);
  }

  /** With every constraint met, the chain of writes goes through. */
  lemma CheckoutConstraints(db: Db, r: Request, plan: Plan)
    requires CheckoutReady(db, r, plan) && TakeAll(db.lots, plan.account, POINT, plan.allocations).Some?
    requires !BindingTaken(db, OrderPaymentSubject(r.payment)) && FindContract(db, plan.order).None?
    requires !LinkTaken(db, Link(r.payment, plan.flow, |db.reservations|))
    ensures ApplyCheckout(db, r, plan).Ok? <==> Admits(db, plan.flow, PAY)
    ensures ApplyCheckout(db, r, plan).Err? ==> ApplyCheckout(db, r, plan).error == PolicyViolation
  {
  }

  lemma SettleCommits(db: Db, r: Request, plan: Plan, now: int)
    requires Inv(db) && SettleReady(db, r, plan)
    ensures ApplySettle(db, r, plan, now).Ok? <==> Admits(db, plan.flow, SETTLE)
    ensures ApplySettle(db, r, plan, now).Err? ==> ApplySettle(db, r, plan, now).error == PolicyViolation
  {
    hide CommandsInv, HoldsInv, WithdrawalsInv, OwnersInv, EffectsInv, Conserved;
    assert Formed(db, r.contract);
    NoLotOfNextOperation(db);
    assert !HasSwap(db, plan.reservation);
    forall s | 0 <= s < |db.swaps|
      ensures db.swaps[s].reservation != plan.reservation && db.swaps[s].operation != |db.operations|
    {
      assert SwapOk(db, s);
    }
  }

  lemma WithdrawCommits(db: Db, r: Request, plan: Plan)
    requires Inv(db) && WithdrawReady(db, r, plan)
    ensures ApplyWithdraw(db, r, plan).Ok?
  {
    hide CommandsInv, HoldsInv, LotsInv, SettlementInv, EffectsInv, Conserved;
    FreshTake(db.lots, plan.account, INCOME, plan.allocations);
    NewFlowHasNoHold(db);
  }

  /** A withdrawal's hold is bound to the flow it creates, which nothing can name yet. */
  lemma NewFlowHasNoHold(db: Db)
    requires Inv(db)
    ensures !BindingTaken(db, WithdrawalSubject(|db.flows|))
  {
    hide CommandsInv, LotsInv, SettlementInv, EffectsInv, Conserved;
    forall k | 0 <= k < |db.links|
      ensures db.links[k].reservation < |db.reservations|
              && db.reservations[db.links[k].reservation].binding == OrderPaymentSubject(db.links[k].payment)
    {
      assert Formed(db, k);
    }
    forall w | 0 <= w < |db.withdrawals|
      ensures db.withdrawals[w].reservation < |db.reservations|
              && db.reservations[db.withdrawals[w].reservation].binding == WithdrawalSubject(db.withdrawals[w].flow)
              && db.withdrawals[w].flow < |db.flows|
    {
      assert WithdrawalOk(db, w);
    }
    forall x | 0 <= x < |db.reservations| ensures db.reservations[x].binding != WithdrawalSubject(|db.flows|) {
      assert HoldOwned(db, x);
    }
  }

  lemma PlanCommits(db: Db, r: Request, plan: Plan, now: int)
    requires Inv(db) && PlanFits(r, plan) && Ready(db, r, plan)
    ensures ApplyPlan(db, r, plan, now).Ok? <==> PolicyAdmits(db, plan)
    ensures ApplyPlan(db, r, plan, now).Err? ==> ApplyPlan(db, r, plan, now).error == PolicyViolation
  {
    hide ChargeReady, CheckoutReady, SettleReady, WithdrawReady, ApplyCharge, ApplyCheckout, ApplySettle, ApplyWithdraw;
    match r
    case ChargeRequest(_, _, _, _) =>
      LotsOf(db);
      ChargeCommits(db, r, plan, now);
    case CheckoutRequest(_, _, _) => CheckoutCommits(db, r, plan);
    case SettleRequest(_, _, _) => SettleCommits(db, r, plan, now);
    case WithdrawRequest(_, _, _) => WithdrawCommits(db, r, plan);
  }

  lemma LotsOf(db: Db)
    requires Inv(db)
    ensures LotsInv(db)
  {
  }

  /** A decision to proceed commits exactly when the policy admits it. */
  lemma ProceedCommits(db: Db, r: Request, t: Targets, now: int)
    requires Inv(db) && Prepared(db, r, t) && Matching(r, t) && Decide(db, r, t).Proceed?
    ensures Exec(db, r, t, now).Ok? <==> PolicyAdmits(db, Decide(db, r, t).plan)
    ensures Exec(db, r, t, now).Err? ==> Exec(db, r, t, now).error == PolicyViolation
  {
    hide Inv, Decide, ApplyPlan, PolicyAdmits, LoadReceipt, Ready;
    DecideFits(db, r, t);
    ProductOf(db);
    Decided(db, r, t);
    var plan := Decide(db, r, t).plan;
    PlanCommits(db, r, plan, now);
    if ApplyPlan(db, r, plan, now).Ok? {
      ProceedKeeps(db, r, plan, now);
      ProceedBinds(db, r, plan, now);
      ReceiptLoads(ApplyPlan(db, r, plan, now).value, |db.commands|, false);
    }
  }

  /**
   Under the locks no optimistic guard ever misses: whatever was committed since a transaction planned,
   its commit succeeds unless the policy forbids the command.
   */
  lemma GuardsNeverMiss(start: Db, requests: seq<Request>, turns: seq<Turn>, t: nat, now: int)
    requires Initial(start) && Runs(Open(start, requests), turns) && t < |requests|
    requires |Reached(Open(start, requests), turns).workers| == |requests|
    requires var phase := Reached(Open(start, requests), turns).workers[t].phase;
             phase.Planned? && phase.decision.Proceed?
    ensures var s := Reached(Open(start, requests), turns);
            var decision := s.workers[t].phase.decision;
            var outcome := Commit(s.db, requests[t], decision, now);
            && (outcome.Ok? <==> PolicyAdmits(s.db, decision.plan))
            && (outcome.Err? ==> outcome.error == PolicyViolation)
  {
    hide Initial, RunAll, Inv, Commit, Decide, Exec, PolicyAdmits;
    OpenOk(start, requests);
    ReachedKeeps(start, Open(start, requests), turns);
    var s := Reached(Open(start, requests), turns);
    var w := s.workers[t];
    assert WorkerOk(start, s.db, s.log, w);
    CommitIsServe(s.db, w.request, w.phase.targets, now);
    ProceedCommits(s.db, w.request, w.phase.targets, now);
  }
}
