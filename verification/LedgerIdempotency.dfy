/**
 Retries, replays and aliases: a key answers once and for all, and a subject is acted on once.
 */
module LedgerIdempotency {
  import opened Prelude
  import opened LedgerTables
  import opened LedgerUseCases
  import opened LedgerHistory
  import opened LedgerInvariant
  import opened LedgerPlans
  import opened LedgerKeeps
  import opened LedgerReceipts
  import opened LedgerRuns

  /** The key is bound to a command of this very request. */
  ghost predicate BoundTo(db: Db, r: Request, c: nat) {
    && FindCommand(db, r.actor, KindOf(r), r.key) == Some(c) && c < |db.commands|
    && var stored := db.commands[c];
       && stored.payload == PayloadOf(r) && stored.result.Some?
       && SameIdentity(stored, KindOf(r), PayloadOf(r), SubjectOf(r).GetOr(WithdrawalSubject(stored.flow)))
  }

  /** A bound key replays its command from the tables, changing nothing. */
  lemma BoundReplays(db: Db, r: Request, targets: Targets, now: int, c: nat)
    requires Inv(db) && Matching(r, targets) && BoundTo(db, r, c)
    ensures LoadReceipt(db, c, true).Ok?
    ensures Exec(db, r, targets, now) == Ok((db, LoadReceipt(db, c, true).value))
  {
    ReceiptLoads(db, c, true);
    assert Decide(db, r, targets) == Replay(c);
  }

  /** A look-up by key finds the same row after any further commits. */
  lemma BindingLasts(a: Db, b: Db, r: Request, c: nat)
    requires Extends(a, b) && BoundTo(a, r, c)
    ensures BoundTo(b, r, c)
  {
    assert b.commands[c] == a.commands[c];
    forall j | 0 <= j < |a.commands| ensures b.commands[j] == a.commands[j] {}
    FirstExtends(a.commands, b.commands, (x: Command) => x.principal == r.actor && x.kind == KindOf(r) && x.key == r.key);
  }

  /** A row appended for a request under a new key is what the key finds. */
  lemma RowBinds(db: Db, after: Db, r: Request, row: Command)
    requires FindCommand(db, r.actor, KindOf(r), r.key).None? && after.commands == db.commands + [row]
    requires row.principal == r.actor && row.kind == KindOf(r) && row.key == r.key && row.flowKind == FlowKindOf(KindOf(r))
    requires row.payload == PayloadOf(r) && row.result.Some?
    requires row.subject == SubjectOf(r).GetOr(WithdrawalSubject(row.flow))
    ensures BoundTo(after, r, |db.commands|)
  {
    FirstIs(after.commands, (x: Command) => x.principal == r.actor && x.kind == KindOf(r) && x.key == r.key, |db.commands|);
  }

  /** What a success leaves behind: its key bound to the command it reported. */
  lemma SuccessBinds(db: Db, r: Request, targets: Targets, now: int)
    requires Inv(db) && Prepared(db, r, targets) && Matching(r, targets) && Exec(db, r, targets, now).Ok?
    requires !(Decide(db, r, targets).Replay? && FindCommand(db, r.actor, KindOf(r), r.key).None?)
    ensures var (after, receipt) := Exec(db, r, targets, now).value;
            BoundTo(after, r, receipt.command)
            && LoadReceipt(after, receipt.command, receipt.replayed) == Ok(receipt)
  {
    hide Inv, Decide, ApplyPlan, ApplyAlias, LoadEffect, BoundTo, FindCommand, Ready;
    var d := Decide(db, r, targets);
    DecideFits(db, r, targets);
    match d
    case Reject(_) =>
    case Replay(c) => ReplayBinds(db, r, targets);
    case Alias(c) => AliasBinds(db, r, targets);
    case Proceed(plan) =>
      ProductOf(db);
      Decided(db, r, targets);
      ProceedBinds(db, r, plan, now);
  }

  lemma ReplayBinds(db: Db, r: Request, targets: Targets)
    requires Inv(db) && Matching(r, targets) && Decide(db, r, targets).Replay?
    requires FindCommand(db, r.actor, KindOf(r), r.key).Some?
    ensures BoundTo(db, r, Decide(db, r, targets).command)
  {
    assert CommandOk(db, Decide(db, r, targets).command);
  }

  lemma AliasBinds(db: Db, r: Request, targets: Targets)
    requires Inv(db) && Matching(r, targets) && Decide(db, r, targets).Alias?
    requires ApplyAlias(db, r, Decide(db, r, targets).command).Ok?
    ensures var after := ApplyAlias(db, r, Decide(db, r, targets).command).value;
            |after.commands| == |db.commands| + 1 && BoundTo(after, r, |db.commands|)
  {
    var c := Decide(db, r, targets).command;
    AliasIsSameCommand(db, r, targets);
    assert CommandOk(db, c);
    var after := ApplyAlias(db, r, c).value;
    assert after.commands == db.commands + [AliasRow(db, r, c)];
    RowBinds(db, after, r, AliasRow(db, r, c));
  }

  lemma ProceedBinds(db: Db, r: Request, plan: Plan, now: int)
    requires PlanFits(r, plan) && ApplyPlan(db, r, plan, now).Ok?
    ensures var after := ApplyPlan(db, r, plan, now).value;
            |after.commands| == |db.commands| + 1 && BoundTo(after, r, |db.commands|)
  {
    hide BoundTo, FindCommand;
    match r
    case ChargeRequest(_, _, external, _) =>
      ChargeWrites(db, r, plan, now);
      RowBinds(db, ApplyPlan(db, r, plan, now).value, r,
               CommandRow(db, r, |db.flows|, ExternalPaymentSubject(external), |db.operations|));
    case CheckoutRequest(p, _, _) =>
      CheckoutWrites(db, r, plan);
      RowBinds(db, ApplyPlan(db, r, plan, now).value, r,
               CommandRow(db, r, plan.flow, OrderPaymentSubject(p), |db.operations|));
    case SettleRequest(k, _, _) =>
      SettleWrites(db, r, plan, now);
      RowBinds(db, ApplyPlan(db, r, plan, now).value, r,
               CommandRow(db, r, plan.flow, ContractSubject(k), |db.operations|));
    case WithdrawRequest(_, _, _) =>
      WithdrawWrites(db, r, plan);
      RowBinds(db, ApplyPlan(db, r, plan, now).value, r,
               CommandRow(db, r, |db.flows|, WithdrawalSubject(|db.flows|), |db.operations|));
  }

  lemma LoadedSame(db: Db, c: nat, receipt: Receipt, replayed: bool)
    requires c < |db.commands| && LoadReceipt(db, c, replayed) == Ok(receipt)
    ensures LoadReceipt(db, c, true) == Ok(receipt.(replayed := true))
  {
  }

  /**
   Key stability: once a request has succeeded under its key, then after any further run the same request
   returns the same command, operation and result with replayed true and changes nothing.  For a point
   charge this needs the key to have been recorded, that is, not answered through an older payment.
   */
  lemma KeysAreStable(db: Db, r: Request, targets: Targets, now: int, events: seq<Event>, later: Targets, thenNow: int)
    requires Inv(db) && Prepared(db, r, targets) && Matching(r, targets) && Matching(r, later) && Exec(db, r, targets, now).Ok?
    requires r.ChargeRequest? && FindCommand(db, r.actor, CHARGE, r.key).None? ==>
               FindCompleted(db, POINT_CHARGE, CHARGE, ExternalPaymentSubject(r.externalPaymentId)).None?
    ensures var (after, receipt) := Exec(db, r, targets, now).value;
            var end := RunAll(after, events);
            Exec(end, r, later, thenNow) == Ok((end, receipt.(replayed := true)))
  {
    var (after, receipt) := Exec(db, r, targets, now).value;
    var end := RunAll(after, events);
    NotOldPayment(db, r, targets);
    SuccessBinds(db, r, targets, now);
    ExecKeeps(db, r, targets, now);
    RunKeeps(after, events);
    BindingLasts(after, end, r, receipt.command);
    BoundReplays(end, r, later, thenNow, receipt.command);
    LoadedSame(after, receipt.command, receipt, receipt.replayed);
    ReceiptStable(after, end, receipt.command, true);
  }

  /** Only a point charge can be answered by a command it is not the key of. */
  lemma NotOldPayment(db: Db, r: Request, targets: Targets)
    requires Matching(r, targets)
    requires r.ChargeRequest? && FindCommand(db, r.actor, CHARGE, r.key).None? ==>
               FindCompleted(db, POINT_CHARGE, CHARGE, ExternalPaymentSubject(r.externalPaymentId)).None?
    ensures !(Decide(db, r, targets).Replay? && FindCommand(db, r.actor, KindOf(r), r.key).None?)
  {
  }

  /** The key of a successful request rejects every other payload, for ever. */
  lemma OtherPayloadsAreRejected(db: Db, r: Request, targets: Targets, now: int, events: seq<Event>,
                                 other: Request, otherTargets: Targets, thenNow: int)
    requires Inv(db) && Prepared(db, r, targets) && Matching(r, targets) && Matching(other, otherTargets)
    requires Exec(db, r, targets, now).Ok?
    requires !(Decide(db, r, targets).Replay? && FindCommand(db, r.actor, KindOf(r), r.key).None?)
    requires KindOf(other) == KindOf(r) && other.actor == r.actor && other.key == r.key && PayloadOf(other) != PayloadOf(r)
    ensures Exec(RunAll(Exec(db, r, targets, now).value.0, events), other, otherTargets, thenNow) == Err(IdentityMismatch)
  {
    hide Exec, Decide, Inv, Extends, BoundTo, RunAll, LoadReceipt, FindCommand;
    var (after, receipt) := Exec(db, r, targets, now).value;
    SuccessBinds(db, r, targets, now);
    ExecKeeps(db, r, targets, now);
    RunKeeps(after, events);
    BindingLasts(after, RunAll(after, events), r, receipt.command);
    BoundRejects(RunAll(after, events), r, receipt.command, other, otherTargets, thenNow);
  }

  lemma BoundRejects(db: Db, r: Request, c: nat, other: Request, otherTargets: Targets, now: int)
    requires BoundTo(db, r, c) && Matching(other, otherTargets)
    requires KindOf(other) == KindOf(r) && other.actor == r.actor && other.key == r.key && PayloadOf(other) != PayloadOf(r)
    ensures Exec(db, other, otherTargets, now) == Err(IdentityMismatch)
  {
    hide PlanCheckout, PlanSettle, PlanPointCharge, PlanWithdraw;
  }

  /** A second key for a paid order or a settled contract: its own command id, the original operation and result. */
  lemma AliasKeepsOperation(db: Db, r: Request, targets: Targets, now: int)
    requires Inv(db) && Matching(r, targets) && Decide(db, r, targets).Alias? && Exec(db, r, targets, now).Ok?
    ensures var original := Decide(db, r, targets).command;
            var (after, receipt) := Exec(db, r, targets, now).value;
            && original < |db.commands| && LoadReceipt(db, original, true).Ok?
            && receipt == LoadReceipt(db, original, true).value.(command := |db.commands|)
            && after == db.(commands := after.commands) && |after.commands| == |db.commands| + 1
  {
    var c := Decide(db, r, targets).command;
    AliasIsSameCommand(db, r, targets);
    AliasKeeps(db, r, c);
    var after := AfterAlias(db, AliasRow(db, r, c));
    ReceiptLoads(db, c, true);
    ReceiptStable(db, after, c, true);
    assert CommandOk(db, c);
    AliasReceipt(after, c, |db.commands|);
  }

  lemma AliasReceipt(db: Db, c: nat, alias: nat)
    requires c < |db.commands| && alias < |db.commands| && db.commands[alias].(key := "") == db.commands[c].(key := "")
    requires LoadReceipt(db, c, true).Ok?
    ensures LoadReceipt(db, alias, true) == Ok(LoadReceipt(db, c, true).value.(command := alias))
  {
    assert db.commands[alias].subject == db.commands[c].subject && db.commands[alias].flow == db.commands[c].flow;
    assert LoadEffect(db, db.commands[alias], db.commands[c].result.value)
        == LoadEffect(db, db.commands[c], db.commands[c].result.value);
  }

  // ----- Once per subject -----

  /** The operation was originated by a command about this subject. */
  ghost predicate ActedOn(db: Db, op: nat, subject: Subject) {
    op < |db.operations| && db.operations[op].command < |db.commands|
    && db.commands[db.operations[op].command].subject == subject
  }

  /** In any run a subject is acted on by at most one operation. */
  lemma OneOperationPerSubject(db: Db, op: nat, op': nat, subject: Subject)
    requires CommandsInv(db) && ActedOn(db, op, subject) && ActedOn(db, op', subject)
    ensures op == op'
  {
    assert OperationOk(db, op) && OperationOk(db, op');
    assert CommandOk(db, db.operations[op].command) && CommandOk(db, db.operations[op'].command);
    assert db.commands[db.operations[op].command].(key := "") == db.commands[db.operations[op'].command].(key := "");
  }

  /** A withdrawal's hold is bound to its flow, never to an order payment. */
  lemma WithdrawalBinding(db: Db, r: nat)
    requires Inv(db) && r < |db.reservations|
    ensures db.reservations[r].purpose == IncomeWithdrawal ==> db.reservations[r].binding.WithdrawalSubject?
  {
    assert HoldOwned(db, r);
    if db.reservations[r].purpose == IncomeWithdrawal {
      var w: nat :| 0 <= w < |db.withdrawals| && db.withdrawals[w].reservation == r;
      assert WithdrawalOk(db, w);
    }
  }

  /** A hold bound to an order payment is the one its link names. */
  lemma LinkOfHold(db: Db, r: nat, p: nat) returns (k: nat)
    requires Inv(db) && r < |db.reservations| && db.reservations[r].binding == OrderPaymentSubject(p)
    ensures k < |db.links| && db.links[k].payment == p && db.links[k].reservation == r
  {
    WithdrawalBinding(db, r);
    assert HoldOwned(db, r);
    k :| 0 <= k < |db.links| && db.links[k].reservation == r;
    assert Formed(db, k);
  }

  lemma OneHoldPerPayment(db: Db, p: nat, r: nat, r': nat)
    requires Inv(db) && r < |db.reservations| && r' < |db.reservations|
    requires db.reservations[r].binding == OrderPaymentSubject(p) == db.reservations[r'].binding
    ensures r == r'
  {
    var k := LinkOfHold(db, r, p);
    var k' := LinkOfHold(db, r', p);
  }

  ghost predicate PaidAtMostOnce(db: Db, p: nat) {
    && (forall op: nat, op': nat | ActedOn(db, op, OrderPaymentSubject(p)) && ActedOn(db, op', OrderPaymentSubject(p)) :: op == op')
    && (forall r, r' | 0 <= r < |db.reservations| && 0 <= r' < |db.reservations|
                       && db.reservations[r].binding == OrderPaymentSubject(p) == db.reservations[r'].binding :: r == r')
    && (forall k, k' | 0 <= k < |db.links| && 0 <= k' < |db.links|
                       && db.links[k].payment == p == db.links[k'].payment :: k == k')
    && (forall k, k' | 0 <= k < |db.contracts| && 0 <= k' < |db.contracts|
                       && db.contracts[k].order == db.contracts[k'].order :: k == k')
  }

  lemma InvMeansOnce(db: Db, p: nat)
    requires Inv(db)
    ensures PaidAtMostOnce(db, p)
  {
    forall op: nat, op': nat | ActedOn(db, op, OrderPaymentSubject(p)) && ActedOn(db, op', OrderPaymentSubject(p)) ensures op == op' {
      OneOperationPerSubject(db, op, op', OrderPaymentSubject(p));
    }
    forall r, r' | 0 <= r < |db.reservations| && 0 <= r' < |db.reservations|
                   && db.reservations[r].binding == OrderPaymentSubject(p) == db.reservations[r'].binding
      ensures r == r'
    {
      OneHoldPerPayment(db, p, r, r');
    }
  }

  /** Each order payment gets at most one operation, one hold, one link and one contract, however often it is retried. */
  lemma EachPaymentOnce(start: Db, events: seq<Event>, p: nat)
    requires Initial(start)
    ensures PaidAtMostOnce(RunAll(start, events), p)
  {
    hide PaidAtMostOnce, Inv;
    InitialInv(start);
    RunKeeps(start, events);
    InvMeansOnce(RunAll(start, events), p);
  }

  /** The lot was minted for this external payment. */
  ghost predicate MintedFor(db: Db, l: nat, external: string) {
    l < |db.lots| && db.lots[l].source.Some?
    && ActedOn(db, db.lots[l].source.value.operation, ExternalPaymentSubject(external))
  }

  /** Each external payment mints at most one lot over any run. */
  lemma EachExternalPaymentMintsOnce(start: Db, events: seq<Event>, external: string, l: nat, l': nat)
    requires Initial(start)
    requires MintedFor(RunAll(start, events), l, external) && MintedFor(RunAll(start, events), l', external)
    ensures l == l'
  {
    InitialInv(start);
    RunKeeps(start, events);
    var db := RunAll(start, events);
    OneOperationPerSubject(db, db.lots[l].source.value.operation, db.lots[l'].source.value.operation, ExternalPaymentSubject(external));
    LotOfOperation(db, l);
    LotOfOperation(db, l');
  }

  /** Every later successful charge naming a minted payment returns that lot, amount and operation, and writes nothing. */
  lemma LaterChargesReturnTheLot(db: Db, l: nat, r: Request, targets: Targets, now: int)
    requires Inv(db) && r.ChargeRequest? && Matching(r, targets) && MintedFor(db, l, r.externalPaymentId)
    requires Exec(db, r, targets, now).Ok?
    ensures var (after, receipt) := Exec(db, r, targets, now).value;
            && after == db && receipt.replayed
            && receipt.effect == Charged(l, db.lots[l].original) && receipt.operation == db.lots[l].source.value.operation
            && r.amount == db.lots[l].original
  {
    var op := db.lots[l].source.value.operation;
    var origin := db.operations[op].command;
    assert OperationOk(db, op) && CommandOk(db, origin);
    assert FindCompleted(db, POINT_CHARGE, CHARGE, ExternalPaymentSubject(r.externalPaymentId)).Some?;
    var d := Decide(db, r, targets);
    assert d.Replay?;
    var c := d.command;
    assert db.commands[c].(key := "") == db.commands[origin].(key := "");
    assert EffectOk(db, c);
    var m: nat :| ChargedBy(db, c, m);
    LotOfOperation(db, m);
    LotOfOperation(db, l);
  }
}
