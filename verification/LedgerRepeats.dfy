/**
 Which repeated requests are answered, and with what: a used key, and a new key for a subject already acted on.
 */
module LedgerRepeats {
  import opened Prelude
  import opened LedgerTables
  import opened LedgerUseCases
  import opened LedgerHistory
  import opened LedgerInvariant
  import opened LedgerPlans
  import opened LedgerReceipts
  import opened LedgerRuns
  import opened LedgerRows
  import opened LedgerFrame
  import opened LedgerIdempotency
  import opened LedgerAcceptance
  import S = LedgerStoreModule

  /** The user whose holder a request locks; there is none when the row it names does not exist. */
  ghost predicate LocksHolderOf(db: Db, r: Request, user: nat) {
    match r
    case ChargeRequest(actor, _, _, _) => user == actor
    case CheckoutRequest(payment, _, _) =>
      payment < |db.payments| && db.payments[payment].order < |db.orders| && user == db.orders[db.payments[payment].order].buyer
    case SettleRequest(contract, _, _) => contract < |db.contracts| && user == db.contracts[contract].worker
    case WithdrawRequest(actor, _, _) => user == actor
  }

  /** The rows a request locks exist. */
  ghost predicate CanLock(db: Db, r: Request) {
    exists user: nat :: LocksHolderOf(db, r, user) && HasHolder(db, UserBinding(user))
  }

  ghost predicate KeyUsed(db: Db, r: Request, c: nat) {
    && c < |db.commands| && db.commands[c].principal == r.actor && db.commands[c].kind == KindOf(r)
    && db.commands[c].key == r.key
  }

  ghost predicate KeyFree(db: Db, r: Request) {
    forall c: nat :: !KeyUsed(db, r, c)
  }

  ghost predicate SubjectUsed(db: Db, r: Request, c: nat) {
    c < |db.commands| && db.commands[c].kind == KindOf(r) && SubjectOf(r) == Some(db.commands[c].subject)
  }

  /** The payload a request was stored with, column by column. */
  ghost predicate SameRequest(stored: Command, r: Request) {
    match r
    case ChargeRequest(actor, amount, external, _) => stored.payload == [Num(actor), Num(amount), Str(external)]
    case CheckoutRequest(payment, actor, _) => stored.payload == [Num(payment), Num(actor)]
    case SettleRequest(contract, actor, _) => stored.payload == [Num(contract), Num(actor)]
    case WithdrawRequest(actor, amount, _) => stored.payload == [Num(actor), Num(amount)]
  }

  lemma PreparesIff(db: Db, r: Request)
    ensures Prepare(db, r).Ok? <==> CanLock(db, r)
  {
    hide HasHolder, FindHolder;
    forall user: nat ensures FindHolder(db, UserBinding(user)).Some? <==> HasHolder(db, UserBinding(user)) {
      HolderFound(db, UserBinding(user));
    }
    if Prepare(db, r).Ok? {
      var user := match r
                  case ChargeRequest(actor, _, _, _) => actor
                  case CheckoutRequest(payment, _, _) => db.orders[db.payments[payment].order].buyer
                  case SettleRequest(contract, _, _) => db.contracts[contract].worker
                  case WithdrawRequest(actor, _, _) => actor;
      assert LocksHolderOf(db, r, user) && HasHolder(db, UserBinding(user));
    }
  }

  // ----- A used key -----

  lemma KeyFinds(db: Db, r: Request, c: nat)
    requires KeysUnique(db.commands) && KeyUsed(db, r, c)
    ensures FindCommand(db, r.actor, KindOf(r), r.key) == Some(c)
  {
    forall j | 0 <= j < c ensures !(db.commands[j].principal == r.actor && db.commands[j].kind == KindOf(r) && db.commands[j].key == r.key) {
      assert !SameKey(db.commands[j], db.commands[c]);
    }
    FirstIs(db.commands, (x: Command) => x.principal == r.actor && x.kind == KindOf(r) && x.key == r.key, c);
  }

  lemma ChargePayload(db: Db, c: nat)
    requires Inv(db) && c < |db.commands| && db.commands[c].kind == CHARGE
    ensures db.commands[c].subject.ExternalPaymentSubject? && |db.commands[c].payload| == 3
    ensures db.commands[c].payload[0] == Num(db.commands[c].principal)
    ensures db.commands[c].payload[2] == Str(db.commands[c].subject.externalPaymentId)
  {
    hide HoldsInv, LotsInv, ProductInv, SettlementInv, WithdrawalsInv, OwnersInv, Conserved;
    assert CommandOk(db, c) && EffectOk(db, c);
    var l: nat :| ChargedBy(db, c, l);
  }

  /** The stored payload fixes everything the identity check compares. */
  lemma IdentityIsPayload(db: Db, r: Request, c: nat)
    requires Inv(db) && KeyUsed(db, r, c)
    ensures db.commands[c].result.Some?
    ensures SameRequest(db.commands[c], r) <==>
              SameIdentity(db.commands[c], KindOf(r), PayloadOf(r), SubjectOf(r).GetOr(WithdrawalSubject(db.commands[c].flow)))
  {
    hide HoldsInv, LotsInv, ProductInv, SettlementInv, WithdrawalsInv, OwnersInv, EffectsInv, Conserved;
    assert CommandOk(db, c);
    if r.ChargeRequest? {
      ChargePayload(db, c);
    }
  }

  /**
   A used key answers the request it was used for, with the stored command's receipt and no write, and refuses every
   other request.
   */
  lemma UsedKeyAnswers(db: Db, r: Request, now: int, c: nat)
    requires Inv(db) && KeyUsed(db, r, c)
    ensures LoadReceipt(db, c, true).Ok?
    ensures Serve(db, Event(r, now)).Ok? <==> CanLock(db, r) && SameRequest(db.commands[c], r)
    ensures CanLock(db, r) ==>
              Serve(db, Event(r, now))
              == if SameRequest(db.commands[c], r) then Ok((db, LoadReceipt(db, c, true).value)) else Err(IdentityMismatch)
  {
    hide Exec, Decide, LoadReceipt, CanLock, SameRequest, SameIdentity, Prepare, FindCommand;
    PreparesIff(db, r);
    IdentityIsPayload(db, r, c);
    ReceiptLoads(db, c, true);
    KeysOf(db);
    KeyFinds(db, r, c);
    hide Inv;
    if Prepare(db, r).Ok? {
      PreparedMatches(db, r, Prepare(db, r).value);
      UsedKeyExecutes(db, r, Prepare(db, r).value, now, c);
    }
  }

  lemma KeysOf(db: Db)
    requires Inv(db)
    ensures KeysUnique(db.commands)
  {
  }

  lemma UsedKeyExecutes(db: Db, r: Request, t: Targets, now: int, c: nat)
    requires Matching(r, t) && c < |db.commands| && FindCommand(db, r.actor, KindOf(r), r.key) == Some(c)
    requires db.commands[c].result.Some? && db.commands[c].principal == r.actor && LoadReceipt(db, c, true).Ok?
    ensures Exec(db, r, t, now)
         == if SameIdentity(db.commands[c], KindOf(r), PayloadOf(r), SubjectOf(r).GetOr(WithdrawalSubject(db.commands[c].flow)))
            then Ok((db, LoadReceipt(db, c, true).value)) else Err(IdentityMismatch)
  {
    hide LoadReceipt, SameIdentity, First, PlanCheckout, PlanSettle, PlanPointCharge, PlanWithdraw, ApplyPlan, ApplyAlias;
  }

  // ----- A new key for a subject already acted on -----

  /** The stored answer under a command id of its own. */
  ghost predicate AnsweredUnderNewKey(db: Db, r: Request, served: Outcome, c: nat)
    requires c < |db.commands|
  {
    && LoadReceipt(db, c, true).Ok?
    && served == Ok((db.(commands := db.commands + [db.commands[c].(key := r.key)]),
                     LoadReceipt(db, c, true).value.(command := |db.commands|)))
  }

  lemma SubjectFinds(db: Db, r: Request, c: nat) returns (first: nat)
    requires Inv(db) && SubjectUsed(db, r, c)
    ensures FindCompleted(db, FlowKindOf(KindOf(r)), KindOf(r), SubjectOf(r).value) == Some(first)
    ensures first < |db.commands| && db.commands[first].(key := "") == db.commands[c].(key := "") && CommandOk(db, first)
  {
    hide HoldsInv, LotsInv, ProductInv, SettlementInv, WithdrawalsInv, OwnersInv, EffectsInv, Conserved;
    assert CommandOk(db, c);
    first := FindCompleted(db, FlowKindOf(KindOf(r)), KindOf(r), SubjectOf(r).value).value;
    assert db.commands[first].kind == db.commands[c].kind && db.commands[first].subject == db.commands[c].subject;
    assert CommandOk(db, first);
  }

  lemma SameAnswer(db: Db, c: nat, first: nat)
    requires c < |db.commands| && first < |db.commands| && db.commands[first].(key := "") == db.commands[c].(key := "")
    requires LoadReceipt(db, first, true).Ok?
    ensures LoadReceipt(db, c, true) == Ok(LoadReceipt(db, first, true).value.(command := c))
  {
    AliasReceipt(db, first, c);
  }

  /** Whether the policy of the original flow still allows the command. */
  ghost predicate StillAllowed(db: Db, c: nat)
    requires c < |db.commands|
  {
    db.commands[c].flow < |db.flows| && db.commands[c].kind in db.flows[db.commands[c].flow].allowed
  }

  /**
   Paying an order again, or settling a contract again, under a new key: the same person gets the original result
   under a new command id, provided the flow still allows the command; anybody else is refused.
   */
  lemma NewKeyForOldSubject(db: Db, r: Request, now: int, c: nat)
    requires Inv(db) && KeyFree(db, r) && SubjectUsed(db, r, c) && (r.CheckoutRequest? || r.SettleRequest?)
    ensures Serve(db, Event(r, now)).Ok? <==> CanLock(db, r) && r.actor == db.commands[c].principal && StillAllowed(db, c)
    ensures Serve(db, Event(r, now)).Ok? ==> AnsweredUnderNewKey(db, r, Serve(db, Event(r, now)), c)
    ensures CanLock(db, r) && r.actor != db.commands[c].principal ==>
              Serve(db, Event(r, now)) == Err(if r.CheckoutRequest? then ActorMismatch else IdentityMismatch)
    ensures CanLock(db, r) && r.actor == db.commands[c].principal && !StillAllowed(db, c) ==>
              Serve(db, Event(r, now)) == Err(PolicyViolation)
  {
    hide Exec, Decide, LoadReceipt, CanLock, Prepare, FindCommand, FindCompleted, AnsweredUnderNewKey, CommandOk, StillAllowed;
    PreparesIff(db, r);
    KeyIsFree(db, r);
    hide KeyFree;
    if Prepare(db, r).Ok? {
      var t := Prepare(db, r).value;
      PreparedMatches(db, r, t);
      var first := SubjectFinds(db, r, c);
      SecondKeyDecides(db, r, t, first);
      if r.actor == db.commands[c].principal {
        AliasIsSameCommand(db, r, t);
        SecondKeyExecutes(db, r, t, now, c, first);
      } else {
        RejectedExec(db, r, t, now);
      }
    }
  }

  lemma KeyIsFree(db: Db, r: Request)
    requires KeyFree(db, r)
    ensures FindCommand(db, r.actor, KindOf(r), r.key).None?
  {
    var found := FindCommand(db, r.actor, KindOf(r), r.key);
    if found.Some? {
      assert KeyUsed(db, r, found.value);
    }
  }

  lemma RejectedExec(db: Db, r: Request, t: Targets, now: int)
    requires Matching(r, t) && Decide(db, r, t).Reject?
    ensures Exec(db, r, t, now) == Err(Decide(db, r, t).reason)
  {
    hide Decide;
  }

  lemma SecondKeyDecides(db: Db, r: Request, t: Targets, first: nat)
    requires Inv(db) && Matching(r, t) && (r.CheckoutRequest? || r.SettleRequest?)
    requires FindCommand(db, r.actor, KindOf(r), r.key).None? && first < |db.commands| && CommandOk(db, first)
    requires FindCompleted(db, FlowKindOf(KindOf(r)), KindOf(r), SubjectOf(r).value) == Some(first)
    ensures Decide(db, r, t) == if r.actor == db.commands[first].principal then Alias(first)
                                else Reject(if r.CheckoutRequest? then ActorMismatch else IdentityMismatch)
  {
    if r.CheckoutRequest? {
      PaidByTheBuyer(db, first);
    }
    hide Inv, PlanCheckout, PlanSettle;
  }

  lemma SecondKeyExecutes(db: Db, r: Request, t: Targets, now: int, c: nat, first: nat)
    requires Inv(db) && Matching(r, t) && Decide(db, r, t) == Alias(first) && first < |db.commands| && CommandOk(db, first)
    requires c < |db.commands| && db.commands[first].(key := "") == db.commands[c].(key := "")
    requires AliasRow(db, r, first) == db.commands[first].(key := r.key) && !r.ChargeRequest?
    requires FindCommand(db, r.actor, KindOf(r), r.key).None? && db.commands[c].principal == r.actor && db.commands[c].kind == KindOf(r)
    ensures Exec(db, r, t, now).Ok? <==> StillAllowed(db, c)
    ensures Exec(db, r, t, now).Ok? ==> AnsweredUnderNewKey(db, r, Exec(db, r, t, now), c)
    ensures !StillAllowed(db, c) ==> Exec(db, r, t, now) == Err(PolicyViolation)
  {
    hide Inv, Decide, LoadReceipt, CommandOk, FindCommand;
    ReceiptLoads(db, first, true);
    SameAnswer(db, c, first);
    AliasApplies(db, r, first);
    DecideFits(db, r, t);
    if StillAllowed(db, c) {
      S.AliasAnswer(db, r, first);
    }
  }

  lemma AliasApplies(db: Db, r: Request, first: nat)
    requires first < |db.commands| && CommandOk(db, first) && AliasRow(db, r, first) == db.commands[first].(key := r.key)
    requires FindCommand(db, r.actor, KindOf(r), r.key).None?
    ensures ApplyAlias(db, r, first)
         == if StillAllowed(db, first) then Ok(AfterAlias(db, db.commands[first].(key := r.key))) else Err(PolicyViolation)
  {
  }

  /** A point charge for a payment already charged: the payer asking for the same amount gets the stored receipt. */
  lemma PaymentAlreadyCharged(db: Db, r: Request, now: int, c: nat)
    requires Inv(db) && KeyFree(db, r) && SubjectUsed(db, r, c) && r.ChargeRequest?
    ensures Serve(db, Event(r, now)).Ok? <==> CanLock(db, r) && SameRequest(db.commands[c], r)
    ensures CanLock(db, r) && !SameRequest(db.commands[c], r) ==> Serve(db, Event(r, now)) == Err(IdentityMismatch)
    ensures Serve(db, Event(r, now)).Ok? ==>
              && LoadReceipt(db, c, true).Ok?
              && exists first: nat ::
                   Serve(db, Event(r, now)) == Ok((db, LoadReceipt(db, c, true).value.(command := first)))
  {
    hide Exec, Decide, LoadReceipt, CanLock, Prepare, FindCommand, FindCompleted, SameRequest, CommandOk;
    PreparesIff(db, r);
    KeyIsFree(db, r);
    hide KeyFree;
    if Prepare(db, r).Ok? {
      var t := Prepare(db, r).value;
      PreparedMatches(db, r, t);
      var first := SubjectFinds(db, r, c);
      ReceiptLoads(db, first, true);
      SameAnswer(db, c, first);
      SameAnswer(db, first, first);
      ChargePayload(db, first);
      hide Inv;
      ChargedExecutes(db, r, t, now, first);
      assert SameRequest(db.commands[c], r) <==> SameRequest(db.commands[first], r) by { SamePayload(db.commands[c], db.commands[first], r); }
      assert LoadReceipt(db, first, true).value == LoadReceipt(db, c, true).value.(command := first);
    }
  }

  lemma SamePayload(a: Command, b: Command, r: Request)
    requires a.payload == b.payload
    ensures SameRequest(a, r) <==> SameRequest(b, r)
  {
  }

  lemma ChargedExecutes(db: Db, r: Request, t: Targets, now: int, first: nat)
    requires r.ChargeRequest? && Matching(r, t) && FindCommand(db, r.actor, CHARGE, r.key).None?
    requires first < |db.commands| && CommandOk(db, first) && LoadReceipt(db, first, true).Ok?
    requires FindCompleted(db, POINT_CHARGE, CHARGE, ExternalPaymentSubject(r.externalPaymentId)) == Some(first)
    requires |db.commands[first].payload| == 3 && db.commands[first].payload[0] == Num(db.commands[first].principal)
    ensures Exec(db, r, t, now)
         == if SameRequest(db.commands[first], r) then Ok((db, LoadReceipt(db, first, true).value)) else Err(IdentityMismatch)
  {
    hide LoadReceipt, First, PlanPointCharge;
  }
}
