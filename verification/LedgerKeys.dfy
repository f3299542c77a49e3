/**
 Which keys are kept: the promise that a repeated key gives the same answer, and exactly when it holds.
 */
module LedgerKeys {
  import opened Prelude
  import opened LedgerTables
  import opened LedgerUseCases
  import opened LedgerHistory
  import opened LedgerInvariant
  import opened LedgerReceipts
  import opened LedgerRuns
  import opened LedgerIdempotency
  import opened LedgerFrame
  import opened LedgerGuards

  /** Not a point charge answered through an older payment, under a key that is new. */
  predicate Recorded(db: Db, r: Request) {
    r.ChargeRequest? && FindCommand(db, r.actor, CHARGE, r.key).None? ==>
      FindCompleted(db, POINT_CHARGE, CHARGE, ExternalPaymentSubject(r.externalPaymentId)).None?
  }

  /** What a caller can look at before the call; an empty key can never be given to another charge. */
  predicate KeyIsKept(db: Db, r: Request) {
    Recorded(db, r) || r.key == ""
  }

  ghost predicate AnswersAgain(db: Db, r: Request, now: int, receipt: Receipt) {
    Serve(db, Event(r, now)) == Ok((db, receipt.(replayed := true)))
  }

  /** After any further run, the same request gets the same answer and changes nothing. */
  ghost predicate Remembered(db: Db, e: Event)
    requires Serve(db, e).Ok?
  {
    forall events: seq<Event>, later: int ::
      AnswersAgain(RunAll(Serve(db, e).value.0, events), e.request, later, Serve(db, e).value.1)
  }

  lemma RecordedIsRemembered(db: Db, e: Event)
    requires Inv(db) && Serve(db, e).Ok? && Recorded(db, e.request)
    ensures Remembered(db, e)
  {
    hide Inv, Exec, Prepare, RunAll, Extends;
    var r := e.request;
    var t := Prepare(db, r).value;
    PreparedMatches(db, r, t);
    var after := Serve(db, e).value.0;
    ExecKeeps(db, r, t, e.now);
    forall events: seq<Event>, later: int ensures AnswersAgain(RunAll(after, events), r, later, Serve(db, e).value.1) {
      KeysAreStable(db, r, t, e.now, events, t, later);
      RunKeeps(after, events);
      ExtendsTransitive(db, after, RunAll(after, events));
      PreparedStable(db, RunAll(after, events), r, t);
    }
  }

  /** An unrecorded success was a replay of the payment's command. */
  lemma UnrecordedIsReplay(db: Db, e: Event)
    requires Inv(db) && Serve(db, e).Ok? && !Recorded(db, e.request)
    ensures e.request.ChargeRequest? && FindCommand(db, e.request.actor, CHARGE, e.request.key).None?
    ensures var found := FindCompleted(db, POINT_CHARGE, CHARGE, ExternalPaymentSubject(e.request.externalPaymentId));
            && found.Some? && Serve(db, e).value.0 == db
            && LoadReceipt(db, found.value, true) == Ok(Serve(db, e).value.1)
            && PrepareHolder(db, e.request) && db.commands[found.value].principal == e.request.actor
            && SameIdentity(db.commands[found.value], CHARGE, PayloadOf(e.request),
                            ExternalPaymentSubject(e.request.externalPaymentId))
            && db.commands[found.value].result.Some?
  {
    hide Inv, LoadReceipt, FindCommand, FindCompleted;
    CompletedIsStored(db, POINT_CHARGE, CHARGE, ExternalPaymentSubject(e.request.externalPaymentId));
  }

  lemma CompletedIsStored(db: Db, flowKind: FlowKind, kind: CommandKind, subject: Subject)
    ensures var found := FindCompleted(db, flowKind, kind, subject);
            found.Some? ==> found.value < |db.commands|
  {
  }

  ghost predicate PrepareHolder(db: Db, r: Request) {
    r.ChargeRequest? && FindHolder(db, UserBinding(r.actor)).Some?
  }

  /** An empty key is never bound, so the payment keeps answering for it. */
  lemma EmptyKeyIsRemembered(db: Db, e: Event)
    requires Inv(db) && Serve(db, e).Ok? && !Recorded(db, e.request) && e.request.key == ""
    ensures Remembered(db, e)
  {
    hide Inv, Serve, RunAll, Extends, LoadReceipt, Remembered;
    UnrecordedIsReplay(db, e);
    forall events: seq<Event>, later: int
      ensures AnswersAgain(RunAll(Serve(db, e).value.0, events), e.request, later, Serve(db, e).value.1)
    {
      RunKeeps(db, events);
      EmptyKeyAnswers(db, RunAll(db, events), e, later);
    }
    RememberedIf(db, e);
  }

  lemma RememberedIf(db: Db, e: Event)
    requires Serve(db, e).Ok?
    requires forall events: seq<Event>, later: int ::
               AnswersAgain(RunAll(Serve(db, e).value.0, events), e.request, later, Serve(db, e).value.1)
    ensures Remembered(db, e)
  {
  }

  lemma EmptyKeyAnswers(db: Db, end: Db, e: Event, later: int)
    requires Inv(db) && Inv(end) && Extends(db, end) && Serve(db, e).Ok? && !Recorded(db, e.request) && e.request.key == ""
    ensures AnswersAgain(end, e.request, later, Serve(db, e).value.1)
  {
    hide HoldsInv, LotsInv, ProductInv, SettlementInv, WithdrawalsInv, OwnersInv, EffectsInv, Conserved, LoadReceipt;
    UnrecordedIsReplay(db, e);
    var r := e.request;
    var subject := ExternalPaymentSubject(r.externalPaymentId);
    var c := FindCompleted(db, POINT_CHARGE, CHARGE, subject).value;
    FirstExtends(db.commands, end.commands, (x: Command) =>
      x.subject == subject && x.flowKind == POINT_CHARGE && x.kind == CHARGE && x.result.Some?);
    forall i | 0 <= i < |end.commands| ensures !(end.commands[i].kind == CHARGE && end.commands[i].key == "") {
      assert CommandOk(end, i);
    }
    assert end.commands[c] == db.commands[c];
    ReceiptStable(db, end, c, true);
    assert FindCommand(end, r.actor, CHARGE, "").None?;
    assert DecideCharge(end, r, FindHolder(end, UserBinding(r.actor)).value) == Replay(c);
    LedgerIdempotency.LoadedSame(db, c, Serve(db, e).value.1, true);
  }

  // ----- Giving the key away -----

  /** All external payment ids so far, one after another. */
  function AllPayments(commands: seq<Command>): string {
    if commands == [] then "" else
      var last := commands[|commands| - 1];
      AllPayments(commands[..|commands| - 1]) + if last.subject.ExternalPaymentSubject? then last.subject.externalPaymentId else ""
  }

  /** A payment id nobody has used. */
  function NewPayment(commands: seq<Command>): (id: string)
    ensures id != ""
  {
    AllPayments(commands) + "x"
  }

  lemma {:induction false} PaymentsAreShorter(commands: seq<Command>, i: nat)
    requires i < |commands| && commands[i].subject.ExternalPaymentSubject?
    ensures |commands[i].subject.externalPaymentId| <= |AllPayments(commands)|
  {
    if i < |commands| - 1 {
      PaymentsAreShorter(commands[..|commands| - 1], i);
    }
  }

  lemma NewPaymentIsNew(db: Db)
    ensures FindCompleted(db, POINT_CHARGE, CHARGE, ExternalPaymentSubject(NewPayment(db.commands))).None?
  {
    forall i | 0 <= i < |db.commands| ensures db.commands[i].subject != ExternalPaymentSubject(NewPayment(db.commands)) {
      if db.commands[i].subject.ExternalPaymentSubject? {
        PaymentsAreShorter(db.commands, i);
      }
    }
  }

  /** The user whose payment was charged has a POINT account. */
  lemma ChargedUserHasAccount(db: Db, c: nat)
    requires Inv(db) && c < |db.commands| && db.commands[c].kind == CHARGE
    ensures var holder := FindHolder(db, UserBinding(db.commands[c].principal));
            holder.Some? && FindAccount(db, holder.value, POINT, AvailableAccount).Some?
  {
    hide CommandsInv, HoldsInv, LotsInv, ProductInv, SettlementInv, WithdrawalsInv, OwnersInv, Conserved;
    assert EffectOk(db, c);
    var l: nat :| ChargedBy(db, c, l);
  }

  /** A charge of a new payment under the key succeeds, and takes the key with it. */
  lemma KeyIsGivenAway(db: Db, e: Event)
    requires Inv(db) && Serve(db, e).Ok? && !Recorded(db, e.request) && e.request.key != ""
    ensures var other := Event(ChargeRequest(e.request.actor, 1, NewPayment(db.commands), e.request.key), 0);
            && Serve(db, other).Ok? && !Serve(db, other).value.1.replayed
            && forall later: int :: Serve(Serve(db, other).value.0, Event(e.request, later)) == Err(IdentityMismatch)
  {
    hide Inv, LoadReceipt, FindCommand, FindCompleted, ApplyPlan, FindAccount, SameIdentity, Extends;
    UnrecordedIsReplay(db, e);
    var r := e.request;
    var c := FindCompleted(db, POINT_CHARGE, CHARGE, ExternalPaymentSubject(r.externalPaymentId)).value;
    CompletedIsStored(db, POINT_CHARGE, CHARGE, ExternalPaymentSubject(r.externalPaymentId));
    PaymentCommandIsCharge(db, r, c);
    ChargedUserHasAccount(db, c);
    NewPaymentIsNew(db);
    var other := ChargeRequest(r.actor, 1, NewPayment(db.commands), r.key);
    var t := ChargeTargets(FindHolder(db, UserBinding(r.actor)).value);
    assert Decide(db, other, t).Proceed?;
    ProceedCommits(db, other, t, 0);
    ProceedIsFirst(db, other, t, 0);
    AmountsDiffer(db, r, c, other);
    ExecKeeps(db, other, t, 0);
    PreparedStable(db, Exec(db, other, t, 0).value.0, r, t);
    forall later: int ensures Serve(Serve(db, Event(other, 0)).value.0, Event(r, later)) == Err(IdentityMismatch) {
      OtherPayloadsAreRejected(db, other, t, 0, [], r, t, later);
    }
  }

  lemma PaymentCommandIsCharge(db: Db, r: Request, c: nat)
    requires r.ChargeRequest?
    requires FindCompleted(db, POINT_CHARGE, CHARGE, ExternalPaymentSubject(r.externalPaymentId)) == Some(c)
    ensures c < |db.commands| && db.commands[c].kind == CHARGE
            && db.commands[c].subject == ExternalPaymentSubject(r.externalPaymentId)
  {
  }

  lemma ProceedIsFirst(db: Db, r: Request, t: Targets, now: int)
    requires Matching(r, t) && Decide(db, r, t).Proceed? && Exec(db, r, t, now).Ok?
    ensures !Exec(db, r, t, now).value.1.replayed
  {
    hide ApplyPlan, Decide, LoadEffect;
    DecideFits(db, r, t);
  }

  /** The new payment's payload is not the old one's. */
  lemma AmountsDiffer(db: Db, r: Request, c: nat, other: Request)
    requires r.ChargeRequest? && c < |db.commands| && db.commands[c].subject == ExternalPaymentSubject(r.externalPaymentId)
    requires other == ChargeRequest(r.actor, 1, NewPayment(db.commands), r.key)
    ensures PayloadOf(other) != PayloadOf(r)
  {
    PaymentsAreShorter(db.commands, c);
    assert PayloadOf(other)[2] == Str(NewPayment(db.commands)) && PayloadOf(r)[2] == Str(r.externalPaymentId);
  }

  lemma UnrecordedIsForgotten(db: Db, e: Event)
    requires Inv(db) && Serve(db, e).Ok? && !KeyIsKept(db, e.request)
    ensures !Remembered(db, e)
  {
    hide Inv, Serve;
    UnrecordedIsReplay(db, e);
    KeyIsGivenAway(db, e);
    var other := Event(ChargeRequest(e.request.actor, 1, NewPayment(db.commands), e.request.key), 0);
    assert RunAll(db, [other]) == After(db, other) by {
      assert [other][1..] == [];
    }
    assert !AnswersAgain(RunAll(Serve(db, e).value.0, [other]), e.request, 0, Serve(db, e).value.1);
  }

  /**
   Key stability, exactly: the answer to a successful request is repeated for ever, after any further run, iff
   the key was kept, that is, unless it is a point charge under a new, non-empty key for a payment that had
   already been charged.
   */
  lemma RememberedIffKept(db: Db, e: Event)
    requires Inv(db) && Serve(db, e).Ok?
    ensures Remembered(db, e) <==> KeyIsKept(db, e.request)
  {
    hide Inv, Serve, Remembered, Recorded;
    if Recorded(db, e.request) {
      RecordedIsRemembered(db, e);
    } else if e.request.key == "" {
      EmptyKeyIsRemembered(db, e);
    } else {
      UnrecordedIsForgotten(db, e);
    }
  }

  // ----- A concrete failure -----

  /** One user with a POINT account, and nothing else. */
  const ONE_USER := Db([], [], [], [], [UserBinding(0)], [Account(POINT, AvailableAccount, HolderOwner(0))], [], [], [], [],
                       [], [], [], [], [], [], [], [], [])

  lemma FirstDecision(r: Request)
    requires r == ChargeRequest(0, 5, "p", "k1")
    ensures Prepare(ONE_USER, r) == Ok(ChargeTargets(0)) && Decide(ONE_USER, r, ChargeTargets(0)) == Proceed(ChargePlan(0))
  {
    FirstIs(ONE_USER.holders, (h: Binding) => h == UserBinding(0), 0);
    FirstIs(ONE_USER.accounts, (a: Account) => a == Account(POINT, AvailableAccount, HolderOwner(0)), 0);
  }

  lemma FirstCharge(r: Request)
    requires r == ChargeRequest(0, 5, "p", "k1")
    ensures Initial(ONE_USER) && Serve(ONE_USER, Event(r, 0)).Ok?
    ensures After(ONE_USER, Event(r, 0)) == AfterCharge(ONE_USER, r, ChargePlan(0), 0)
  {
    hide Inv, LoadReceipt, ApplyCharge, ApplyAlias, Decide, Prepare;
    InitialInv(ONE_USER);
    FirstDecision(r);
    ProceedCommits(ONE_USER, r, ChargeTargets(0), 0);
    ChargeWrites(ONE_USER, r, ChargePlan(0), 0);
  }

  lemma RetryDecision(db: Db, first: Request, retry: Request)
    requires first == ChargeRequest(0, 5, "p", "k1") && retry == ChargeRequest(0, 5, "p", "k2")
    requires db.holders == [UserBinding(0)]
    requires db.commands == [CommandRow(ONE_USER, first, 0, ExternalPaymentSubject("p"), 0)]
    ensures Prepare(db, retry) == Ok(ChargeTargets(0)) && Decide(db, retry, ChargeTargets(0)) == Replay(0)
    ensures !Recorded(db, retry)
  {
    FirstIs(db.holders, (h: Binding) => h == UserBinding(0), 0);
    assert "k1" != "k2";
    FirstIs(db.commands, (c: Command) =>
      c.subject == ExternalPaymentSubject("p") && c.flowKind == POINT_CHARGE && c.kind == CHARGE && c.result.Some?, 0);
    assert FindCommand(db, 0, CHARGE, "k2").None?;
  }

  /** A retry of the charge under a second key is answered, but its key is not kept. */
  lemma TheKeyPromiseFails()
    ensures var db := After(ONE_USER, Event(ChargeRequest(0, 5, "p", "k1"), 0));
            var retry := Event(ChargeRequest(0, 5, "p", "k2"), 1);
            Serve(db, retry).Ok? && !Remembered(db, retry)
  {
    hide Inv, LoadReceipt, Remembered, Initial, Decide, Prepare, Recorded, After;
    var first, retry := ChargeRequest(0, 5, "p", "k1"), ChargeRequest(0, 5, "p", "k2");
    FirstCharge(first);
    InitialInv(ONE_USER);
    AfterKeeps(ONE_USER, Event(first, 0));
    var db := After(ONE_USER, Event(first, 0));
    RetryDecision(db, first, retry);
    ReceiptLoads(db, 0, true);
    UnrecordedIsForgotten(db, Event(retry, 1));
  }
}
