/**
 Which advisory locks each request takes, and what it means for two requests to share none of them.
 */
module LedgerLocks {
  import opened LedgerUseCases
  import opened Locks

  function Digit(n: nat): char
    requires n < 10
  {
    ('0' as int + n) as char
  }

  /** A template string prints an id in decimal. */
  function Decimal(n: nat): string {
    if n < 10 then [Digit(n)] else Decimal(n / 10) + [Digit(n % 10)]
  }

  function CommandLockName(actor: nat, kind: string, key: string): string {
    Decimal(actor) + ":" + kind + ":" + key
  }

  /** The keys each service passes to `uow.serialized`. */
  function LocksOf(r: Request, t: Targets): seq<LockKey>
    requires Matching(r, t)
  {
    match r
    case ChargeRequest(actor, _, external, key) =>
      [FinancialHolderLock(t.holder), ChargePaymentLock(external), ChargeCommandLock(CommandLockName(actor, "CHARGE", key))]
    case CheckoutRequest(payment, actor, key) =>
      [OrderPaymentLock(payment), FinancialHolderLock(t.holder), CommissionSlotLock(t.slot),
       CheckoutCommandLock(CommandLockName(actor, "PAY", key))]
    case SettleRequest(contract, actor, key) =>
      [CommissionContractLock(contract), FinancialHolderLock(t.holder),
       SettlementCommandLock(CommandLockName(actor, "SETTLE", key))]
    case WithdrawRequest(actor, _, key) =>
      [FinancialHolderLock(t.holder), WithdrawalCommandLock(CommandLockName(actor, "WITHDRAW", key))]
  }

  ghost predicate NoSharedLock(r: Request, t: Targets, r': Request, t': Targets)
    requires Matching(r, t) && Matching(r', t')
  {
    forall k :: k in LocksOf(r, t) ==> k !in LocksOf(r', t')
  }

  /** Different requests in every sense a lock protects. */
  ghost predicate Apart(r: Request, t: Targets, r': Request, t': Targets) {
    && t.holder != t'.holder
    && (KindOf(r) == KindOf(r') ==> !(r.actor == r'.actor && r.key == r'.key))
    && (KindOf(r) == KindOf(r') && SubjectOf(r).Some? ==> SubjectOf(r) != SubjectOf(r'))
    && (r.CheckoutRequest? && r'.CheckoutRequest? && t.CheckoutTargets? && t'.CheckoutTargets? ==> t.slot != t'.slot)
  }

  /** Sharing no lock keeps holders, command keys, subjects and slots apart. */
  lemma NoSharedLockMeansApart(r: Request, t: Targets, r': Request, t': Targets)
    requires Matching(r, t) && Matching(r', t') && NoSharedLock(r, t, r', t')
    ensures Apart(r, t, r', t')
  {
    hide StringLockId, Decimal;
    var mine, theirs := LocksOf(r, t), LocksOf(r', t');
    assert FinancialHolderLock(t.holder) in mine && FinancialHolderLock(t'.holder) in theirs;
    match r
    case ChargeRequest(_, _, _, _) =>
      if r'.ChargeRequest? {
        assert mine[1] in mine && mine[2] in mine && theirs[1] in theirs && theirs[2] in theirs;
      }
    case CheckoutRequest(_, _, _) =>
      if r'.CheckoutRequest? {
        assert mine[0] in mine && mine[2] in mine && mine[3] in mine;
        assert theirs[0] in theirs && theirs[2] in theirs && theirs[3] in theirs;
      }
    case SettleRequest(_, _, _) =>
      if r'.SettleRequest? {
        assert mine[0] in mine && mine[2] in mine && theirs[0] in theirs && theirs[2] in theirs;
      }
    case WithdrawRequest(_, _, _) =>
      if r'.WithdrawRequest? {
        assert mine[1] in mine && theirs[1] in theirs;
      }
  }

  /** Two lock names that FNV-1a maps to the same 32 bits. */
  ghost predicate SameHash(a: string, b: string) {
    StringLockId(a) == StringLockId(b)
  }

  /** What two requests have in common when they contend for a lock. */
  ghost predicate Contend(r: Request, t: Targets, r': Request, t': Targets)
    requires Matching(r, t) && Matching(r', t')
  {
    || t.holder == t'.holder
    || (r.ChargeRequest? && r'.ChargeRequest?
        && (SameHash(r.externalPaymentId, r'.externalPaymentId)
            || SameHash(Decimal(r.actor) + ":" + "CHARGE" + ":" + r.key, Decimal(r'.actor) + ":" + "CHARGE" + ":" + r'.key)))
    || (r.CheckoutRequest? && r'.CheckoutRequest?
        && (r.payment == r'.payment || t.slot == t'.slot
            || SameHash(Decimal(r.actor) + ":" + "PAY" + ":" + r.key, Decimal(r'.actor) + ":" + "PAY" + ":" + r'.key)))
    || (r.SettleRequest? && r'.SettleRequest?
        && (r.contract == r'.contract
            || SameHash(Decimal(r.actor) + ":" + "SETTLE" + ":" + r.key, Decimal(r'.actor) + ":" + "SETTLE" + ":" + r'.key)))
    || (r.WithdrawRequest? && r'.WithdrawRequest?
        && SameHash(Decimal(r.actor) + ":" + "WITHDRAW" + ":" + r.key, Decimal(r'.actor) + ":" + "WITHDRAW" + ":" + r'.key))
  }

  /**
   Requests wait for each other exactly when they concern one holder, one payment, slot or contract, or when two of
   their hashed names collide: the locks are no coarser than that.
   */
  lemma ShareLockIffContend(r: Request, t: Targets, r': Request, t': Targets)
    requires Matching(r, t) && Matching(r', t')
    ensures NoSharedLock(r, t, r', t') <==> !Contend(r, t, r', t')
  {
    hide StringLockId, Decimal;
    var mine, theirs := LocksOf(r, t), LocksOf(r', t');
    assert FinancialHolderLock(t.holder) in mine && FinancialHolderLock(t'.holder) in theirs;
    assert forall i :: 0 <= i < |mine| ==> mine[i] in mine;
    assert forall i :: 0 <= i < |theirs| ==> theirs[i] in theirs;
    if !NoSharedLock(r, t, r', t') {
      var k :| k in mine && k in theirs;
    }
    if NoSharedLock(r, t, r', t') && KindOf(r) == KindOf(r') {
      assert mine[0] !in theirs && mine[1] !in theirs;
      assert |mine| > 2 ==> mine[2] !in theirs;
      assert |mine| > 3 ==> mine[3] !in theirs;
    }
  }
}
