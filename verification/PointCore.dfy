/** The point decisions: what a charge, a spend, a transfer or an expiry sweep must write. */
module PointCore {
  import opened Prelude
  import opened KstTime

  datatype Kind = Paid | Free

  datatype Snapshot = Snapshot(paid: int, free: int, total: int) {
    function Part(kind: Kind): int {
      if kind == Paid then paid else free
    }
  }

  datatype ChargeBalance = ChargeBalance(id: nat, unspentPaid: int, unspentFree: int)

  datatype SpendAllocation = SpendAllocation(
    chargeId: nat, paid: int, free: int, assumedPaid: int, assumedFree: int, depleted: bool)

  datatype SpendPlan = SpendPlan(
    paidUsage: int, freeUsage: int, allocations: seq<SpendAllocation>, assumed: Snapshot, after: Snapshot)

  datatype ChargePlan = ChargePlan(paid: int, free: int, total: int, chargedAt: Instant)

  datatype TransferPlan = TransferPlan(spend: SpendPlan, charge: ChargePlan)

  datatype ExpirableCharge = ExpirableCharge(id: nat, unspentPaid: int, unspentFree: int, chargedAt: Instant)

  datatype Expiration = Expiration(
    chargeId: nat, expiredPaid: int, expiredFree: int, assumedPaid: int, assumedFree: int)

  datatype ExpiryPlan = ExpiryPlan(
    expirations: seq<Expiration>, expiredAt: Instant, assumed: Snapshot, after: Snapshot)

  datatype PointError =
    | AmountNotPositive(amount: int)
    | InsufficientPoint(available: int, requested: int)
    | LedgerInconsistency(snapshot: Snapshot, uncoveredPaid: int, uncoveredFree: int)
    | TransferToSelf(userId: nat)
    | BalanceDrift(userId: nat, stored: Snapshot, computed: Snapshot)
    | ConcurrentUpdate

  const EXPIRE_AFTER_DAYS := 365

  // ----- Balance of a list of charges -----

  function SumUsable(charges: seq<ChargeBalance>): Snapshot {
    if charges == [] then Snapshot(0, 0, 0) else
      var rest := SumUsable(charges[1..]);
      Snapshot(charges[0].unspentPaid + rest.paid, charges[0].unspentFree + rest.free,
               charges[0].unspentPaid + charges[0].unspentFree + rest.total)
  }

  method SumUsableBalance(charges: seq<ChargeBalance>) returns (sum: Snapshot)
    ensures sum == SumUsable(charges)
  {
    var paidAmount, freeAmount := 0, 0;
    for i := 0 to |charges|
      invariant SumUsable(charges).paid == paidAmount + SumUsable(charges[i..]).paid
      invariant SumUsable(charges).free == freeAmount + SumUsable(charges[i..]).free
    {
      assert charges[i..][1..] == charges[i + 1..];
      paidAmount := paidAmount + charges[i].unspentPaid;
      freeAmount := freeAmount + charges[i].unspentFree;
    }
    SumTotals(charges);
    sum := Snapshot(paidAmount, freeAmount, paidAmount + freeAmount);
  }

  lemma {:induction false} SumTotals(charges: seq<ChargeBalance>)
    ensures SumUsable(charges).total == SumUsable(charges).paid + SumUsable(charges).free
  {
    if charges != [] {
      SumTotals(charges[1..]);
    }
  }

  function AssertBalanceConsistent(userId: nat, stored: Snapshot, charges: seq<ChargeBalance>): Result<(), PointError> {
    var computed := SumUsable(charges);
    if stored == computed then Ok(()) else Err(BalanceDrift(userId, stored, computed))
  }

  // ----- Charge -----

  function PlanCharge(paid: int, free: int, now: Instant): Result<ChargePlan, PointError> {
    if paid < 0 then Err(AmountNotPositive(paid))
    else if free < 0 then Err(AmountNotPositive(free))
    else if paid + free == 0 then Err(AmountNotPositive(0))
    else Ok(ChargePlan(paid, free, paid + free, now))
  }

  // ----- Spend -----

  function PaidUsage(snapshot: Snapshot, amount: int, preferFree: bool): int {
    if preferFree then amount - Min(amount, snapshot.free) else Min(amount, snapshot.paid)
  }

  datatype Poured = Poured(allocations: seq<SpendAllocation>, paidLeft: int, freeLeft: int)

  /** Both kinds poured over the charges in order, skipping charges that give nothing. */
  function PourCharges(charges: seq<ChargeBalance>, paidLeft: int, freeLeft: int): Poured {
    if charges == [] || (paidLeft == 0 && freeLeft == 0) then Poured([], paidLeft, freeLeft) else
      var c := charges[0];
      var paid := Min(paidLeft, c.unspentPaid);
      var free := Min(freeLeft, c.unspentFree);
      if paid + free == 0 then PourCharges(charges[1..], paidLeft, freeLeft) else
        var rest := PourCharges(charges[1..], paidLeft - paid, freeLeft - free);
        rest.(allocations := [Allocate(c, paid, free)] + rest.allocations)
  }

  /** What has been allocated so far, put before the rest of the pouring. */
  function Onto(allocations: seq<SpendAllocation>, rest: Poured): Poured {
    rest.(allocations := allocations + rest.allocations)
  }

  /** One turn of the loop moves the front of the pouring into the allocations. */
  lemma PourStep(charges: seq<ChargeBalance>, i: nat, paidLeft: int, freeLeft: int, allocations: seq<SpendAllocation>)
    requires i < |charges| && !(paidLeft == 0 && freeLeft == 0)
    ensures var c := charges[i];
            var paid, free := Min(paidLeft, c.unspentPaid), Min(freeLeft, c.unspentFree);
            Onto(allocations, PourCharges(charges[i..], paidLeft, freeLeft))
            == if paid + free == 0 then Onto(allocations, PourCharges(charges[i + 1..], paidLeft, freeLeft))
               else Onto(allocations + [Allocate(c, paid, free)],
                         PourCharges(charges[i + 1..], paidLeft - paid, freeLeft - free))
  {
    var c := charges[i];
    var paid, free := Min(paidLeft, c.unspentPaid), Min(freeLeft, c.unspentFree);
    assert charges[i..][0] == c && charges[i..][1..] == charges[i + 1..];
    if paid + free != 0 {
      var rest := PourCharges(charges[i + 1..], paidLeft - paid, freeLeft - free);
      assert allocations + ([Allocate(c, paid, free)] + rest.allocations)
          == (allocations + [Allocate(c, paid, free)]) + rest.allocations;
    }
  }

  lemma PourDone(charges: seq<ChargeBalance>, paidLeft: int, freeLeft: int, allocations: seq<SpendAllocation>)
    requires charges == [] || (paidLeft == 0 && freeLeft == 0)
    ensures Onto(allocations, PourCharges(charges, paidLeft, freeLeft)) == Poured(allocations, paidLeft, freeLeft)
  {
    assert allocations + [] == allocations;
  }

  function Allocate(c: ChargeBalance, paid: int, free: int): SpendAllocation {
    SpendAllocation(c.id, paid, free, c.unspentPaid, c.unspentFree,
                    c.unspentPaid + c.unspentFree - paid - free == 0)
  }

  lemma OntoNothing(rest: Poured)
    ensures Onto([], rest) == rest
  {
    assert [] + rest.allocations == rest.allocations;
  }

  /** The decision `planSpend` makes. */
  function SpendDecision(snapshot: Snapshot, charges: seq<ChargeBalance>, amount: int, preferFree: bool)
    : Result<SpendPlan, PointError>
  {
    if amount <= 0 then Err(AmountNotPositive(amount))
    else if snapshot.total < amount then Err(InsufficientPoint(snapshot.total, amount))
    else
      var paidUsage := PaidUsage(snapshot, amount, preferFree);
      var freeUsage := amount - paidUsage;
      var poured := PourCharges(charges, paidUsage, freeUsage);
      if poured.paidLeft != 0 || poured.freeLeft != 0
      then Err(LedgerInconsistency(snapshot, poured.paidLeft, poured.freeLeft))
      else Ok(SpendPlan(paidUsage, freeUsage, poured.allocations, snapshot,
                        Snapshot(snapshot.paid - paidUsage, snapshot.free - freeUsage, snapshot.total - amount)))
  }

  method PlanSpend(snapshot: Snapshot, charges: seq<ChargeBalance>, amount: int, preferFree: bool)
    returns (r: Result<SpendPlan, PointError>)
    ensures r == SpendDecision(snapshot, charges, amount, preferFree)
  {
    if amount <= 0 {
      return Err(AmountNotPositive(amount));
    }
    if snapshot.total < amount {
      return Err(InsufficientPoint(snapshot.total, amount));
    }
    var paidUsage, freeUsage: int;
    if preferFree {
      freeUsage := Min(amount, snapshot.free);
      paidUsage := amount - freeUsage;
    } else {
      paidUsage := Min(amount, snapshot.paid);
      freeUsage := amount - paidUsage;
    }
    hide PourCharges, Onto;
    var allocations: seq<SpendAllocation> := [];
    var paidLeft, freeLeft := paidUsage, freeUsage;
    var i := 0;
    ghost var whole := Onto([], PourCharges(charges, paidUsage, freeUsage));
    assert charges[0..] == charges;
    while i < |charges| && !(paidLeft == 0 && freeLeft == 0)
      invariant 0 <= i <= |charges|
      invariant Onto(allocations, PourCharges(charges[i..], paidLeft, freeLeft)) == whole
    {
      PourStep(charges, i, paidLeft, freeLeft, allocations);
      var c := charges[i];
      var paid := Min(paidLeft, c.unspentPaid);
      var free := Min(freeLeft, c.unspentFree);
      if paid + free != 0 {
        paidLeft, freeLeft := paidLeft - paid, freeLeft - free;
        allocations := allocations + [Allocate(c, paid, free)];
      }
      i := i + 1;
    }
    PourDone(charges[i..], paidLeft, freeLeft, allocations);
    OntoNothing(PourCharges(charges, paidUsage, freeUsage));
    if paidLeft != 0 || freeLeft != 0 {
      return Err(LedgerInconsistency(snapshot, paidLeft, freeLeft));
    }
    return Ok(SpendPlan(paidUsage, freeUsage, allocations, snapshot,
                        Snapshot(snapshot.paid - paidUsage, snapshot.free - freeUsage, snapshot.total - amount)));
  }

  // ----- Transfer -----

  function PlanTransfer(fromUser: nat, toUser: nat, snapshot: Snapshot, charges: seq<ChargeBalance>,
                        amount: int, now: Instant, preferFree: bool): Result<TransferPlan, PointError>
  {
    if fromUser == toUser then Err(TransferToSelf(fromUser)) else
      match SpendDecision(snapshot, charges, amount, preferFree)
      case Err(e) => Err(e)
      case Ok(spend) =>
        match PlanCharge(spend.paidUsage, spend.freeUsage, now)
        case Err(e) => Err(e)
        case Ok(charge) => Ok(TransferPlan(spend, charge))
  }

  // ----- Expiry -----

  function Deadline(chargedAt: Instant): Instant {
    KstEndOfDay(AddDays(chargedAt, EXPIRE_AFTER_DAYS))
  }

  predicate Due(chargedAt: Instant, now: Instant) {
    Deadline(chargedAt) <= now
  }

  /** Points last until the end of the 365th KST day after the day they were charged on. */
  lemma DueIffYearPassed(chargedAt: Instant, now: Instant)
    ensures Due(chargedAt, now) <==> KstDay(now + 1) > KstDay(chargedAt) + 365
  {
    AddDaysMovesTheDay(chargedAt, EXPIRE_AFTER_DAYS);
    PastEndOfDay(AddDays(chargedAt, EXPIRE_AFTER_DAYS), now);
  }

  function Expire(c: ExpirableCharge): Expiration {
    Expiration(c.id, c.unspentPaid, c.unspentFree, c.unspentPaid, c.unspentFree)
  }

  function DueExpirations(charges: seq<ExpirableCharge>, now: Instant): seq<Expiration> {
    if charges == [] then []
    else (if Due(charges[0].chargedAt, now) then [Expire(charges[0])] else []) + DueExpirations(charges[1..], now)
  }

  function RemovedPart(expirations: seq<Expiration>, kind: Kind): int {
    if expirations == [] then 0
    else (if kind == Paid then expirations[0].expiredPaid else expirations[0].expiredFree)
         + RemovedPart(expirations[1..], kind)
  }

  function ExpiryDecision(snapshot: Snapshot, charges: seq<ExpirableCharge>, now: Instant): ExpiryPlan {
    var expirations := DueExpirations(charges, now);
    var paid, free := RemovedPart(expirations, Paid), RemovedPart(expirations, Free);
    ExpiryPlan(expirations, now, snapshot,
               Snapshot(snapshot.paid - paid, snapshot.free - free, snapshot.total - paid - free))
  }

  lemma {:induction false} RemovedAppend(a: seq<Expiration>, b: seq<Expiration>, kind: Kind)
    ensures RemovedPart(a + b, kind) == RemovedPart(a, kind) + RemovedPart(b, kind)
  {
    if a == [] {
      assert a + b == b;
    } else {
      assert (a + b)[1..] == a[1..] + b;
      RemovedAppend(a[1..], b, kind);
    }
  }

  /** One turn of the sweep's loop. */
  lemma SweepStep(charges: seq<ExpirableCharge>, i: nat, now: Instant, expirations: seq<Expiration>)
    requires i < |charges|
    ensures expirations + DueExpirations(charges[i..], now)
         == (if Due(charges[i].chargedAt, now) then expirations + [Expire(charges[i])] else expirations)
            + DueExpirations(charges[i + 1..], now)
    ensures RemovedPart(expirations + [Expire(charges[i])], Paid) == RemovedPart(expirations, Paid) + charges[i].unspentPaid
    ensures RemovedPart(expirations + [Expire(charges[i])], Free) == RemovedPart(expirations, Free) + charges[i].unspentFree
  {
    hide Deadline;
    assert charges[i..][1..] == charges[i + 1..];
    RemovedAppend(expirations, [Expire(charges[i])], Paid);
    RemovedAppend(expirations, [Expire(charges[i])], Free);
  }

  method PlanExpiry(snapshot: Snapshot, charges: seq<ExpirableCharge>, now: Instant) returns (plan: ExpiryPlan)
    ensures plan == ExpiryDecision(snapshot, charges, now)
  {
    hide Deadline, DueExpirations, RemovedPart;
    var expirations: seq<Expiration> := [];
    var paidRemoved, freeRemoved := 0, 0;
    assert charges[0..] == charges && [] + DueExpirations(charges, now) == DueExpirations(charges, now);
    SweepEnd(now, []);
    for i := 0 to |charges|
      invariant expirations + DueExpirations(charges[i..], now) == DueExpirations(charges, now)
      invariant paidRemoved == RemovedPart(expirations, Paid) && freeRemoved == RemovedPart(expirations, Free)
    {
      SweepStep(charges, i, now, expirations);
      if !(Deadline(charges[i].chargedAt) > now) {
        expirations := expirations + [Expire(charges[i])];
        paidRemoved := paidRemoved + charges[i].unspentPaid;
        freeRemoved := freeRemoved + charges[i].unspentFree;
      }
    }
    assert charges[|charges|..] == [];
    SweepEnd(now, expirations);
    plan := ExpiryPlan(expirations, now, snapshot,
                       Snapshot(snapshot.paid - paidRemoved, snapshot.free - freeRemoved,
                                snapshot.total - paidRemoved - freeRemoved));
  }

  lemma SweepEnd(now: Instant, expirations: seq<Expiration>)
    ensures expirations + DueExpirations([], now) == expirations
    ensures RemovedPart([], Paid) == 0 && RemovedPart([], Free) == 0
  {
  }
}
