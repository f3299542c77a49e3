/** Point transactions in every interleaving of their reads and their later executions. */
module PointConcurrency {
  import opened Prelude
  import opened KstTime
  import opened PointCore
  import opened SpendLaws
  import opened PointLedger
  import opened PointInvariant
  import S = SpendAdditivity
  import E = ExpiryLaws

  // A spend, transfer or expiry first reads a world and decides a plan; the plan is executed later, against a
  // ledger other transactions may have changed.  Charges are lock-free and take one step.

  datatype Request =
    | SpendPoints(user: nat, amount: int, reason: string)
    | TransferPoints(fromUser: nat, toUser: nat, amount: int, now: Instant, preferFree: bool)
    | ExpirePoints(user: nat, now: Instant)

  /** A decided, not yet executed transaction. */
  datatype Pending =
    | PendingSpend(user: nat, reason: Reason, spend: SpendPlan)
    | PendingTransfer(fromUser: nat, toUser: nat, transfer: TransferPlan)
    | PendingExpiry(user: nat, expiry: ExpiryPlan)

  /** Read and decide. */
  function Decide(ledger: Ledger, request: Request): Result<Pending, PointError> {
    match request
    case SpendPoints(user, amount, reason) =>
      (match SpendDecision(BalanceOf(ledger.balances, user), LoadCharges(ledger.charges, user), amount, false)
       case Err(e) => Err(e)
       case Ok(plan) => Ok(PendingSpend(user, Given(reason), plan)))
    case TransferPoints(fromUser, toUser, amount, now, preferFree) =>
      (match PlanTransfer(fromUser, toUser, BalanceOf(ledger.balances, fromUser),
                          LoadCharges(ledger.charges, fromUser), amount, now, preferFree)
       case Err(e) => Err(e)
       case Ok(plan) => Ok(PendingTransfer(fromUser, toUser, plan)))
    case ExpirePoints(user, now) =>
      Ok(PendingExpiry(user, ExpiryDecision(BalanceOf(ledger.balances, user),
                                            LoadExpirable(ledger.charges, user), now)))
  }

  function Execute(ledger: Ledger, pending: Pending): Result<Ledger, PointError> {
    match pending
    case PendingSpend(user, reason, plan) => ApplySpend(ledger, user, reason, plan)
    case PendingTransfer(fromUser, toUser, plan) => ApplyTransfer(ledger, fromUser, toUser, plan)
    case PendingExpiry(user, plan) => ApplyExpiry(ledger, user, plan)
  }

  datatype System = System(ledger: Ledger, pending: map<nat, Pending>)

  datatype Action =
    | Read(tx: nat, request: Request)
    | Run(tx: nat)
    | Abort(tx: nat)
    | Charge(user: nat, paid: int, free: int, now: Instant)

  /** One step of some transaction; an error leaves the ledger as it was. */
  function Next(s: System, action: Action): System {
    match action
    case Read(tx, request) =>
      (match Decide(s.ledger, request)
       case Err(_) => s
       case Ok(pending) => s.(pending := s.pending[tx := pending]))
    case Run(tx) =>
      if tx !in s.pending then s else
        (match Execute(s.ledger, s.pending[tx])
         case Err(_) => s.(pending := s.pending - {tx})
         case Ok(ledger) => System(ledger, s.pending - {tx}))
    case Abort(tx) => s.(pending := s.pending - {tx})
    case Charge(user, paid, free, now) =>
      (match PlanCharge(paid, free, now)
       case Err(_) => s
       case Ok(plan) => s.(ledger := ApplyCharge(s.ledger, user, plan)))
  }

  function RunAll(s: System, actions: seq<Action>): System
    decreases |actions|
  {
    if actions == [] then s else RunAll(Next(s, actions[0]), actions[1..])
  }

  const EMPTY := System(Ledger([], map[], [], []), map[])

  ghost predicate PendingOk(rows: seq<ChargeRow>, pending: Pending) {
    match pending
    case PendingSpend(user, _, plan) => SpendPlanOk(rows, user, plan)
    case PendingTransfer(fromUser, _, plan) =>
      SpendPlanOk(rows, fromUser, plan.spend) && ChargePlanOk(plan.charge)
      && plan.charge.paid == plan.spend.paidUsage && plan.charge.free == plan.spend.freeUsage
    case PendingExpiry(user, plan) => ExpiryPlanOk(rows, user, plan)
  }

  ghost predicate SystemInv(s: System) {
    Inv(s.ledger) && forall tx :: tx in s.pending ==> PendingOk(s.ledger.charges, s.pending[tx])
  }

  lemma DecidedOk(ledger: Ledger, request: Request)
    requires Inv(ledger) && Decide(ledger, request).Ok?
    ensures PendingOk(ledger.charges, Decide(ledger, request).value)
  {
    match request
    case SpendPoints(user, amount, _) =>
      NoDrift(ledger, user);
      DecidedSpendOk(ledger.charges, user, BalanceOf(ledger.balances, user), amount, false);
    case TransferPoints(fromUser, _, amount, _, preferFree) =>
      NoDrift(ledger, fromUser);
      DecidedSpendOk(ledger.charges, fromUser, BalanceOf(ledger.balances, fromUser), amount, preferFree);
    case ExpirePoints(user, now) =>
      DecidedExpiryOk(ledger.charges, user, BalanceOf(ledger.balances, user), now);
  }

  lemma PendingStaysOk(before: seq<ChargeRow>, after: seq<ChargeRow>, pending: Pending)
    requires OnlyDrained(before, after) && PendingOk(before, pending)
    ensures PendingOk(after, pending)
  {
  }

  lemma ExecuteKeeps(ledger: Ledger, pending: Pending)
    requires Inv(ledger) && PendingOk(ledger.charges, pending) && Execute(ledger, pending).Ok?
    ensures var after := Execute(ledger, pending).value;
            Inv(after) && OnlyDrained(ledger.charges, after.charges)
  {
    match pending
    case PendingSpend(user, reason, plan) => SpendKeeps(ledger, user, reason, plan);
    case PendingTransfer(fromUser, toUser, plan) => TransferKeeps(ledger, fromUser, toUser, plan);
    case PendingExpiry(user, plan) => ExpiryKeeps(ledger, user, plan);
  }

  lemma NextKeeps(s: System, action: Action)
    requires SystemInv(s)
    ensures SystemInv(Next(s, action)) && OnlyDrained(s.ledger.charges, Next(s, action).ledger.charges)
  {
    match action
    case Read(tx, request) =>
      if Decide(s.ledger, request).Ok? {
        DecidedOk(s.ledger, request);
      }
    case Run(tx) =>
      if tx in s.pending && Execute(s.ledger, s.pending[tx]).Ok? {
        ExecuteKeeps(s.ledger, s.pending[tx]);
      }
      forall other | other in s.pending { PendingStaysOk(s.ledger.charges, Next(s, action).ledger.charges, s.pending[other]); }
    case Abort(_) =>
    case Charge(user, paid, free, now) =>
      if PlanCharge(paid, free, now).Ok? {
        ChargeKeeps(s.ledger, user, PlanCharge(paid, free, now).value);
      }
      forall other | other in s.pending { PendingStaysOk(s.ledger.charges, Next(s, action).ledger.charges, s.pending[other]); }
  }

  lemma {:induction false} RunAllKeeps(s: System, actions: seq<Action>)
    requires SystemInv(s)
    ensures SystemInv(RunAll(s, actions)) && OnlyDrained(s.ledger.charges, RunAll(s, actions).ledger.charges)
    decreases |actions|
  {
    if actions != [] {
      NextKeeps(s, actions[0]);
      RunAllKeeps(Next(s, actions[0]), actions[1..]);
    }
  }

  lemma EmptyOk()
    ensures SystemInv(EMPTY)
  {
  }

  /**
   Guard soundness: after any interleaving from the empty ledger, every user's stored balance equals the
   sum of their USABLE charges (the verify sweep reports no drift), nothing is negative, and per kind it
   equals what was charged minus what was spent minus what expired.
   */
  lemma EveryInterleavingAgrees(actions: seq<Action>, user: nat, kind: Kind)
    ensures var ledger := RunAll(EMPTY, actions).ledger;
            && AssertBalanceConsistent(user, BalanceOf(ledger.balances, user), LoadCharges(ledger.charges, user)) == Ok(())
            && BalanceOf(ledger.balances, user).Part(kind) == UsableSum(ledger.charges, user, kind) >= 0
            && BalanceOf(ledger.balances, user).Part(kind)
               == ChargedSum(ledger.charges, user, kind) - SpentSum(ledger.spends, user, kind)
                  - RemovedSum(ledger.removals, user, kind)
            && RowsOk(ledger.charges)
  {
    EmptyOk();
    RunAllKeeps(EMPTY, actions);
    NoDrift(RunAll(EMPTY, actions).ledger, user);
  }

  /** A plan that committed a transfer moved each kind without changing the all-user total. */
  lemma InterleavedTransferConserves(actions: seq<Action>, tx: nat, kind: Kind)
    requires var s := RunAll(EMPTY, actions); tx in s.pending && s.pending[tx].PendingTransfer?
    ensures var s := RunAll(EMPTY, actions);
            AllUsable(Next(s, Run(tx)).ledger.charges, kind) == AllUsable(s.ledger.charges, kind)
  {
    EmptyOk();
    RunAllKeeps(EMPTY, actions);
    var s := RunAll(EMPTY, actions);
    var p := s.pending[tx];
    if Execute(s.ledger, p).Ok? {
      TransferConservesEachKind(s.ledger, p.fromUser, p.toUser, p.transfer, kind);
    }
  }

  // ----- When a stale plan commits -----

  ghost predicate PartsCurrent(rows: seq<ChargeRow>, allocations: seq<SpendAllocation>) {
    forall j :: 0 <= j < |allocations| ==>
      && allocations[j].chargeId < |rows|
      && var row := rows[allocations[j].chargeId];
         row.state == USABLE && row.unspentPaid == allocations[j].assumedPaid && row.unspentFree == allocations[j].assumedFree
  }

  ghost predicate ExpirationsCurrent(rows: seq<ChargeRow>, expirations: seq<Expiration>) {
    forall j :: 0 <= j < |expirations| ==>
      && expirations[j].chargeId < |rows|
      && var row := rows[expirations[j].chargeId];
         row.state == USABLE && row.unspentPaid == expirations[j].assumedPaid && row.unspentFree == expirations[j].assumedFree
  }

  ghost predicate BalanceCurrent(ledger: Ledger, user: nat, assumed: Snapshot) {
    user in ledger.balances && ledger.balances[user] == assumed
  }

  /** Every charge row a plan touches, and the balance row, still hold the values it assumed. */
  ghost predicate StillCurrent(ledger: Ledger, p: Pending) {
    match p
    case PendingSpend(user, _, plan) =>
      PartsCurrent(ledger.charges, plan.allocations) && BalanceCurrent(ledger, user, plan.assumed)
    case PendingTransfer(fromUser, _, plan) =>
      PartsCurrent(ledger.charges, plan.spend.allocations) && BalanceCurrent(ledger, fromUser, plan.spend.assumed)
    case PendingExpiry(user, plan) =>
      plan.expirations == []
      || (ExpirationsCurrent(ledger.charges, plan.expirations) && BalanceCurrent(ledger, user, plan.assumed))
  }

  lemma {:induction false} ConsumesIffCurrent(rows: seq<ChargeRow>, allocations: seq<SpendAllocation>)
    requires DistinctParts(allocations)
    ensures ConsumeAll(rows, allocations).Some? <==> PartsCurrent(rows, allocations)
    decreases |allocations|
  {
    if allocations != [] && GuardHolds(rows, allocations[0].chargeId, allocations[0].assumedPaid, allocations[0].assumedFree) {
      var a := allocations[0];
      var next := rows[a.chargeId := Consume(rows[a.chargeId], a)];
      ConsumesIffCurrent(next, allocations[1..]);
      assert PartsCurrent(next, allocations[1..]) <==> PartsCurrent(rows, allocations) by {
        forall j | 1 <= j < |allocations|
          ensures GuardHolds(next, allocations[j].chargeId, allocations[j].assumedPaid, allocations[j].assumedFree)
             <==> GuardHolds(rows, allocations[j].chargeId, allocations[j].assumedPaid, allocations[j].assumedFree)
        {
        }
        assert forall j :: 1 <= j < |allocations| ==> allocations[j] == allocations[1..][j - 1];
      }
    }
  }

  lemma {:induction false} SweepsIffCurrent(rows: seq<ChargeRow>, expirations: seq<Expiration>, at: Instant)
    requires DistinctExpirations(expirations)
    ensures SweepAll(rows, expirations, at).Some? <==> ExpirationsCurrent(rows, expirations)
    decreases |expirations|
  {
    if expirations != [] && GuardHolds(rows, expirations[0].chargeId, expirations[0].assumedPaid, expirations[0].assumedFree) {
      var e := expirations[0];
      var next := rows[e.chargeId := SweepRow(rows[e.chargeId], at)];
      SweepsIffCurrent(next, expirations[1..], at);
      assert ExpirationsCurrent(next, expirations[1..]) <==> ExpirationsCurrent(rows, expirations) by {
        forall j | 1 <= j < |expirations|
          ensures GuardHolds(next, expirations[j].chargeId, expirations[j].assumedPaid, expirations[j].assumedFree)
             <==> GuardHolds(rows, expirations[j].chargeId, expirations[j].assumedPaid, expirations[j].assumedFree)
        {
        }
        assert forall j :: 1 <= j < |expirations| ==> expirations[j] == expirations[1..][j - 1];
      }
    }
  }

  lemma ExecutesIffCurrent(ledger: Ledger, p: Pending)
    requires PendingOk(ledger.charges, p)
    ensures Execute(ledger, p).Ok? <==> StillCurrent(ledger, p)
    ensures Execute(ledger, p).Err? ==> Execute(ledger, p).error == ConcurrentUpdate
  {
    hide PartsCurrent, ExpirationsCurrent, ConsumeAll, SweepAll, OwnedParts, OwnedExpirations;
    match p
    case PendingSpend(_, _, plan) => ConsumesIffCurrent(ledger.charges, plan.allocations);
    case PendingTransfer(_, _, plan) => ConsumesIffCurrent(ledger.charges, plan.spend.allocations);
    case PendingExpiry(_, plan) => SweepsIffCurrent(ledger.charges, plan.expirations, plan.expiredAt);
  }

  /**
   In every interleaving a plan, however old, commits iff every charge row it touches and the balance row
   still hold the values it assumed; otherwise it is a conflict.
   */
  lemma CommitsIffCurrent(actions: seq<Action>, tx: nat)
    requires tx in RunAll(EMPTY, actions).pending
    ensures var s := RunAll(EMPTY, actions);
            && (Execute(s.ledger, s.pending[tx]).Ok? <==> StillCurrent(s.ledger, s.pending[tx]))
            && (Execute(s.ledger, s.pending[tx]).Err? ==> Execute(s.ledger, s.pending[tx]) == Err(ConcurrentUpdate))
  {
    hide Execute, StillCurrent, PendingOk, Inv;
    EmptyOk();
    RunAllKeeps(EMPTY, actions);
    ExecutesIffCurrent(RunAll(EMPTY, actions).ledger, RunAll(EMPTY, actions).pending[tx]);
  }

  /** A plan executed on the very ledger it was decided on commits: a spend, a transfer or a sweep alone never conflicts. */
  lemma AloneCommits(ledger: Ledger, request: Request)
    requires Inv(ledger) && Decide(ledger, request).Ok?
    ensures Execute(ledger, Decide(ledger, request).value).Ok?
  {
    DecidedOk(ledger, request);
    ExecutesIffCurrent(ledger, Decide(ledger, request).value);
    match request
    case SpendPoints(user, amount, _) => S.DecidedIsFresh(ledger, user, amount, false);
    case TransferPoints(fromUser, _, amount, _, preferFree) => S.DecidedIsFresh(ledger, fromUser, amount, preferFree);
    case ExpirePoints(user, now) => E.SweepNowKeeps(ledger, user, now);
  }

  // ----- A lost race is always a conflict -----

  /** The charge a plan's i-th guarded update names, and the value it assumed there. */
  ghost function Assumption(p: Pending, i: nat): Option<(nat, int)> {
    match p
    case PendingSpend(_, _, plan) => SpendAssumption(plan.allocations, i)
    case PendingTransfer(_, _, plan) => SpendAssumption(plan.spend.allocations, i)
    case PendingExpiry(_, plan) =>
      if i < |plan.expirations|
      then Some((plan.expirations[i].chargeId, plan.expirations[i].assumedPaid + plan.expirations[i].assumedFree))
      else None
  }

  ghost function SpendAssumption(allocations: seq<SpendAllocation>, i: nat): Option<(nat, int)> {
    if i < |allocations| then Some((allocations[i].chargeId, allocations[i].assumedPaid + allocations[i].assumedFree))
    else None
  }

  /** The value assumed in a charge has since been drawn on. */
  ghost predicate Overtaken(rows: seq<ChargeRow>, id: nat, assumed: int) {
    id < |rows| && rows[id].unspentPaid + rows[id].unspentFree < assumed
  }

  lemma {:induction false} SpendOvertakes(rows: seq<ChargeRow>, user: nat, allocations: seq<SpendAllocation>, j: nat)
    requires RowsOk(rows) && OwnedParts(rows, user, allocations) && j < |allocations|
    requires ConsumeAll(rows, allocations).Some?
    ensures Overtaken(ConsumeAll(rows, allocations).value, allocations[j].chargeId,
                      allocations[j].assumedPaid + allocations[j].assumedFree)
    decreases |allocations|
  {
    var a := allocations[0];
    var next := rows[a.chargeId := Consume(rows[a.chargeId], a)];
    if j == 0 {
      ConsumeAllKeeps(next, user, allocations[1..]);
    } else {
      SpendOvertakes(next, user, allocations[1..], j - 1);
    }
  }

  lemma {:induction false} SweepOvertakes(
    rows: seq<ChargeRow>, user: nat, expirations: seq<Expiration>, at: Instant, j: nat)
    requires RowsOk(rows) && OwnedExpirations(rows, user, expirations) && j < |expirations|
    requires SweepAll(rows, expirations, at).Some?
    ensures Overtaken(SweepAll(rows, expirations, at).value, expirations[j].chargeId,
                      expirations[j].assumedPaid + expirations[j].assumedFree)
    decreases |expirations|
  {
    var e := expirations[0];
    var next := rows[e.chargeId := SweepRow(rows[e.chargeId], at)];
    if j == 0 {
      SweepAllKeeps(next, user, expirations[1..], at);
    } else {
      SweepOvertakes(next, user, expirations[1..], at, j - 1);
    }
  }

  /** A commit draws on every charge its plan names. */
  lemma ExecuteOvertakes(ledger: Ledger, p: Pending, i: nat)
    requires Inv(ledger) && PendingOk(ledger.charges, p) && Execute(ledger, p).Ok? && Assumption(p, i).Some?
    ensures Overtaken(Execute(ledger, p).value.charges, Assumption(p, i).value.0, Assumption(p, i).value.1)
  {
    match p
    case PendingSpend(user, _, plan) => SpendOvertakes(ledger.charges, user, plan.allocations, i);
    case PendingTransfer(fromUser, _, plan) => SpendOvertakes(ledger.charges, fromUser, plan.spend.allocations, i);
    case PendingExpiry(user, plan) => SweepOvertakes(ledger.charges, user, plan.expirations, plan.expiredAt, i);
  }

  lemma OvertakenIsStale(ledger: Ledger, p: Pending, j: nat)
    requires Assumption(p, j).Some? && Overtaken(ledger.charges, Assumption(p, j).value.0, Assumption(p, j).value.1)
    ensures !StillCurrent(ledger, p)
  {
  }

  /**
   No double spending: once a spend, transfer or sweep that drew on a charge has committed, another plan that
   assumed the same value of that charge can never commit, whatever runs in between.
   */
  lemma LosersConflict(s: System, winner: nat, actions: seq<Action>, loser: Pending, i: nat, j: nat)
    requires SystemInv(s) && winner in s.pending && Execute(s.ledger, s.pending[winner]).Ok?
    requires PendingOk(s.ledger.charges, loser)
    requires Assumption(loser, j).Some? && Assumption(s.pending[winner], i) == Assumption(loser, j)
    ensures Execute(RunAll(Next(s, Run(winner)), actions).ledger, loser) == Err(ConcurrentUpdate)
  {
    hide Execute, PendingOk, Inv, Assumption, StillCurrent;
    ExecuteOvertakes(s.ledger, s.pending[winner], i);
    NextKeeps(s, Run(winner));
    var mid := Next(s, Run(winner));
    RunAllKeeps(mid, actions);
    var end := RunAll(mid, actions);
    PendingStaysOk(s.ledger.charges, mid.ledger.charges, loser);
    PendingStaysOk(mid.ledger.charges, end.ledger.charges, loser);
    OvertakenIsStale(end.ledger, loser, j);
    ExecutesIffCurrent(end.ledger, loser);
  }
}
