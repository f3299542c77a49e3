/**
 Any number of requests served at once, and why every interleaving of them is a serial run.
 */
module LedgerConcurrency {
  import opened Prelude
  import opened LedgerTables
  import opened LedgerUseCases
  import opened LedgerHistory
  import opened LedgerInvariant
  import opened LedgerPlans
  import opened LedgerRuns
  import opened LedgerIdempotency
  import opened LedgerLocks
  import opened LedgerFrame
  import opened Locks
  import P = LockProtocol

  // Each request picks its lock targets, acquires its locks one by one, checks for a replay, plans, and
  // commits, with other transactions stepping in between; nothing is read again at the commit.  At any point
  // before its commit a transaction may give up (a timeout, or an error thrown in its body), which releases
  // its locks; its caller may send the same request again, or not.

  datatype Phase =
    | Idle
    | Acquiring(targets: Targets, held: nat)
    | Checked(targets: Targets)                       // the replay check found nothing
    | Planned(targets: Targets, decision: Decision)   // decided, but nothing visible to others yet
    | Finished(reported: Result<Receipt, Rejection>, place: nat)

  datatype Worker = Worker(request: Request, phase: Phase)

  /** The committed tables, the transactions, and the requests in the order they ended. */
  datatype System = System(db: Db, workers: seq<Worker>, log: seq<Event>)

  // ----- Steps -----

  ghost predicate Targeted(w: Worker) {
    !w.phase.Idle? && !w.phase.Finished? && Matching(w.request, w.phase.targets)
  }

  ghost function LockPlan(w: Worker): seq<LockKey>
    requires Targeted(w)
  {
    OrderedLocks(LocksOf(w.request, w.phase.targets))
  }

  /** The transaction as the lock manager sees it. */
  ghost function LockView(w: Worker): P.Tx {
    if !Targeted(w) then P.Tx([], 0, true)
    else P.Tx(LockPlan(w), if w.phase.Acquiring? then w.phase.held else |LockPlan(w)|, false)
  }

  ghost function LockViews(workers: seq<Worker>): (s: P.System)
    ensures |s| == |workers| && forall t :: 0 <= t < |s| ==> s[t] == LockView(workers[t])
  {
    seq(|workers|, t requires 0 <= t < |workers| => LockView(workers[t]))
  }

  ghost predicate CanStep(s: System, t: nat) {
    t < |s.workers| && !s.workers[t].phase.Finished?
    && (s.workers[t].phase.Idle? || Targeted(s.workers[t]))
    && (s.workers[t].phase.Acquiring? ==> P.Enabled(LockViews(s.workers), t))
  }

  /** The plan made after an empty replay check. */
  ghost function PlanFresh(db: Db, r: Request, t: Targets): Decision
    requires Matching(r, t)
  {
    match r
    case ChargeRequest(_, _, _, _) => PlanPointCharge(db, r, t.holder)
    case CheckoutRequest(_, _, _) => PlanCheckout(db, r, t)
    case SettleRequest(_, _, _) => PlanSettle(db, r, t)
    case WithdrawRequest(_, _, _) => PlanWithdraw(db, r, t.holder)
  }

  /** Apply a decision made earlier to the tables as they are now; a miss rolls everything back. */
  ghost function Commit(db: Db, r: Request, decision: Decision, now: int): Outcome {
    if DecisionFits(db, r, decision) then Apply(db, r, decision, now) else Err(CorruptResult)
  }

  ghost function Reported(outcome: Outcome): Result<Receipt, Rejection> {
    match outcome
    case Err(e) => Err(e)
    case Ok(done) => Ok(done.1)
  }

  ghost function Tables(db: Db, outcome: Outcome): Db {
    match outcome
    case Err(_) => db
    case Ok(done) => done.0
  }

  ghost function Moved(s: System, t: nat, phase: Phase): System
    requires t < |s.workers|
  {
    s.(workers := s.workers[t := s.workers[t].(phase := phase)])
  }

  ghost function Ended(s: System, t: nat, outcome: Outcome, now: int): System
    requires t < |s.workers|
  {
    Moved(s, t, Finished(Reported(outcome), |s.log|))
      .(db := Tables(s.db, outcome), log := s.log + [Event(s.workers[t].request, now)])
  }

  /** One step of one transaction. */
  ghost function Advance(s: System, t: nat, now: int): System
    requires CanStep(s, t)
  {
    var w := s.workers[t];
    match w.phase
    case Idle =>
      (match Prepare(s.db, w.request)
       case Err(e) => Ended(s, t, Err(e), now)
       case Ok(targets) => Moved(s, t, Acquiring(targets, 0)))
    case Acquiring(targets, held) =>
      if held < |LockPlan(w)| then Moved(s, t, Acquiring(targets, held + 1))
      else if NewCommand(s.db, w.request) then Moved(s, t, Checked(targets))
      else Moved(s, t, Planned(targets, Decide(s.db, w.request, targets)))
    case Checked(targets) => Moved(s, t, Planned(targets, PlanFresh(s.db, w.request, targets)))
    case Planned(_, decision) => Ended(s, t, Commit(s.db, w.request, decision, now), now)
  }

  ghost function Open(db: Db, requests: seq<Request>): System {
    System(db, seq(|requests|, i requires 0 <= i < |requests| => Worker(requests[i], Idle)), [])
  }

  /** A transaction that has begun and not committed can roll back at any time, even while it waits for a lock. */
  ghost predicate CanGiveUp(s: System, t: nat) {
    t < |s.workers| && !s.workers[t].phase.Idle? && !s.workers[t].phase.Finished?
  }

  datatype Turn = Go(worker: nat, now: int) | GiveUp(worker: nat)

  ghost predicate CanTake(s: System, turn: Turn) {
    match turn
    case Go(t, _) => CanStep(s, t)
    case GiveUp(t) => CanGiveUp(s, t)
  }

  ghost function Take(s: System, turn: Turn): System
    requires CanTake(s, turn)
  {
    match turn
    case Go(t, now) => Advance(s, t, now)
    case GiveUp(t) => Moved(s, t, Idle)
  }

  ghost predicate Runs(s: System, turns: seq<Turn>)
    decreases |turns|
  {
    turns == [] || (CanTake(s, turns[0]) && Runs(Take(s, turns[0]), turns[1..]))
  }

  ghost function Reached(s: System, turns: seq<Turn>): System
    requires Runs(s, turns)
    decreases |turns|
  {
    if turns == [] then s else Reached(Take(s, turns[0]), turns[1..])
  }

  // ----- The invariant -----

  /** What the request ended at this place of the log would be told if all before it ran one after another. */
  ghost function SerialReport(start: Db, log: seq<Event>, place: nat): Result<Receipt, Rejection>
    requires place < |log|
  {
    Reported(Serve(RunAll(start, log[..place]), log[place]))
  }

  ghost predicate WorkerOk(start: Db, db: Db, log: seq<Event>, w: Worker) {
    match w.phase
    case Idle => true
    case Acquiring(targets, held) => Prepared(db, w.request, targets) && Targeted(w) && held <= |LockPlan(w)|
    case Checked(targets) => Prepared(db, w.request, targets) && Targeted(w) && NewCommand(db, w.request)
    case Planned(targets, decision) =>
      Prepared(db, w.request, targets) && Targeted(w) && decision == Decide(db, w.request, targets)
    case Finished(reported, place) =>
      place < |log| && log[place].request == w.request && reported == SerialReport(start, log, place)
  }

  ghost predicate Placed(w: Worker, place: nat) {
    w.phase.Finished? && w.phase.place == place
  }

  ghost predicate Taken(workers: seq<Worker>, place: nat) {
    exists t :: 0 <= t < |workers| && Placed(workers[t], place)
  }

  /** Every finished transaction has its own place in the log, and every place is somebody's. */
  ghost predicate PlacesOk(s: System) {
    && (forall i :: 0 <= i < |s.log| ==> Taken(s.workers, i))
    && forall t, u :: 0 <= t < u < |s.workers| && s.workers[t].phase.Finished? && s.workers[u].phase.Finished? ==>
         s.workers[t].phase.place != s.workers[u].phase.place
  }

  lemma StaysTaken(workers: seq<Worker>, place: nat, t: nat, w: Worker)
    requires t < |workers| && !workers[t].phase.Finished? && Taken(workers, place)
    ensures Taken(workers[t := w], place)
  {
    var u :| 0 <= u < |workers| && Placed(workers[u], place);
    assert Placed(workers[t := w][u], place);
  }

  ghost predicate WorkersOk(start: Db, s: System) {
    forall t :: 0 <= t < |s.workers| ==> WorkerOk(start, s.db, s.log, s.workers[t])
  }

  /** Everything but the tables' own invariant. */
  ghost predicate TrafficInv(start: Db, s: System) {
    && s.db == RunAll(start, s.log)
    && P.Inv(LockViews(s.workers)) && WorkersOk(start, s) && PlacesOk(s)
  }

  ghost predicate SystemInv(start: Db, s: System) {
    Inv(s.db) && TrafficInv(start, s)
  }

  lemma OpenOk(start: Db, requests: seq<Request>)
    requires Initial(start)
    ensures SystemInv(start, Open(start, requests))
  {
    hide Inv, Initial;
    InitialInv(start);
  }

  // ----- Locks -----

  lemma ReleasedKeeps(s: P.System, t: nat, tx: P.Tx)
    requires P.Inv(s) && t < |s| && P.Started(tx) && (forall k :: !P.Holds(tx, k))
    ensures P.Inv(s[t := tx])
  {
  }

  lemma NothingHeld(plan: seq<LockKey>)
    ensures forall k :: !P.Holds(P.Tx(plan, 0, false), k) && !P.Holds(P.Tx([], 0, true), k)
  {
  }

  lemma ViewMoved(s: System, t: nat, phase: Phase)
    requires t < |s.workers|
    ensures LockViews(Moved(s, t, phase).workers) == LockViews(s.workers)[t := LockView(s.workers[t].(phase := phase))]
  {
  }

  /** Two transactions past their acquisition share no lock. */
  lemma HoldersAreApart(s: System, t: nat, u: nat)
    requires P.Inv(LockViews(s.workers)) && t < |s.workers| && u < |s.workers| && t != u
    requires Targeted(s.workers[t]) && !s.workers[t].phase.Acquiring?
    requires Targeted(s.workers[u]) && !s.workers[u].phase.Acquiring?
    ensures Apart(s.workers[t].request, s.workers[t].phase.targets, s.workers[u].request, s.workers[u].phase.targets)
  {
    hide Apart, LocksOf, OrderedLocks;
    var a, b := s.workers[t], s.workers[u];
    var mine, theirs := LocksOf(a.request, a.phase.targets), LocksOf(b.request, b.phase.targets);
    OrderedLocksAscend(mine);
    OrderedLocksAscend(theirs);
    forall k | k in mine ensures k !in theirs {
      P.ExclusivePair(LockViews(s.workers), t, u, k);
      assert LockPlan(a)[..|LockPlan(a)|] == LockPlan(a) && LockPlan(b)[..|LockPlan(b)|] == LockPlan(b);
    }
    NoSharedLockMeansApart(a.request, a.phase.targets, b.request, b.phase.targets);
  }

  // ----- Each step keeps the invariant -----

  lemma {:induction false} RunAllAppend(db: Db, log: seq<Event>, e: Event)
    ensures RunAll(db, log + [e]) == After(RunAll(db, log), e)
    decreases |log|
  {
    if log == [] {
      assert log + [e] == [e];
    } else {
      assert (log + [e])[1..] == log[1..] + [e];
      RunAllAppend(After(db, log[0]), log[1..], e);
    }
  }

  /** A step that commits nothing. */
  lemma MovedKeeps(start: Db, s: System, t: nat, phase: Phase)
    requires TrafficInv(start, s) && t < |s.workers| && !s.workers[t].phase.Finished? && !phase.Finished?
    requires WorkerOk(start, s.db, s.log, s.workers[t].(phase := phase))
    requires P.Inv(LockViews(s.workers)[t := LockView(s.workers[t].(phase := phase))])
    ensures TrafficInv(start, Moved(s, t, phase))
  {
    hide Inv, WorkerOk, P.Inv, LockViews, RunAll, Taken;
    ViewMoved(s, t, phase);
    var s' := Moved(s, t, phase);
    forall i | 0 <= i < |s'.log| ensures Taken(s'.workers, i) {
      StaysTaken(s.workers, i, t, s'.workers[t]);
    }
  }

  lemma FreshPlanIsDecision(db: Db, r: Request, t: Targets)
    requires Matching(r, t) && NewCommand(db, r)
    ensures PlanFresh(db, r, t) == Decide(db, r, t)
  {
  }

  lemma BeginKeeps(start: Db, s: System, t: nat)
    requires TrafficInv(start, s) && t < |s.workers| && s.workers[t].phase.Idle? && Prepare(s.db, s.workers[t].request).Ok?
    ensures TrafficInv(start, Moved(s, t, Acquiring(Prepare(s.db, s.workers[t].request).value, 0)))
  {
    hide Inv, LocksOf, OrderedLocks, RunAll;
    var w := s.workers[t];
    var targets := Prepare(s.db, w.request).value;
    PreparedMatches(s.db, w.request, targets);
    hide Prepare;
    OrderedLocksAscend(LocksOf(w.request, targets));
    NothingHeld(OrderedLocks(LocksOf(w.request, targets)));
    ReleasedKeeps(LockViews(s.workers), t, LockView(w.(phase := Acquiring(targets, 0))));
    MovedKeeps(start, s, t, Acquiring(targets, 0));
  }

  lemma AcquireKeeps(start: Db, s: System, t: nat, now: int)
    requires TrafficInv(start, s) && CanStep(s, t) && s.workers[t].phase.Acquiring?
    ensures TrafficInv(start, Advance(s, t, now))
  {
    hide Inv, LocksOf, OrderedLocks, RunAll, Decide, NewCommand, Prepare;
    var w := s.workers[t];
    var targets, held := w.phase.targets, w.phase.held;
    assert WorkerOk(start, s.db, s.log, w);
    var views := LockViews(s.workers);
    if held < |LockPlan(w)| {
      P.StepKeeps(views, t);
      assert LockView(w.(phase := Acquiring(targets, held + 1))) == views[t].(held := held + 1);
      MovedKeeps(start, s, t, Acquiring(targets, held + 1));
    } else if NewCommand(s.db, w.request) {
      assert views[t := LockView(w.(phase := Checked(targets)))] == views;
      MovedKeeps(start, s, t, Checked(targets));
    } else {
      var d := Decide(s.db, w.request, targets);
      assert views[t := LockView(w.(phase := Planned(targets, d)))] == views;
      MovedKeeps(start, s, t, Planned(targets, d));
    }
  }

  lemma PlanKeeps(start: Db, s: System, t: nat)
    requires TrafficInv(start, s) && CanStep(s, t) && s.workers[t].phase.Checked?
    ensures TrafficInv(start, Advance(s, t, 0))
  {
    hide Inv, LocksOf, OrderedLocks, RunAll, Prepare, PlanFresh, Decide, NewCommand;
    var w := s.workers[t];
    assert WorkerOk(start, s.db, s.log, w);
    FreshPlanIsDecision(s.db, w.request, w.phase.targets);
    var views := LockViews(s.workers);
    var next := Planned(w.phase.targets, PlanFresh(s.db, w.request, w.phase.targets));
    assert views[t := LockView(w.(phase := next))] == views;
    MovedKeeps(start, s, t, next);
  }

  /** Ending at a place of the log with what a serial run reports there. */
  lemma EndedKeeps(start: Db, s: System, t: nat, outcome: Outcome, now: int)
    requires TrafficInv(start, s) && t < |s.workers| && !s.workers[t].phase.Finished?
    requires outcome == Serve(s.db, Event(s.workers[t].request, now))
    requires forall u :: 0 <= u < |s.workers| && u != t && !s.workers[u].phase.Finished? ==>
               WorkerOk(start, Tables(s.db, outcome), s.log, s.workers[u])
    ensures TrafficInv(start, Ended(s, t, outcome, now))
  {
    hide Inv, Serve, LockView, LockViews, P.Inv, RunAll;
    var s' := Ended(s, t, outcome, now);
    var e := Event(s.workers[t].request, now);
    RunAllAppend(start, s.log, e);
    assert s'.log[..|s.log|] == s.log;
    EndedReleases(s, t, outcome, now);
    forall u | 0 <= u < |s'.workers| ensures WorkerOk(start, s'.db, s'.log, s'.workers[u]) {
      if u != t {
        LogGrows(start, Tables(s.db, outcome), s.db, s.log, e, s.workers[u]);
      }
    }
    EndedPlaces(s, t, outcome, now);
  }

  lemma LogGrows(start: Db, after: Db, db: Db, log: seq<Event>, e: Event, w: Worker)
    requires WorkerOk(start, db, log, w) && (!w.phase.Finished? ==> WorkerOk(start, after, log, w))
    ensures WorkerOk(start, after, log + [e], w)
  {
    hide Decide, NewCommand, Serve, RunAll, Targeted, LockPlan, Prepared;
    if w.phase.Finished? {
      assert (log + [e])[..w.phase.place] == log[..w.phase.place];
    }
  }

  lemma EndedReleases(s: System, t: nat, outcome: Outcome, now: int)
    requires P.Inv(LockViews(s.workers)) && t < |s.workers|
    ensures P.Inv(LockViews(Ended(s, t, outcome, now).workers))
  {
    NothingHeld([]);
    ReleasedKeeps(LockViews(s.workers), t, P.Tx([], 0, true));
    ViewMoved(s, t, Finished(Reported(outcome), |s.log|));
  }

  lemma EndedPlaces(s: System, t: nat, outcome: Outcome, now: int)
    requires PlacesOk(s) && t < |s.workers| && !s.workers[t].phase.Finished?
    requires forall u :: 0 <= u < |s.workers| && s.workers[u].phase.Finished? ==> s.workers[u].phase.place < |s.log|
    ensures PlacesOk(Ended(s, t, outcome, now))
  {
    var s' := Ended(s, t, outcome, now);
    assert Placed(s'.workers[t], |s.log|);
    forall i | 0 <= i < |s.log| ensures Taken(s'.workers, i) {
      StaysTaken(s.workers, i, t, s'.workers[t]);
    }
  }

  /** The committed decision is the one a serial run would make at this moment. */
  lemma CommitIsServe(db: Db, r: Request, t: Targets, now: int)
    requires Prepared(db, r, t) && Matching(r, t)
    ensures Commit(db, r, Decide(db, r, t), now) == Exec(db, r, t, now) == Serve(db, Event(r, now))
  {
    DecideFits(db, r, t);
  }

  /** What others decided, or found missing, still stands after a commit. */
  lemma OthersStand(start: Db, s: System, t: nat, u: nat, now: int)
    requires SystemInv(start, s) && t < |s.workers| && u < |s.workers| && t != u
    requires s.workers[t].phase.Planned? && !s.workers[u].phase.Finished?
    requires Targeted(s.workers[t]) && Exec(s.db, s.workers[t].request, s.workers[t].phase.targets, now).Ok?
    ensures WorkerOk(start, Exec(s.db, s.workers[t].request, s.workers[t].phase.targets, now).value.0, s.log, s.workers[u])
  {
    hide Inv, Exec, Decide, NewCommand, Prepare, Footprint, Apart, RunAll, P.Inv, PlacesOk, LockPlan, LockViews, Extends;
    var mine, other := s.workers[t], s.workers[u];
    assert WorkerOk(start, s.db, s.log, mine) && WorkerOk(start, s.db, s.log, other);
    var after := Exec(s.db, mine.request, mine.phase.targets, now).value.0;
    ExecKeeps(s.db, mine.request, mine.phase.targets, now);
    ExecFootprint(s.db, mine.request, mine.phase.targets, now);
    match other.phase
    case Idle =>
    case Acquiring(targets, _) => PreparedStable(s.db, after, other.request, targets);
    case Checked(targets) =>
      HoldersAreApart(s, u, t);
      DecisionFramed(s.db, after, other.request, targets, mine.request, mine.phase.targets);
    case Planned(targets, _) =>
      HoldersAreApart(s, u, t);
      DecisionFramed(s.db, after, other.request, targets, mine.request, mine.phase.targets);
  }

  lemma CommitKeeps(start: Db, s: System, t: nat, now: int)
    requires SystemInv(start, s) && CanStep(s, t) && s.workers[t].phase.Planned?
    ensures SystemInv(start, Advance(s, t, now))
  {
    hide Inv, Exec, Serve, Decide, NewCommand, Prepare, RunAll, P.Inv, PlacesOk, LockPlan, LockViews, Commit;
    var w := s.workers[t];
    assert WorkerOk(start, s.db, s.log, w);
    var targets := w.phase.targets;
    CommitIsServe(s.db, w.request, targets, now);
    var outcome := Exec(s.db, w.request, targets, now);
    if outcome.Ok? {
      ExecKeeps(s.db, w.request, targets, now);
      forall u | 0 <= u < |s.workers| && u != t && !s.workers[u].phase.Finished?
        ensures WorkerOk(start, Tables(s.db, outcome), s.log, s.workers[u])
      {
        OthersStand(start, s, t, u, now);
      }
    }
    EndedKeeps(start, s, t, outcome, now);
  }

  lemma RefusedKeeps(start: Db, s: System, t: nat, now: int)
    requires TrafficInv(start, s) && t < |s.workers| && s.workers[t].phase.Idle? && Prepare(s.db, s.workers[t].request).Err?
    ensures TrafficInv(start, Ended(s, t, Err(Prepare(s.db, s.workers[t].request).error), now))
  {
    hide Inv, RunAll, P.Inv, PlacesOk, WorkerOk;
    EndedKeeps(start, s, t, Err(Prepare(s.db, s.workers[t].request).error), now);
  }

  lemma AdvanceKeeps(start: Db, s: System, t: nat, now: int)
    requires SystemInv(start, s) && CanStep(s, t)
    ensures SystemInv(start, Advance(s, t, now))
  {
    hide TrafficInv, Inv, Prepare, Decide, NewCommand, Commit, PlanFresh;
    match s.workers[t].phase
    case Idle =>
      if Prepare(s.db, s.workers[t].request).Ok? { BeginKeeps(start, s, t); } else { RefusedKeeps(start, s, t, now); }
    case Acquiring(_, _) => AcquireKeeps(start, s, t, now);
    case Checked(_) => PlanKeeps(start, s, t);
    case Planned(_, _) => CommitKeeps(start, s, t, now);
  }

  /** Giving up releases every lock and leaves no trace in the tables. */
  lemma GiveUpKeeps(start: Db, s: System, t: nat)
    requires SystemInv(start, s) && CanGiveUp(s, t)
    ensures SystemInv(start, Moved(s, t, Idle))
  {
    hide Inv, RunAll, WorkersOk, PlacesOk;
    NothingHeld([]);
    ReleasedKeeps(LockViews(s.workers), t, P.Tx([], 0, true));
    MovedKeeps(start, s, t, Idle);
  }

  lemma TakeKeeps(start: Db, s: System, turn: Turn)
    requires SystemInv(start, s) && CanTake(s, turn)
    ensures SystemInv(start, Take(s, turn))
  {
    hide SystemInv, CanStep, CanGiveUp, Advance, Moved;
    match turn
    case Go(t, now) => AdvanceKeeps(start, s, t, now);
    case GiveUp(t) => GiveUpKeeps(start, s, t);
  }

  lemma TakeShape(s: System, turn: Turn)
    requires CanTake(s, turn)
    ensures |Take(s, turn).workers| == |s.workers|
    ensures forall u :: 0 <= u < |s.workers| ==> Take(s, turn).workers[u].request == s.workers[u].request
  {
    hide Prepare, Decide, NewCommand, Commit, PlanFresh, LockPlan;
  }

  lemma {:induction false} ReachedKeeps(start: Db, s: System, turns: seq<Turn>)
    requires SystemInv(start, s) && Runs(s, turns)
    ensures SystemInv(start, Reached(s, turns))
    ensures |Reached(s, turns).workers| == |s.workers|
    ensures forall t :: 0 <= t < |s.workers| ==> Reached(s, turns).workers[t].request == s.workers[t].request
    decreases |turns|
  {
    hide SystemInv, CanTake, Take;
    if turns != [] {
      TakeShape(s, turns[0]);
      TakeKeeps(start, s, turns[0]);
      ReachedKeeps(start, Take(s, turns[0]), turns[1..]);
    }
  }

  // ----- What every interleaving guarantees -----

  /**
   Every interleaving is serial: the tables are those of running the ended requests one after another in the
   order they ended, and each was told exactly what it would have been told there.
   */
  lemma EveryInterleavingIsSerial(start: Db, requests: seq<Request>, turns: seq<Turn>)
    requires Initial(start) && Runs(Open(start, requests), turns)
    ensures var s := Reached(Open(start, requests), turns);
            && s.db == RunAll(start, s.log)
            && |s.workers| == |requests| && PlacesOk(s)
            && forall t :: 0 <= t < |requests| && s.workers[t].phase.Finished? ==>
                 s.workers[t].phase.place < |s.log| && s.log[s.workers[t].phase.place].request == requests[t]
                 && s.workers[t].phase.reported == SerialReport(start, s.log, s.workers[t].phase.place)
  {
    hide Inv, Initial, RunAll, P.Inv, PlacesOk;
    OpenOk(start, requests);
    ReachedKeeps(start, Open(start, requests), turns);
    var s := Reached(Open(start, requests), turns);
    forall t | 0 <= t < |requests| && s.workers[t].phase.Finished?
      ensures s.workers[t].phase.place < |s.log| && s.log[s.workers[t].phase.place].request == requests[t]
      ensures s.workers[t].phase.reported == SerialReport(start, s.log, s.workers[t].phase.place)
    {
      assert WorkerOk(start, s.db, s.log, s.workers[t]);
    }
  }

  /** The transaction has passed an empty replay check and may still write. */
  ghost predicate AboutToWrite(w: Worker) {
    w.phase.Checked? || (w.phase.Planned? && w.phase.decision.Proceed?)
  }

  /**
   Exactly once: from its empty replay check until its commit, no command with a transaction's principal,
   kind and key, or with its subject, is in the tables, whatever the others commit meanwhile.
   */
  lemma NobodyGetsInBetween(start: Db, requests: seq<Request>, turns: seq<Turn>, t: nat)
    requires Initial(start) && Runs(Open(start, requests), turns) && t < |requests|
    requires |Reached(Open(start, requests), turns).workers| == |requests|
    requires AboutToWrite(Reached(Open(start, requests), turns).workers[t])
    ensures forall c :: c in Reached(Open(start, requests), turns).db.commands ==>
              && !(c.principal == requests[t].actor && c.kind == KindOf(requests[t]) && c.key == requests[t].key)
              && (SubjectOf(requests[t]).Some? ==> !(c.kind == KindOf(requests[t]) && c.subject == SubjectOf(requests[t]).value))
  {
    hide Initial, RunAll, P.Inv, PlacesOk;
    OpenOk(start, requests);
    ReachedKeeps(start, Open(start, requests), turns);
    var s := Reached(Open(start, requests), turns);
    assert WorkerOk(start, s.db, s.log, s.workers[t]);
    StillNew(s.db, s.workers[t]);
  }

  lemma StillNew(db: Db, w: Worker)
    requires Inv(db) && AboutToWrite(w)
    requires Targeted(w) && (w.phase.Checked? ==> NewCommand(db, w.request))
    requires w.phase.Planned? ==> w.phase.decision == Decide(db, w.request, w.phase.targets)
    ensures forall c :: c in db.commands ==>
              && !(c.principal == w.request.actor && c.kind == KindOf(w.request) && c.key == w.request.key)
              && (SubjectOf(w.request).Some? ==>
                   !(c.kind == KindOf(w.request) && c.subject == SubjectOf(w.request).value))
  {
    hide Decide, HoldsInv, LotsInv, ProductInv, SettlementInv, WithdrawalsInv, OwnersInv, EffectsInv, Conserved;
    if w.phase.Planned? {
      ProceedsOnlyIfNew(db, w.request, w.phase.targets);
    }
    forall i | 0 <= i < |db.commands|
      ensures !(db.commands[i].principal == w.request.actor && db.commands[i].kind == KindOf(w.request)
                && db.commands[i].key == w.request.key)
      ensures SubjectOf(w.request).Some? ==>
                !(db.commands[i].kind == KindOf(w.request) && db.commands[i].subject == SubjectOf(w.request).value)
    {
      assert CommandOk(db, i);
    }
  }

  lemma ProceedsOnlyIfNew(db: Db, r: Request, t: Targets)
    requires Matching(r, t) && Decide(db, r, t).Proceed?
    ensures NewCommand(db, r)
  {
  }

  /** However checkouts, charges, settlements and withdrawals interleave, each payment is acted on at most once. */
  lemma EachPaymentOnceConcurrently(start: Db, requests: seq<Request>, turns: seq<Turn>, p: nat, external: string, l: nat, l': nat)
    requires Initial(start) && Runs(Open(start, requests), turns)
    ensures PaidAtMostOnce(Reached(Open(start, requests), turns).db, p)
    ensures var db := Reached(Open(start, requests), turns).db;
            MintedFor(db, l, external) && MintedFor(db, l', external) ==> l == l'
  {
    hide PaidAtMostOnce, Initial, RunAll, Inv, MintedFor;
    EveryInterleavingIsSerial(start, requests, turns);
    var s := Reached(Open(start, requests), turns);
    EachPaymentOnce(start, s.log, p);
    if MintedFor(s.db, l, external) && MintedFor(s.db, l', external) {
      EachExternalPaymentMintsOnce(start, s.log, external, l, l');
    }
  }

  // ----- Progress -----

  /** While some request is unfinished, some transaction can go on: no deadlock, and nobody has to give up. */
  lemma SomebodyCanStep(start: Db, requests: seq<Request>, turns: seq<Turn>)
    requires Initial(start) && Runs(Open(start, requests), turns)
    ensures var s := Reached(Open(start, requests), turns);
            (exists t :: 0 <= t < |s.workers| && !s.workers[t].phase.Finished?) <==> exists t: nat :: CanStep(s, t)
  {
    hide Inv, Initial, RunAll, PlacesOk;
    OpenOk(start, requests);
    ReachedKeeps(start, Open(start, requests), turns);
    var s := Reached(Open(start, requests), turns);
    if t: nat :| t < |s.workers| && !s.workers[t].phase.Finished? {
      assert WorkerOk(start, s.db, s.log, s.workers[t]);
      if !s.workers[t].phase.Idle? {
        var u := P.SomebodyMoves(LockViews(s.workers), t);
        assert WorkerOk(start, s.db, s.log, s.workers[u]);
        assert CanStep(s, u);
      } else {
        assert CanStep(s, t);
      }
    }
  }

  /** Steps a transaction has left: begin, at most four locks, check, plan, commit. */
  ghost function StepsLeft(w: Worker): nat {
    match w.phase
    case Idle => 8
    case Acquiring(_, held) => 3 + if Targeted(w) then Max(0, |LockPlan(w)| - held) else 0
    case Checked(_) => 2
    case Planned(_, _) => 1
    case Finished(_, _) => 0
  }

  ghost function Work(workers: seq<Worker>): nat {
    if workers == [] then 0 else StepsLeft(workers[0]) + Work(workers[1..])
  }

  lemma {:induction false} WorkUpdate(workers: seq<Worker>, t: nat, w: Worker)
    requires t < |workers|
    ensures Work(workers[t := w]) == Work(workers) - StepsLeft(workers[t]) + StepsLeft(w)
  {
    if t == 0 {
      assert workers[0 := w][1..] == workers[1..];
    } else {
      assert workers[t := w][1..] == workers[1..][t - 1 := w];
      WorkUpdate(workers[1..], t - 1, w);
    }
  }

  lemma {:induction false} OrderedIsNoLonger(keys: seq<LockKey>)
    ensures |Unique(keys)| <= |keys| && |Sort(keys)| == |keys|
    decreases |keys|
  {
    if keys != [] {
      OrderedIsNoLonger(keys[..|keys| - 1]);
      OrderedIsNoLonger(keys[1..]);
      InsertLength(keys[0], Sort(keys[1..]));
    }
  }

  lemma {:induction false} InsertLength(key: LockKey, sorted: seq<LockKey>)
    ensures |Insert(key, sorted)| == |sorted| + 1
  {
    if sorted != [] && !Before(key, sorted[0]) {
      InsertLength(key, sorted[1..]);
    }
  }

  lemma StepUsesWork(s: System, t: nat, now: int)
    requires CanStep(s, t)
    ensures Work(Advance(s, t, now).workers) < Work(s.workers)
  {
    hide Prepare, Decide, NewCommand, Commit, PlanFresh, OrderedLocks;
    var w := s.workers[t];
    if w.phase.Idle? && Prepare(s.db, w.request).Ok? {
      var targets := Prepare(s.db, w.request).value;
      PreparedMatches(s.db, w.request, targets);
      AtMostFourLocks(w.request, targets);
    }
    WorkUpdate(s.workers, t, Advance(s, t, now).workers[t]);
    assert Advance(s, t, now).workers == s.workers[t := Advance(s, t, now).workers[t]];
  }

  lemma AtMostFourLocks(r: Request, t: Targets)
    requires Matching(r, t)
    ensures |OrderedLocks(LocksOf(r, t))| <= 4
  {
    OrderedIsNoLonger(LocksOf(r, t));
    OrderedIsNoLonger(Unique(LocksOf(r, t)));
  }

  /** How often somebody gave up; each time, the request may start over. */
  function GiveUps(turns: seq<Turn>): nat {
    if turns == [] then 0 else (if turns[0].GiveUp? then 1 else 0) + GiveUps(turns[1..])
  }

  lemma TurnUsesWork(s: System, turn: Turn)
    requires CanTake(s, turn)
    ensures Work(Take(s, turn).workers) + 1 <= Work(s.workers) + if turn.GiveUp? then 8 else 0
  {
    hide Prepare, Advance, CanStep, LockPlan;
    match turn
    case Go(t, now) => StepUsesWork(s, t, now);
    case GiveUp(t) => WorkUpdate(s.workers, t, s.workers[t].(phase := Idle));
  }

  lemma {:induction false} WorkBounds(s: System, turns: seq<Turn>)
    requires Runs(s, turns)
    ensures Work(Reached(s, turns).workers) + |turns| <= Work(s.workers) + 8 * GiveUps(turns)
    decreases |turns|
  {
    hide CanTake, Take;
    if turns != [] {
      TurnUsesWork(s, turns[0]);
      WorkBounds(Take(s, turns[0]), turns[1..]);
    }
  }

  lemma {:induction false} OpenWork(workers: seq<Worker>)
    requires forall t :: 0 <= t < |workers| ==> workers[t].phase == Idle
    ensures Work(workers) == 8 * |workers|
  {
    if workers != [] {
      OpenWork(workers[1..]);
    }
  }

  /**
   No schedule is longer than eight steps an attempt, and one in which nobody can go on has served everybody,
   however often requests gave up and were sent again.
   */
  lemma EverybodyIsServed(start: Db, requests: seq<Request>, turns: seq<Turn>)
    requires Initial(start) && Runs(Open(start, requests), turns)
    ensures |turns| <= 8 * (|requests| + GiveUps(turns))
    ensures var s := Reached(Open(start, requests), turns);
            (forall t: nat :: !CanStep(s, t)) ==>
              forall t :: 0 <= t < |s.workers| ==> s.workers[t].phase.Finished?
  {
    hide Initial, SystemInv;
    WorkBounds(Open(start, requests), turns);
    OpenWork(Open(start, requests).workers);
    SomebodyCanStep(start, requests, turns);
  }
}
