/** Transactions acquiring their ordered keys one by one: no deadlock, no cycle, bounded schedules. */
module LockProtocol {
  import opened Prelude
  import opened Locks

  // A transaction blocks on keys others hold and releases everything when it ends.

  /** A transaction has acquired the first `held` keys of its plan; `done` means ended and released. */
  datatype Tx = Tx(plan: seq<LockKey>, held: nat, done: bool)

  type System = seq<Tx>

  ghost predicate Started(tx: Tx) {
    tx.held <= |tx.plan| && Ascending(tx.plan)
  }

  predicate Holds(tx: Tx, key: LockKey) {
    !tx.done && tx.held <= |tx.plan| && key in tx.plan[..tx.held]
  }

  predicate Wants(tx: Tx) {
    !tx.done && tx.held < |tx.plan|
  }

  predicate Free(s: System, t: nat, key: LockKey) {
    forall u :: 0 <= u < |s| && u != t ==> !Holds(s[u], key)
  }

  /** It can take its next key, or it holds them all and can run its body and end. */
  predicate Enabled(s: System, t: nat) {
    t < |s| && !s[t].done && s[t].held <= |s[t].plan| && (s[t].held < |s[t].plan| ==> Free(s, t, s[t].plan[s[t].held]))
  }

  function Step(s: System, t: nat): System
    requires Enabled(s, t)
  {
    if s[t].held < |s[t].plan| then s[t := s[t].(held := s[t].held + 1)] else s[t := s[t].(done := true)]
  }

  ghost predicate Exclusive(s: System) {
    forall t, u, key :: 0 <= t < u < |s| ==> !(Holds(s[t], key) && Holds(s[u], key))
  }

  ghost predicate Inv(s: System) {
    (forall t :: 0 <= t < |s| ==> Started(s[t])) && Exclusive(s)
  }

  function Begin(requests: seq<seq<LockKey>>): (s: System)
    ensures |s| == |requests|
  {
    seq(|requests|, i requires 0 <= i < |requests| => Tx(OrderedLocks(requests[i]), 0, false))
  }

  lemma BeginOk(requests: seq<seq<LockKey>>)
    ensures Inv(Begin(requests))
  {
    forall t | 0 <= t < |requests| ensures Started(Begin(requests)[t]) {
      OrderedLocksAscend(requests[t]);
    }
  }

  /** Mutual exclusion: a key is never held by two transactions. */
  lemma StepKeeps(s: System, t: nat)
    requires Inv(s) && Enabled(s, t)
    ensures Inv(Step(s, t))
  {
    var s' := Step(s, t);
    forall u, key | 0 <= u < |s| && u != t ensures !(Holds(s'[t], key) && Holds(s[u], key)) {
      if s[t].held < |s[t].plan| {
        var next := s[t].plan[s[t].held];
        assert s'[t].plan[..s'[t].held] == s[t].plan[..s[t].held] + [next];
        assert !Holds(s[u], next);
        if Holds(s[t], key) {
          assert !(Holds(s[t], key) && Holds(s[u], key)) by { ExclusivePair(s, t, u, key); }
        }
      }
    }
  }

  lemma ExclusivePair(s: System, t: nat, u: nat, key: LockKey)
    requires Exclusive(s) && t < |s| && u < |s| && t != u
    ensures !(Holds(s[t], key) && Holds(s[u], key))
  {
    var a, b := if t < u then t else u, if t < u then u else t;
    assert !(Holds(s[a], key) && Holds(s[b], key));
  }

  // ----- Waiting -----

  function Next(tx: Tx): LockKey
    requires Wants(tx)
  {
    tx.plan[tx.held]
  }

  ghost predicate WaitsFor(s: System, t: nat, u: nat) {
    t < |s| && u < |s| && t != u && Wants(s[t]) && Holds(s[u], Next(s[t]))
  }

  /** Whoever is waited for wants, if anything, a strictly later key. */
  lemma WaitingAscends(s: System, t: nat, u: nat)
    requires Inv(s) && WaitsFor(s, t, u) && Wants(s[u])
    ensures Before(Next(s[t]), Next(s[u]))
  {
    var i :| 0 <= i < s[u].held && s[u].plan[..s[u].held][i] == Next(s[t]);
    assert s[u].plan[i] == Next(s[t]);
  }

  ghost predicate WaitPath(s: System, path: seq<nat>) {
    |path| >= 2 && forall i :: 0 <= i < |path| - 1 ==> WaitsFor(s, path[i], path[i + 1])
  }

  lemma {:induction false} PathAscends(s: System, path: seq<nat>, k: nat)
    requires Inv(s) && WaitPath(s, path) && 1 <= k < |path| && path[k] < |s| && Wants(s[path[k]])
    ensures path[0] < |s| && Wants(s[path[0]])
    ensures Before(Next(s[path[0]]), Next(s[path[k]]))
  {
    WaitsAt(s, path, k - 1);
    WaitingAscends(s, path[k - 1], path[k]);
    if k > 1 {
      PathAscends(s, path, k - 1);
    }
  }

  lemma WaitsAt(s: System, path: seq<nat>, i: nat)
    requires WaitPath(s, path) && i < |path| - 1
    ensures WaitsFor(s, path[i], path[i + 1])
  {
  }

  /** No wait-for cycle. */
  lemma NoWaitCycle(s: System, path: seq<nat>)
    requires Inv(s) && WaitPath(s, path)
    ensures path[0] != path[|path| - 1]
  {
    if path[0] == path[|path| - 1] {
      WaitsAt(s, path, 0);
      PathAscends(s, path, |path| - 1);
    }
  }

  // ----- Progress -----

  ghost function KeysAbove(s: System, key: LockKey): set<LockKey> {
    set t: nat, k: nat | t < |s| && k < |s[t].plan| && Before(key, s[t].plan[k]) :: s[t].plan[k]
  }

  /** Follow the waits upward until somebody can move. */
  lemma {:induction false} SomebodyMoves(s: System, t: nat) returns (u: nat)
    requires Inv(s) && t < |s| && !s[t].done
    ensures Enabled(s, u)
    decreases if Wants(s[t]) then 1 else 0, if Wants(s[t]) then KeysAbove(s, Next(s[t])) else {}
  {
    assert Started(s[t]);
    if Enabled(s, t) {
      return t;
    }
    var next := Next(s[t]);
    var h :| 0 <= h < |s| && h != t && Holds(s[h], next);
    if Wants(s[h]) {
      WaitingAscends(s, t, h);
      assert Next(s[h]) in KeysAbove(s, next) && Next(s[h]) !in KeysAbove(s, Next(s[h]));
      assert KeysAbove(s, Next(s[h])) <= KeysAbove(s, next);
    }
    u := SomebodyMoves(s, h);
  }

  /** Deadlock freedom: while some transaction is unfinished, some transaction can step. */
  lemma DeadlockFree(s: System)
    requires Inv(s)
    ensures (exists t: nat :: t < |s| && !s[t].done) <==> exists t: nat :: Enabled(s, t)
  {
    if t: nat :| t < |s| && !s[t].done {
      var u := SomebodyMoves(s, t);
    }
  }

  // ----- Every schedule is bounded -----

  function StepsLeft(tx: Tx): nat {
    if tx.done then 0 else 1 + Max(0, |tx.plan| - tx.held)
  }

  function Measure(s: System): nat {
    if s == [] then 0 else StepsLeft(s[0]) + Measure(s[1..])
  }

  lemma {:induction false} MeasureUpdate(s: System, t: nat, tx: Tx)
    requires t < |s|
    ensures Measure(s[t := tx]) == Measure(s) - StepsLeft(s[t]) + StepsLeft(tx)
  {
    if t == 0 {
      assert s[0 := tx][1..] == s[1..];
    } else {
      assert s[t := tx][1..] == s[1..][t - 1 := tx];
      MeasureUpdate(s[1..], t - 1, tx);
    }
  }

  ghost predicate Schedule(s: System, steps: seq<nat>)
    decreases |steps|
  {
    steps == [] || (Enabled(s, steps[0]) && Schedule(Step(s, steps[0]), steps[1..]))
  }

  function RunSchedule(s: System, steps: seq<nat>): System
    requires Schedule(s, steps)
    decreases |steps|
  {
    if steps == [] then s else RunSchedule(Step(s, steps[0]), steps[1..])
  }

  lemma StepMeasures(s: System, t: nat)
    requires Inv(s) && Enabled(s, t)
    ensures Measure(Step(s, t)) == Measure(s) - 1
  {
    hide Exclusive, Measure;
    MeasureUpdate(s, t, if s[t].held < |s[t].plan| then s[t].(held := s[t].held + 1) else s[t].(done := true));
  }

  /** A schedule uses up one unit of the measure per step, so none is longer than the initial measure. */
  lemma {:induction false} ScheduleBounded(s: System, steps: seq<nat>)
    requires Inv(s) && Schedule(s, steps)
    ensures Inv(RunSchedule(s, steps))
    ensures Measure(RunSchedule(s, steps)) + |steps| == Measure(s)
    decreases |steps|
  {
    hide Inv, Measure, Step, Enabled;
    if steps != [] {
      StepKeeps(s, steps[0]);
      StepMeasures(s, steps[0]);
      ScheduleBounded(Step(s, steps[0]), steps[1..]);
    }
  }

  /** A schedule that cannot be extended has finished every transaction. */
  lemma MaximalScheduleFinishes(requests: seq<seq<LockKey>>, steps: seq<nat>)
    requires Schedule(Begin(requests), steps)
    ensures |steps| <= Measure(Begin(requests))
    ensures |RunSchedule(Begin(requests), steps)| == |requests|
    ensures (forall t: nat :: !Enabled(RunSchedule(Begin(requests), steps), t)) ==>
              forall t :: 0 <= t < |requests| ==> RunSchedule(Begin(requests), steps)[t].done
  {
    BeginOk(requests);
    ScheduleBounded(Begin(requests), steps);
    RunKeepsSize(Begin(requests), steps);
    DeadlockFree(RunSchedule(Begin(requests), steps));
  }

  lemma {:induction false} RunKeepsSize(s: System, steps: seq<nat>)
    requires Schedule(s, steps)
    ensures |RunSchedule(s, steps)| == |s|
    decreases |steps|
  {
    if steps != [] {
      RunKeepsSize(Step(s, steps[0]), steps[1..]);
    }
  }

  /** Without the global order two opposing transfers do deadlock: the sort is what prevents it. */
  lemma UnorderedAcquisitionDeadlocks()
    ensures var a, b := PointBalanceLock(1), PointBalanceLock(2);
            var s := [Tx([a, b], 1, false), Tx([b, a], 1, false)];
            && (forall t: nat :: !Enabled(s, t))
            && Schedule([Tx([a, b], 0, false), Tx([b, a], 0, false)], [0, 1])
            && RunSchedule([Tx([a, b], 0, false), Tx([b, a], 0, false)], [0, 1]) == s
  {
    var a, b := PointBalanceLock(1), PointBalanceLock(2);
    var s0 := [Tx([a, b], 0, false), Tx([b, a], 0, false)];
    var s1 := [Tx([a, b], 1, false), Tx([b, a], 0, false)];
    var s := [Tx([a, b], 1, false), Tx([b, a], 1, false)];
    assert Step(s0, 0) == s1 && Step(s1, 1) == s;
    assert [0 as nat, 1][1..] == [1 as nat] && [1 as nat][1..] == [];
    assert [a, b][..1] == [a] && [b, a][..1] == [b];
    assert Schedule(s1, [1]) && RunSchedule(s1, [1]) == s by {
      assert Schedule(s, []);
    }
    forall t: nat ensures !Enabled(s, t) {
      if t == 0 {
        assert Holds(s[1], b);
      } else if t == 1 {
        assert Holds(s[0], a);
      }
    }
  }

  // ----- Non-blocking acquisition -----

  /** The advisory locks as the database holds them: each key's owner. */
  class LockTable {
    var owner: map<LockKey, nat>

    constructor ()
      ensures owner == map[]
    {
      owner := map[];
    }

    /** `pg_try_advisory_xact_lock`: re-entrant for its owner. */
    method TryLock(tx: nat, key: LockKey) returns (locked: bool)
      modifies this
      ensures locked <==> (key in old(owner) ==> old(owner)[key] == tx)
      ensures owner == if locked then old(owner)[key := tx] else old(owner)
    {
      locked := key !in owner || owner[key] == tx;
      if locked {
        owner := owner[key := tx];
      }
    }

    /** `tryAcquire`: all keys in order, or stop at the first one somebody else holds. */
    method TryAcquire(tx: nat, keys: seq<LockKey>) returns (acquired: bool)
      modifies this
      ensures acquired <==> forall k :: k in keys && k in old(owner) ==> old(owner)[k] == tx
      ensures acquired ==> forall k :: k in keys ==> k in owner && owner[k] == tx
      ensures forall k :: k in old(owner) ==> k in owner && owner[k] == old(owner)[k]
      ensures forall k :: k in owner && k !in old(owner) ==> owner[k] == tx && k in keys
    {
      var ordered := OrderLocks(keys);
      var i := 0;
      while i < |ordered|
        invariant 0 <= i <= |ordered|
        invariant forall k :: k in ordered[..i] ==> k in owner && owner[k] == tx
        invariant forall k :: k in ordered[..i] && k in old(owner) ==> old(owner)[k] == tx
        invariant forall k :: k in old(owner) ==> k in owner && owner[k] == old(owner)[k]
        invariant forall k :: k in owner && k !in old(owner) ==> owner[k] == tx && k in ordered[..i]
      {
        var locked := TryLock(tx, ordered[i]);
        if !locked {
          assert ordered[i] in old(owner) && old(owner)[ordered[i]] != tx && ordered[i] in keys;
          return false;
        }
        i := i + 1;
      }
      return true;
    }
  }
}
