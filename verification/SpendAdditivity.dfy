/** Spending a and then b leaves the same charges and balance as spending a + b. */
module SpendAdditivity {
  import opened Prelude
  import opened Waterfall
  import opened FifoOrder
  import opened PointCore
  import opened SpendLaws
  import opened PointLedger
  import opened PointInvariant
  import opened FifoOptimality

  /** The spend use-case run alone: read, decide, execute. */
  function SpendNow(ledger: Ledger, user: nat, reason: Reason, amount: int, preferFree: bool): Result<Ledger, PointError> {
    match SpendDecision(BalanceOf(ledger.balances, user), LoadCharges(ledger.charges, user), amount, preferFree)
    case Err(e) => Err(e)
    case Ok(plan) => ApplySpend(ledger, user, reason, plan)
  }

  // ----- The rows after the guarded loop, one by one -----

  /** A consumed row: the remainder went down; the state follows it. */
  function Drawn(row: ChargeRow, paid: int, free: int): ChargeRow {
    row.(unspentPaid := row.unspentPaid - paid, unspentFree := row.unspentFree - free,
         state := if row.state == USABLE && row.unspentPaid + row.unspentFree == paid + free
                  then CONSUMED else row.state)
  }

  ghost predicate FreshParts(rows: seq<ChargeRow>, allocations: seq<SpendAllocation>) {
    && (forall j :: 0 <= j < |allocations| ==>
         PartOk(allocations[j])
         && GuardHolds(rows, allocations[j].chargeId, allocations[j].assumedPaid, allocations[j].assumedFree))
    && DistinctParts(allocations)
  }

  /** A plan executed on the world it was made for never misses, and draws its parts from each row. */
  lemma {:induction false} FreshConsume(rows: seq<ChargeRow>, allocations: seq<SpendAllocation>, i: nat)
    requires RowsOk(rows) && FreshParts(rows, allocations) && i < |rows|
    ensures var r := ConsumeAll(rows, allocations);
            && r.Some? && |r.value| == |rows|
            && r.value[i] == Drawn(rows[i], Taken(allocations, i, Paid), Taken(allocations, i, Free))
    decreases |allocations|
  {
    if allocations != [] {
      var a := allocations[0];
      var next := rows[a.chargeId := Consume(rows[a.chargeId], a)];
      assert FreshParts(next, allocations[1..]) by {
        forall j | 0 <= j < |allocations[1..]|
          ensures GuardHolds(next, allocations[1..][j].chargeId, allocations[1..][j].assumedPaid, allocations[1..][j].assumedFree)
        {
          assert allocations[1..][j] == allocations[j + 1];
        }
      }
      FreshConsume(next, allocations[1..], i);
      if a.chargeId == i {
        NotTakenTwice(allocations, i);
      }
    }
  }

  lemma NotTakenTwice(allocations: seq<SpendAllocation>, id: nat)
    requires allocations != [] && allocations[0].chargeId == id
    requires DistinctParts(allocations)
    ensures Taken(allocations[1..], id, Paid) == 0 && Taken(allocations[1..], id, Free) == 0
  {
    AbsentNotTaken(allocations[1..], id);
  }

  lemma {:induction false} AbsentNotTaken(allocations: seq<SpendAllocation>, id: nat)
    requires forall i :: 0 <= i < |allocations| ==> allocations[i].chargeId != id
    ensures Taken(allocations, id, Paid) == 0 && Taken(allocations, id, Free) == 0
  {
    if allocations != [] {
      AbsentNotTaken(allocations[1..], id);
    }
  }

  /** A spend that runs alone commits exactly when the amount is positive and covered. */
  lemma SpendNowCommits(ledger: Ledger, user: nat, reason: Reason, amount: int, preferFree: bool)
    requires Inv(ledger)
    ensures SpendNow(ledger, user, reason, amount, preferFree).Ok?
            <==> 0 < amount <= BalanceOf(ledger.balances, user).total
  {
    LoadedCharges(ledger.charges, user);
    LoadedSum(ledger.charges, user);
    var charges := LoadCharges(ledger.charges, user);
    var snapshot := BalanceOf(ledger.balances, user);
    SpendSucceedsIffCovered(snapshot, charges, amount, preferFree);
    if 0 < amount <= snapshot.total {
      DecidedIsFresh(ledger, user, amount, preferFree);
      var plan := SpendDecision(snapshot, charges, amount, preferFree).value;
      SpendClosedForm(snapshot, charges, amount, preferFree);
      FreshConsume(ledger.charges, plan.allocations, 0);
    }
  }

  lemma DecidedIsFresh(ledger: Ledger, user: nat, amount: int, preferFree: bool)
    requires Inv(ledger) && 0 < amount <= BalanceOf(ledger.balances, user).total
    ensures var r := SpendDecision(BalanceOf(ledger.balances, user), LoadCharges(ledger.charges, user), amount, preferFree);
            r.Ok? && FreshParts(ledger.charges, r.value.allocations)
  {
    var rows, charges := ledger.charges, LoadCharges(ledger.charges, user);
    LoadedCharges(rows, user);
    LoadedSum(rows, user);
    SpendClosedForm(BalanceOf(ledger.balances, user), charges, amount, preferFree);
    var plan := SpendDecision(BalanceOf(ledger.balances, user), charges, amount, preferFree).value;
    var paid, free := Pour(Caps(charges, Paid), plan.paidUsage), Pour(Caps(charges, Free), plan.freeUsage);
    PourFeasible(Caps(charges, Paid), plan.paidUsage);
    PourFeasible(Caps(charges, Free), plan.freeUsage);
    PartsDistinct(charges, paid, free);
    forall j | 0 <= j < |plan.allocations|
      ensures PartOk(plan.allocations[j])
      ensures GuardHolds(rows, plan.allocations[j].chargeId, plan.allocations[j].assumedPaid, plan.allocations[j].assumedFree)
    {
      PartsOk(charges, paid, free, j);
    }
  }

  /** The row left by a spend that runs alone. */
  lemma SpendNowRow(ledger: Ledger, user: nat, reason: Reason, amount: int, preferFree: bool, i: nat)
    requires Inv(ledger) && 0 < amount <= BalanceOf(ledger.balances, user).total && i < |ledger.charges|
    ensures var r := SpendNow(ledger, user, reason, amount, preferFree);
            var plan := SpendDecision(BalanceOf(ledger.balances, user), LoadCharges(ledger.charges, user), amount, preferFree);
            && r.Ok? && plan.Ok? && |r.value.charges| == |ledger.charges|
            && r.value.charges[i] == Drawn(ledger.charges[i], Taken(plan.value.allocations, i, Paid),
                                           Taken(plan.value.allocations, i, Free))
  {
    SpendNowCommits(ledger, user, reason, amount, preferFree);
    DecidedIsFresh(ledger, user, amount, preferFree);
    var plan := SpendDecision(BalanceOf(ledger.balances, user), LoadCharges(ledger.charges, user), amount, preferFree).value;
    FreshConsume(ledger.charges, plan.allocations, i);
  }

  // ----- The second load sees the same order without the emptied charges -----

  ghost function StillUsable(rows: seq<ChargeRow>, user: nat): set<nat> {
    set i: nat | i < |rows| && UsableBy(rows[i], user)
  }

  ghost predicate OnlyEmptied(before: seq<ChargeRow>, after: seq<ChargeRow>, user: nat) {
    |before| == |after|
    && forall i :: 0 <= i < |before| ==>
         after[i].user == before[i].user && after[i].chargedAt == before[i].chargedAt
         && (UsableBy(after[i], user) ==> UsableBy(before[i], user))
  }

  lemma {:induction false} UsableKeysKept(before: seq<ChargeRow>, after: seq<ChargeRow>, user: nat, n: nat)
    requires OnlyEmptied(before, after, user) && n <= |before|
    ensures UsableKeys(after, user, n) == Keep(UsableKeys(before, user, n), StillUsable(after, user))
  {
    if n > 0 {
      UsableKeysKept(before, after, user, n - 1);
      var last := if UsableBy(before[n - 1], user) then [Key(before[n - 1].chargedAt, n - 1)] else [];
      assert Keep(last, StillUsable(after, user))
          == if UsableBy(after[n - 1], user) then [Key(after[n - 1].chargedAt, n - 1)] else [];
      KeepAppend(UsableKeys(before, user, n - 1), last, StillUsable(after, user));
    }
  }

  lemma {:induction false} KeepAppend(a: seq<Key>, b: seq<Key>, ids: set<nat>)
    ensures Keep(a + b, ids) == Keep(a, ids) + Keep(b, ids)
  {
    if a == [] {
      assert a + b == b;
    } else {
      assert (a + b)[1..] == a[1..] + b;
      KeepAppend(a[1..], b, ids);
    }
  }

  lemma FifoKeysKept(before: seq<ChargeRow>, after: seq<ChargeRow>, user: nat)
    requires OnlyEmptied(before, after, user)
    ensures FifoKeys(after, user) == Keep(FifoKeys(before, user), StillUsable(after, user))
  {
    UsableKeysKept(before, after, user, |before|);
    UsableKeysDistinct(before, user, |before|);
    OrderKeep(UsableKeys(before, user, |before|), StillUsable(after, user));
  }

  lemma PourOne(charges: seq<ChargeBalance>, paid: int, free: int)
    requires charges != [] && Sound(charges) && paid >= 0 && free >= 0
    ensures var p, f := Min(paid, charges[0].unspentPaid), Min(free, charges[0].unspentFree);
            var rest := PourCharges(charges[1..], paid - p, free - f);
            && 0 <= p <= paid && 0 <= f <= free && p <= charges[0].unspentPaid && f <= charges[0].unspentFree
            && PourCharges(charges, paid, free)
               == if p + f == 0 then rest else rest.(allocations := [Allocate(charges[0], p, f)] + rest.allocations)
  {
    if paid == 0 && free == 0 {
      assert PourCharges(charges[1..], 0, 0) == Poured([], 0, 0);
    }
  }

  lemma NothingToKeep(keys: seq<Key>, ids: set<nat>)
    ensures keys == [] ==> Keep(keys, ids) == keys
  {
  }

  ghost predicate EmptyOutside(rows: seq<ChargeRow>, keys: seq<Key>, ids: set<nat>) {
    && Sound(ChargesAt(rows, keys)) && Sound(ChargesAt(rows, Keep(keys, ids)))
    && forall i :: 0 <= i < |keys| && keys[i].id !in ids ==> ChargeAt(rows, keys[i].id) == ChargeBalance(keys[i].id, 0, 0)
  }

  /** The two lists, with and without the emptied charges, one key at a time. */
  lemma KeptOne(rows: seq<ChargeRow>, keys: seq<Key>, ids: set<nat>)
    requires keys != [] && EmptyOutside(rows, keys, ids)
    ensures EmptyOutside(rows, keys[1..], ids)
    ensures Sound(ChargesAt(rows, keys)) && Sound(ChargesAt(rows, Keep(keys, ids)))
    ensures var all, kept := ChargesAt(rows, keys), ChargesAt(rows, Keep(keys, ids));
            && all != [] && all[1..] == ChargesAt(rows, keys[1..])
            && if keys[0].id in ids
               then kept != [] && kept[0] == all[0] && kept[1..] == ChargesAt(rows, Keep(keys[1..], ids))
               else all[0].unspentPaid == 0 && all[0].unspentFree == 0 && kept == ChargesAt(rows, Keep(keys[1..], ids))
  {
    var all, kept := ChargesAt(rows, keys), ChargesAt(rows, Keep(keys, ids));
    assert all[1..] == ChargesAt(rows, keys[1..]);
    if keys[0].id in ids {
      assert kept[1..] == ChargesAt(rows, Keep(keys[1..], ids));
    }
  }

  /** Emptied charges contribute nothing, so leaving them in the list changes no plan. */
  lemma {:induction false} SkipEmptied(rows: seq<ChargeRow>, keys: seq<Key>, ids: set<nat>, paid: int, free: int)
    requires EmptyOutside(rows, keys, ids) && paid >= 0 && free >= 0
    ensures PourCharges(ChargesAt(rows, Keep(keys, ids)), paid, free) == PourCharges(ChargesAt(rows, keys), paid, free)
  {
    hide *;
    if keys == [] {
      NothingToKeep(keys, ids);
    } else {
      KeptOne(rows, keys, ids);
      var all, kept := ChargesAt(rows, keys), ChargesAt(rows, Keep(keys, ids));
      PourOne(all, paid, free);
      if keys[0].id in ids {
        PourOne(kept, paid, free);
      }
      SkipEmptied(rows, keys[1..], ids, paid - Min(paid, all[0].unspentPaid), free - Min(free, all[0].unspentFree));
    }
  }

  /** The usages of the two spends add up, under either policy. */
  lemma UsageAdds(before: Snapshot, a: int, b: int, preferFree: bool)
    requires a > 0 && b > 0 && before.paid >= 0 && before.free >= 0
    requires before.total == before.paid + before.free && a + b <= before.total
    ensures var p := PaidUsage(before, a, preferFree);
            var mid := Snapshot(before.paid - p, before.free - (a - p), before.total - a);
            PaidUsage(before, a + b, preferFree) == p + PaidUsage(mid, b, preferFree)
  {
  }

  // ----- Putting the two spends together -----

  lemma DrawnTwice(row: ChargeRow, p1: int, f1: int, p2: int, f2: int)
    requires RowOk(row) && p1 >= 0 && f1 >= 0 && p2 >= 0 && f2 >= 0
    requires p1 + p2 <= row.unspentPaid && f1 + f2 <= row.unspentFree
    ensures Drawn(Drawn(row, p1, f1), p2, f2) == Drawn(row, p1 + p2, f1 + f2)
  {
  }

  /** A spend takes nothing from rows it did not load. */
  lemma NothingElsewhere(ledger: Ledger, user: nat, amount: int, preferFree: bool, i: nat)
    requires Inv(ledger) && 0 < amount <= BalanceOf(ledger.balances, user).total
    requires i < |ledger.charges| && !UsableBy(ledger.charges[i], user)
    ensures var r := SpendDecision(BalanceOf(ledger.balances, user), LoadCharges(ledger.charges, user), amount, preferFree);
            r.Ok? && Taken(r.value.allocations, i, Paid) == 0 && Taken(r.value.allocations, i, Free) == 0
  {
    NoDrift(ledger, user);
    DecidedIsFresh(ledger, user, amount, preferFree);
    DecidedSpendOk(ledger.charges, user, BalanceOf(ledger.balances, user), amount, preferFree);
    var r := SpendDecision(BalanceOf(ledger.balances, user), LoadCharges(ledger.charges, user), amount, preferFree);
    AbsentNotTaken(r.value.allocations, i);
  }

  /** What a spend takes from the k-th charge of the loaded order. */
  lemma TakenAt(ledger: Ledger, user: nat, amount: int, preferFree: bool, k: nat, kind: Kind)
    requires Inv(ledger) && 0 < amount <= BalanceOf(ledger.balances, user).total
    requires k < |FifoKeys(ledger.charges, user)|
    ensures var r := SpendDecision(BalanceOf(ledger.balances, user), LoadCharges(ledger.charges, user), amount, preferFree);
            && r.Ok? && Usage(r.value, kind) >= 0
            && Usage(r.value, kind) == (if kind == Paid then PaidUsage(BalanceOf(ledger.balances, user), amount, preferFree)
                                        else amount - PaidUsage(BalanceOf(ledger.balances, user), amount, preferFree))
            && Taken(r.value.allocations, FifoKeys(ledger.charges, user)[k].id, kind)
               == Pour(Caps(LoadCharges(ledger.charges, user), kind), Usage(r.value, kind))[k]
  {
    TakenIsPour(ledger, user, amount, preferFree, kind);
    var r := SpendDecision(BalanceOf(ledger.balances, user), LoadCharges(ledger.charges, user), amount, preferFree);
    assert TakenPerKey(r.value, FifoKeys(ledger.charges, user), kind)[k]
        == Taken(r.value.allocations, FifoKeys(ledger.charges, user)[k].id, kind);
  }

  lemma SpendNowKeeps(ledger: Ledger, user: nat, reason: Reason, amount: int, preferFree: bool)
    requires Inv(ledger) && SpendNow(ledger, user, reason, amount, preferFree).Ok?
    ensures var after := SpendNow(ledger, user, reason, amount, preferFree).value;
            Inv(after) && |after.charges| == |ledger.charges|
  {
    NoDrift(ledger, user);
    DecidedSpendOk(ledger.charges, user, BalanceOf(ledger.balances, user), amount, preferFree);
    var plan := SpendDecision(BalanceOf(ledger.balances, user), LoadCharges(ledger.charges, user), amount, preferFree).value;
    ConsumeAllKeeps(ledger.charges, user, plan.allocations);
    SpendKeeps(ledger, user, reason, plan);
  }

  /** The first spend of a pair, its result and the world the second one loads. */
  ghost predicate SpendPair(ledger: Ledger, mid: Ledger, user: nat, reason: Reason, a: int, b: int, preferFree: bool) {
    && Inv(ledger) && Inv(mid) && a > 0 && b > 0 && a + b <= BalanceOf(ledger.balances, user).total
    && SpendNow(ledger, user, reason, a, preferFree) == Ok(mid)
  }

  lemma PairFacts(ledger: Ledger, mid: Ledger, user: nat, reason: Reason, a: int, b: int, preferFree: bool)
    requires SpendPair(ledger, mid, user, reason, a, b, preferFree)
    ensures OnlyEmptied(ledger.charges, mid.charges, user)
    ensures var p := PaidUsage(BalanceOf(ledger.balances, user), a, preferFree);
            var before := BalanceOf(ledger.balances, user);
            BalanceOf(mid.balances, user) == Snapshot(before.paid - p, before.free - (a - p), before.total - a)
    ensures user in ledger.balances && mid.balances == ledger.balances[user := BalanceOf(mid.balances, user)]
  {
    forall i | 0 <= i < |ledger.charges|
      ensures |mid.charges| == |ledger.charges|
      ensures mid.charges[i].user == ledger.charges[i].user && mid.charges[i].chargedAt == ledger.charges[i].chargedAt
      ensures UsableBy(mid.charges[i], user) ==> UsableBy(ledger.charges[i], user)
    {
      SpendNowRow(ledger, user, reason, a, preferFree, i);
    }
    SpendNowKeeps(ledger, user, reason, a, preferFree);
  }

  // ----- The two loads, seen as waterfalls over one list -----

  /** `mid` is `rows` after p paid and f free points were poured over the user's charges. */
  ghost predicate PouredOver(rows: seq<ChargeRow>, mid: seq<ChargeRow>, user: nat, p: int, f: int) {
    && RowsOk(rows) && RowsOk(mid) && OnlyEmptied(rows, mid, user) && p >= 0 && f >= 0
    && var charges, after := LoadCharges(rows, user), ChargesAt(mid, FifoKeys(rows, user));
       && Sound(after)
       && Caps(after, Paid) == Remainders(Caps(charges, Paid), Pour(Caps(charges, Paid), p))
       && Caps(after, Free) == Remainders(Caps(charges, Free), Pour(Caps(charges, Free), f))
  }

  lemma PouredTakes(charges: seq<ChargeBalance>, paid: int, free: int, k: nat)
    requires Sound(charges) && DistinctCharges(charges) && paid >= 0 && free >= 0 && k < |charges|
    ensures var allocations := PourCharges(charges, paid, free).allocations;
            && Taken(allocations, charges[k].id, Paid) == Pour(Caps(charges, Paid), paid)[k]
            && Taken(allocations, charges[k].id, Free) == Pour(Caps(charges, Free), free)[k]
  {
    PourChargesIsTwoWaterfalls(charges, paid, free);
    PourFeasible(Caps(charges, Paid), paid);
    PourFeasible(Caps(charges, Free), free);
    TakenOfPart(charges, Pour(Caps(charges, Paid), paid), Pour(Caps(charges, Free), free), k);
  }

  /** The second load plans as if the emptied charges were still listed. */
  lemma SecondLoad(rows: seq<ChargeRow>, mid: seq<ChargeRow>, user: nat, p: int, f: int, q: int, g: int)
    requires PouredOver(rows, mid, user, p, f) && q >= 0 && g >= 0
    ensures PourCharges(LoadCharges(mid, user), q, g) == PourCharges(ChargesAt(mid, FifoKeys(rows, user)), q, g)
  {
    var keys := FifoKeys(rows, user);
    var ids := StillUsable(mid, user);
    FifoKeysKept(rows, mid, user);
    FifoKeysAre(rows, user);
    forall i | 0 <= i < |keys| && keys[i].id !in ids
      ensures ChargeAt(mid, keys[i].id) == ChargeBalance(keys[i].id, 0, 0)
    {
      assert keys[i] in keys;
      assert RowOk(mid[keys[i].id]) && ChargesAt(mid, keys)[i] == ChargeAt(mid, keys[i].id);
      SameUserAt(rows, mid, user, keys[i].id);
    }
    KeptSound(mid, keys, ids);
    SkipEmptied(mid, keys, ids, q, g);
  }

  lemma {:induction false} KeptSound(rows: seq<ChargeRow>, keys: seq<Key>, ids: set<nat>)
    requires Sound(ChargesAt(rows, keys))
    ensures Sound(ChargesAt(rows, Keep(keys, ids)))
  {
    if keys != [] {
      assert ChargesAt(rows, keys[1..]) == ChargesAt(rows, keys)[1..];
      KeptSound(rows, keys[1..], ids);
    }
  }

  lemma SameUserAt(rows: seq<ChargeRow>, mid: seq<ChargeRow>, user: nat, id: nat)
    requires OnlyEmptied(rows, mid, user) && id < |rows| && UsableBy(rows[id], user)
    ensures mid[id].user == user
  {
  }

  lemma KindAdds(charges: seq<ChargeBalance>, after: seq<ChargeBalance>, kind: Kind, x: int, y: int, k: nat)
    requires Sound(charges) && |after| == |charges| && x >= 0 && y >= 0 && k < |charges|
    requires Caps(after, kind) == Remainders(Caps(charges, kind), Pour(Caps(charges, kind), x))
    ensures var first, second := Pour(Caps(charges, kind), x)[k], Pour(Caps(after, kind), y)[k];
            && first >= 0 && second >= 0
            && Pour(Caps(charges, kind), x + y)[k] == first + second <= Unspent(charges[k], kind)
  {
    var caps, left := Caps(charges, kind), Caps(after, kind);
    PourFeasible(caps, x);
    PourFeasible(caps, x + y);
    PourFeasible(left, y);
    PourAdditive(caps, x, y);
    assert Remainders(left, Pour(left, y))[k] == Remainders(caps, Pour(caps, x + y))[k];
  }

  /** The parts of one charge, poured as p and f and then as q and g, are the parts of one larger pour. */
  ghost predicate PartsAddAt(rows: seq<ChargeRow>, mid: seq<ChargeRow>, user: nat, p: int, f: int, q: int, g: int, id: nat) {
    var first := PourCharges(LoadCharges(rows, user), p, f).allocations;
    var second := PourCharges(LoadCharges(mid, user), q, g).allocations;
    var single := PourCharges(LoadCharges(rows, user), p + q, f + g).allocations;
    && id < |rows|
    && Taken(first, id, Paid) >= 0 && Taken(second, id, Paid) >= 0
    && Taken(first, id, Free) >= 0 && Taken(second, id, Free) >= 0
    && Taken(single, id, Paid) == Taken(first, id, Paid) + Taken(second, id, Paid) <= rows[id].unspentPaid
    && Taken(single, id, Free) == Taken(first, id, Free) + Taken(second, id, Free) <= rows[id].unspentFree
  }

  lemma PartsAdd(rows: seq<ChargeRow>, mid: seq<ChargeRow>, user: nat, p: int, f: int, q: int, g: int, k: nat)
    requires PouredOver(rows, mid, user, p, f) && q >= 0 && g >= 0 && k < |FifoKeys(rows, user)|
    ensures PartsAddAt(rows, mid, user, p, f, q, g, FifoKeys(rows, user)[k].id)
  {
    hide Pour, PourCharges, Taken, FifoKeys, RowOk, OnlyEmptied;
    var charges, after := LoadCharges(rows, user), ChargesAt(mid, FifoKeys(rows, user));
    LoadedCharges(rows, user);
    SecondLoad(rows, mid, user, p, f, q, g);
    SameIdsDistinct(charges, after);
    KindAdds(charges, after, Paid, p, q, k);
    KindAdds(charges, after, Free, f, g, k);
    PouredTakes(charges, p, f, k);
    PouredTakes(after, q, g, k);
    PouredTakes(charges, p + q, f + g, k);
  }

  lemma SameIdsDistinct(charges: seq<ChargeBalance>, after: seq<ChargeBalance>)
    requires DistinctCharges(charges) && |charges| == |after|
    requires forall i :: 0 <= i < |after| ==> after[i].id == charges[i].id
    ensures DistinctCharges(after)
  {
  }

  // ----- The two spends -----

  lemma FirstPours(ledger: Ledger, mid: Ledger, user: nat, reason: Reason, a: int, b: int, preferFree: bool)
    requires SpendPair(ledger, mid, user, reason, a, b, preferFree)
    ensures var p := PaidUsage(BalanceOf(ledger.balances, user), a, preferFree);
            PouredOver(ledger.charges, mid.charges, user, p, a - p)
  {
    hide FifoKeys, LoadCharges, Pour, Remainders, Caps, SpendNow, SpendDecision;
    PairFacts(ledger, mid, user, reason, a, b, preferFree);
    UsagesAdd(ledger, mid, user, reason, a, b, preferFree);
    CapsAfterFirst(ledger, mid, user, reason, a, b, preferFree, Paid);
    CapsAfterFirst(ledger, mid, user, reason, a, b, preferFree, Free);
  }

  /** The capacities the second spend sees at the positions of the first load. */
  lemma CapsAfterFirst(ledger: Ledger, mid: Ledger, user: nat, reason: Reason, a: int, b: int, preferFree: bool, kind: Kind)
    requires SpendPair(ledger, mid, user, reason, a, b, preferFree)
    ensures var keys := FifoKeys(ledger.charges, user);
            var caps := Caps(LoadCharges(ledger.charges, user), kind);
            var p := PaidUsage(BalanceOf(ledger.balances, user), a, preferFree);
            && Sound(ChargesAt(mid.charges, keys))
            && Caps(ChargesAt(mid.charges, keys), kind) == Remainders(caps, Pour(caps, if kind == Paid then p else a - p))
  {
    hide Pour, SpendNow, FifoKeys, PaidUsage, SpendDecision, Inv;
    forall k | 0 <= k < |FifoKeys(ledger.charges, user)|
      ensures var p := PaidUsage(BalanceOf(ledger.balances, user), a, preferFree);
              var charges := LoadCharges(ledger.charges, user);
              var c := ChargeAt(mid.charges, FifoKeys(ledger.charges, user)[k].id);
              && c.unspentPaid == Caps(charges, Paid)[k] - Pour(Caps(charges, Paid), p)[k] >= 0
              && c.unspentFree == Caps(charges, Free)[k] - Pour(Caps(charges, Free), a - p)[k] >= 0
    {
      FirstPoursAt(ledger, mid, user, reason, a, b, preferFree, k);
    }
  }

  lemma FirstPoursAt(ledger: Ledger, mid: Ledger, user: nat, reason: Reason, a: int, b: int, preferFree: bool, k: nat)
    requires SpendPair(ledger, mid, user, reason, a, b, preferFree) && k < |FifoKeys(ledger.charges, user)|
    ensures var p := PaidUsage(BalanceOf(ledger.balances, user), a, preferFree);
            var charges := LoadCharges(ledger.charges, user);
            var c := ChargeAt(mid.charges, FifoKeys(ledger.charges, user)[k].id);
            && c.unspentPaid == Caps(charges, Paid)[k] - Pour(Caps(charges, Paid), p)[k] >= 0
            && c.unspentFree == Caps(charges, Free)[k] - Pour(Caps(charges, Free), a - p)[k] >= 0
  {
    FifoKeysAre(ledger.charges, user);
    var key := FifoKeys(ledger.charges, user)[k];
    assert key in FifoKeys(ledger.charges, user);
    TakenAt(ledger, user, a, preferFree, k, Paid);
    TakenAt(ledger, user, a, preferFree, k, Free);
    SpendNowRow(ledger, user, reason, a, preferFree, key.id);
    assert RowOk(mid.charges[key.id]);
  }

  /** The row a spend that runs alone leaves, in terms of what was poured. */
  lemma PouredRow(ledger: Ledger, user: nat, reason: Reason, amount: int, preferFree: bool, i: nat)
    requires Inv(ledger) && 0 < amount <= BalanceOf(ledger.balances, user).total && i < |ledger.charges|
    ensures var p := PaidUsage(BalanceOf(ledger.balances, user), amount, preferFree);
            var parts := PourCharges(LoadCharges(ledger.charges, user), p, amount - p).allocations;
            var r := SpendNow(ledger, user, reason, amount, preferFree);
            && p >= 0 && amount - p >= 0
            && r.Ok? && |r.value.charges| == |ledger.charges|
            && r.value.charges[i] == Drawn(ledger.charges[i], Taken(parts, i, Paid), Taken(parts, i, Free))
  {
    NoDrift(ledger, user);
    SpendNowRow(ledger, user, reason, amount, preferFree, i);
  }

  /** The k-th loaded charge ends with the same row either way. */
  lemma SameRowAt(ledger: Ledger, mid: Ledger, user: nat, reason: Reason, a: int, b: int, preferFree: bool, k: nat)
    requires SpendPair(ledger, mid, user, reason, a, b, preferFree)
    requires k < |FifoKeys(ledger.charges, user)|
    ensures SameRowEitherWay(ledger, mid, user, reason, a, b, preferFree, FifoKeys(ledger.charges, user)[k].id)
  {
    hide PouredOver, PartsAddAt, PaidUsage, SpendNow, Inv, SameRowEitherWay, BalanceOf, FifoKeys;
    var p := PaidUsage(BalanceOf(ledger.balances, user), a, preferFree);
    var q := PaidUsage(BalanceOf(mid.balances, user), b, preferFree);
    PairFacts(ledger, mid, user, reason, a, b, preferFree);
    FirstPours(ledger, mid, user, reason, a, b, preferFree);
    UsagesAdd(ledger, mid, user, reason, a, b, preferFree);
    PartsAdd(ledger.charges, mid.charges, user, p, a - p, q, b - q, k);
    SameRowFromParts(ledger, mid, user, reason, a, b, preferFree, FifoKeys(ledger.charges, user)[k].id);
  }

  lemma SameRowFromParts(ledger: Ledger, mid: Ledger, user: nat, reason: Reason, a: int, b: int, preferFree: bool, i: nat)
    requires SpendPair(ledger, mid, user, reason, a, b, preferFree)
    requires var p := PaidUsage(BalanceOf(ledger.balances, user), a, preferFree);
             var q := PaidUsage(BalanceOf(mid.balances, user), b, preferFree);
             && PaidUsage(BalanceOf(ledger.balances, user), a + b, preferFree) == p + q
             && b <= BalanceOf(mid.balances, user).total && |mid.charges| == |ledger.charges|
             && PartsAddAt(ledger.charges, mid.charges, user, p, a - p, q, b - q, i)
    ensures SameRowEitherWay(ledger, mid, user, reason, a, b, preferFree, i)
  {
    hide PourCharges, Taken, LoadCharges, PaidUsage, ApplySpend, SpendDecision;
    PouredRow(ledger, user, reason, a, preferFree, i);
    PouredRow(mid, user, reason, b, preferFree, i);
    PouredRow(ledger, user, reason, a + b, preferFree, i);
    var p := PaidUsage(BalanceOf(ledger.balances, user), a, preferFree);
    var q := PaidUsage(BalanceOf(mid.balances, user), b, preferFree);
    var first := PourCharges(LoadCharges(ledger.charges, user), p, a - p).allocations;
    var second := PourCharges(LoadCharges(mid.charges, user), q, b - q).allocations;
    assert a + b - (p + q) == (a - p) + (b - q);
    assert RowOk(ledger.charges[i]);
    DrawnTwice(ledger.charges[i], Taken(first, i, Paid), Taken(first, i, Free), Taken(second, i, Paid), Taken(second, i, Free));
  }

  ghost predicate SameRowEitherWay(
    ledger: Ledger, mid: Ledger, user: nat, reason: Reason, a: int, b: int, preferFree: bool, i: nat)
  {
    var two := SpendNow(mid, user, reason, b, preferFree);
    var one := SpendNow(ledger, user, reason, a + b, preferFree);
    && i < |ledger.charges| && two.Ok? && one.Ok?
    && |two.value.charges| == |one.value.charges| == |ledger.charges|
    && two.value.charges[i] == one.value.charges[i]
  }

  lemma UsagesAdd(ledger: Ledger, mid: Ledger, user: nat, reason: Reason, a: int, b: int, preferFree: bool)
    requires SpendPair(ledger, mid, user, reason, a, b, preferFree)
    ensures var p := PaidUsage(BalanceOf(ledger.balances, user), a, preferFree);
            var q := PaidUsage(BalanceOf(mid.balances, user), b, preferFree);
            && PaidUsage(BalanceOf(ledger.balances, user), a + b, preferFree) == p + q
            && p >= 0 && a - p >= 0 && q >= 0 && b - q >= 0 && b <= BalanceOf(mid.balances, user).total
  {
    NoDrift(ledger, user);
    NoDrift(mid, user);
    PairFacts(ledger, mid, user, reason, a, b, preferFree);
    UsageAdds(BalanceOf(ledger.balances, user), a, b, preferFree);
  }

  lemma SameRow(ledger: Ledger, mid: Ledger, user: nat, reason: Reason, a: int, b: int, preferFree: bool, i: nat)
    requires SpendPair(ledger, mid, user, reason, a, b, preferFree) && i < |ledger.charges|
    ensures SameRowEitherWay(ledger, mid, user, reason, a, b, preferFree, i)
  {
    PairFacts(ledger, mid, user, reason, a, b, preferFree);
    if UsableBy(ledger.charges[i], user) {
      FifoKeysAre(ledger.charges, user);
      var key := Key(ledger.charges[i].chargedAt, i);
      assert key in FifoKeys(ledger.charges, user);
      var k :| 0 <= k < |FifoKeys(ledger.charges, user)| && FifoKeys(ledger.charges, user)[k] == key;
      SameRowAt(ledger, mid, user, reason, a, b, preferFree, k);
    } else {
      UntouchedRow(ledger, mid, user, reason, a, b, preferFree, i);
    }
  }

  lemma UntouchedRow(ledger: Ledger, mid: Ledger, user: nat, reason: Reason, a: int, b: int, preferFree: bool, i: nat)
    requires SpendPair(ledger, mid, user, reason, a, b, preferFree) && i < |ledger.charges|
    requires !UsableBy(ledger.charges[i], user)
    ensures SameRowEitherWay(ledger, mid, user, reason, a, b, preferFree, i)
  {
    PairFacts(ledger, mid, user, reason, a, b, preferFree);
    UntouchedBy(ledger, user, reason, a, preferFree, i);
    UntouchedBy(ledger, user, reason, a + b, preferFree, i);
    UntouchedBy(mid, user, reason, b, preferFree, i);
  }

  lemma UntouchedBy(ledger: Ledger, user: nat, reason: Reason, amount: int, preferFree: bool, i: nat)
    requires Inv(ledger) && 0 < amount <= BalanceOf(ledger.balances, user).total
    requires i < |ledger.charges| && !UsableBy(ledger.charges[i], user)
    ensures var r := SpendNow(ledger, user, reason, amount, preferFree);
            r.Ok? && |r.value.charges| == |ledger.charges| && r.value.charges[i] == ledger.charges[i]
  {
    NothingElsewhere(ledger, user, amount, preferFree, i);
    SpendNowRow(ledger, user, reason, amount, preferFree, i);
  }

  /** The balances a spend that runs alone leaves. */
  lemma SpendNowBalance(ledger: Ledger, user: nat, reason: Reason, amount: int, preferFree: bool)
    requires Inv(ledger) && SpendNow(ledger, user, reason, amount, preferFree).Ok?
    ensures var before := BalanceOf(ledger.balances, user);
            var p := PaidUsage(before, amount, preferFree);
            user in ledger.balances
            && SpendNow(ledger, user, reason, amount, preferFree).value.balances
               == ledger.balances[user := Snapshot(before.paid - p, before.free - (amount - p), before.total - amount)]
  {
  }

  /** Additivity: the charges (remainders and states) and every balance are the same. */
  lemma SpendingIsAdditive(ledger: Ledger, user: nat, reason: Reason, a: int, b: int, preferFree: bool)
    requires Inv(ledger) && a > 0 && b > 0 && a + b <= BalanceOf(ledger.balances, user).total
    ensures var first := SpendNow(ledger, user, reason, a, preferFree);
            var single := SpendNow(ledger, user, reason, a + b, preferFree);
            && first.Ok? && single.Ok?
            && var second := SpendNow(first.value, user, reason, b, preferFree);
               && second.Ok?
               && second.value.charges == single.value.charges
               && second.value.balances == single.value.balances
  {
    SpendNowCommits(ledger, user, reason, a, preferFree);
    SpendNowCommits(ledger, user, reason, a + b, preferFree);
    SpendNowKeeps(ledger, user, reason, a, preferFree);
    var mid := SpendNow(ledger, user, reason, a, preferFree).value;
    UsagesAdd(ledger, mid, user, reason, a, b, preferFree);
    SpendNowCommits(mid, user, reason, b, preferFree);
    SameBalances(ledger, mid, user, reason, a, b, preferFree);
    SameCharges(ledger, mid, user, reason, a, b, preferFree);
  }

  lemma SameCharges(ledger: Ledger, mid: Ledger, user: nat, reason: Reason, a: int, b: int, preferFree: bool)
    requires SpendPair(ledger, mid, user, reason, a, b, preferFree)
    requires SpendNow(mid, user, reason, b, preferFree).Ok? && SpendNow(ledger, user, reason, a + b, preferFree).Ok?
    ensures SpendNow(mid, user, reason, b, preferFree).value.charges
         == SpendNow(ledger, user, reason, a + b, preferFree).value.charges
  {
    hide SpendNow, Inv;
    assert Inv(ledger) && Inv(mid);
    SpendNowKeeps(ledger, user, reason, a, preferFree);
    SpendNowKeeps(mid, user, reason, b, preferFree);
    SpendNowKeeps(ledger, user, reason, a + b, preferFree);
    var two := SpendNow(mid, user, reason, b, preferFree).value;
    var one := SpendNow(ledger, user, reason, a + b, preferFree).value;
    forall i | 0 <= i < |ledger.charges| ensures two.charges[i] == one.charges[i] {
      SameRow(ledger, mid, user, reason, a, b, preferFree, i);
    }
  }

  lemma SameBalances(ledger: Ledger, mid: Ledger, user: nat, reason: Reason, a: int, b: int, preferFree: bool)
    requires SpendPair(ledger, mid, user, reason, a, b, preferFree)
    requires SpendNow(mid, user, reason, b, preferFree).Ok? && SpendNow(ledger, user, reason, a + b, preferFree).Ok?
    ensures SpendNow(mid, user, reason, b, preferFree).value.balances
         == SpendNow(ledger, user, reason, a + b, preferFree).value.balances
  {
    hide PaidUsage, SpendNow, Inv, OnlyEmptied;
    UsagesAdd(ledger, mid, user, reason, a, b, preferFree);
    SpendNowBalance(ledger, user, reason, a, preferFree);
    SpendNowBalance(mid, user, reason, b, preferFree);
    SpendNowBalance(ledger, user, reason, a + b, preferFree);
  }
}
