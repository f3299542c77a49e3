/** What `planSpend` means: two waterfalls poured over the same charges, one per kind of point. */
module SpendLaws {
  import opened Prelude
  import opened Waterfall
  import opened PointCore

  ghost predicate Sound(charges: seq<ChargeBalance>) {
    forall i :: 0 <= i < |charges| ==> charges[i].unspentPaid >= 0 && charges[i].unspentFree >= 0
  }

  ghost predicate DistinctCharges(charges: seq<ChargeBalance>) {
    forall i, j :: 0 <= i < j < |charges| ==> charges[i].id != charges[j].id
  }

  function Unspent(c: ChargeBalance, kind: Kind): int {
    if kind == Paid then c.unspentPaid else c.unspentFree
  }

  function Caps(charges: seq<ChargeBalance>, kind: Kind): (caps: seq<int>)
    ensures |caps| == |charges|
    ensures forall i :: 0 <= i < |charges| ==> caps[i] == Unspent(charges[i], kind)
  {
    seq(|charges|, i requires 0 <= i < |charges| => Unspent(charges[i], kind))
  }

  /** The non-zero parts of two takings over the same charges. */
  function Parts(charges: seq<ChargeBalance>, paid: seq<int>, free: seq<int>): seq<SpendAllocation>
    requires |charges| == |paid| == |free|
  {
    if charges == [] then [] else
      (if paid[0] + free[0] == 0 then [] else [Allocate(charges[0], paid[0], free[0])])
      + Parts(charges[1..], paid[1..], free[1..])
  }

  lemma {:induction false} PourNothing(charges: seq<ChargeBalance>)
    requires Sound(charges)
    ensures Parts(charges, Pour(Caps(charges, Paid), 0), Pour(Caps(charges, Free), 0)) == []
    ensures Total(Caps(charges, Paid)) >= 0 && Total(Caps(charges, Free)) >= 0
  {
    TotalNonNegative(Caps(charges, Paid));
    TotalNonNegative(Caps(charges, Free));
    if charges != [] {
      CapsTail(charges, Paid);
      CapsTail(charges, Free);
      PourNothing(charges[1..]);
    }
  }

  lemma CapsTail(charges: seq<ChargeBalance>, kind: Kind)
    requires charges != []
    ensures Caps(charges, kind)[1..] == Caps(charges[1..], kind)
  {
  }

  /** The loop of `planSpend` pours each kind as an independent waterfall. */
  lemma PourChargesIsTwoWaterfalls(charges: seq<ChargeBalance>, paid: int, free: int)
    requires Sound(charges) && paid >= 0 && free >= 0
    ensures var poured := PourCharges(charges, paid, free);
            var caps := (Caps(charges, Paid), Caps(charges, Free));
            && poured.allocations == Parts(charges, Pour(caps.0, paid), Pour(caps.1, free))
            && poured.paidLeft == paid - Min(paid, Total(caps.0))
            && poured.freeLeft == free - Min(free, Total(caps.1))
  {
    PouredParts(charges, paid, free);
    PouredLeft(charges, paid, free);
  }

  lemma {:induction false} PouredParts(charges: seq<ChargeBalance>, paid: int, free: int)
    requires Sound(charges) && paid >= 0 && free >= 0
    ensures PourCharges(charges, paid, free).allocations
         == Parts(charges, Pour(Caps(charges, Paid), paid), Pour(Caps(charges, Free), free))
  {
    hide Pour, Caps;
    if charges == [] {
    } else if paid == 0 && free == 0 {
      PourNothing(charges);
    } else {
      var p, f := Min(paid, charges[0].unspentPaid), Min(free, charges[0].unspentFree);
      PourHead(charges, Paid, paid);
      PourHead(charges, Free, free);
      PouredParts(charges[1..], paid - p, free - f);
    }
  }

  lemma PourHead(charges: seq<ChargeBalance>, kind: Kind, need: int)
    requires charges != []
    ensures var t := Min(need, Unspent(charges[0], kind));
            Pour(Caps(charges, kind), need)[0] == t
            && Pour(Caps(charges, kind), need)[1..] == Pour(Caps(charges[1..], kind), need - t)
  {
    CapsTail(charges, kind);
  }

  /** Serving a need from a head and then from the rest serves it from their sum. */
  lemma MinSplit(charges: seq<ChargeBalance>, kind: Kind, need: int)
    requires Sound(charges) && charges != [] && need >= 0
    ensures var t := Min(need, Unspent(charges[0], kind));
            && 0 <= t <= need
            && Min(need, Total(Caps(charges, kind))) == t + Min(need - t, Total(Caps(charges[1..], kind)))
  {
    CapsTail(charges, kind);
    TotalNonNegative(Caps(charges[1..], kind));
  }

  lemma {:induction false} PouredLeft(charges: seq<ChargeBalance>, paid: int, free: int)
    requires Sound(charges) && paid >= 0 && free >= 0
    ensures PourCharges(charges, paid, free).paidLeft == paid - Min(paid, Total(Caps(charges, Paid)))
    ensures PourCharges(charges, paid, free).freeLeft == free - Min(free, Total(Caps(charges, Free)))
  {
    if charges == [] {
    } else if paid == 0 && free == 0 {
      PourNothing(charges);
    } else {
      MinSplit(charges, Paid, paid);
      MinSplit(charges, Free, free);
      PouredLeft(charges[1..], paid - Min(paid, charges[0].unspentPaid), free - Min(free, charges[0].unspentFree));
    }
  }

  /** A balance row that agrees with the charges it summarises. */
  ghost predicate Agrees(snapshot: Snapshot, charges: seq<ChargeBalance>) {
    snapshot == SumUsable(charges)
  }

  lemma {:induction false} SumIsCaps(charges: seq<ChargeBalance>)
    ensures SumUsable(charges).paid == Total(Caps(charges, Paid))
    ensures SumUsable(charges).free == Total(Caps(charges, Free))
  {
    if charges != [] {
      CapsTail(charges, Paid);
      CapsTail(charges, Free);
      SumIsCaps(charges[1..]);
    }
  }

  /** Totality: on a consistent ledger a plan exists exactly when the amount is positive and covered. */
  lemma SpendSucceedsIffCovered(snapshot: Snapshot, charges: seq<ChargeBalance>, amount: int, preferFree: bool)
    requires Sound(charges) && Agrees(snapshot, charges)
    ensures SpendDecision(snapshot, charges, amount, preferFree).Ok? <==> 0 < amount <= snapshot.total
    ensures amount <= 0 ==> SpendDecision(snapshot, charges, amount, preferFree) == Err(AmountNotPositive(amount))
    ensures amount > 0 && amount > snapshot.total ==>
              SpendDecision(snapshot, charges, amount, preferFree) == Err(InsufficientPoint(snapshot.total, amount))
  {
    SumIsCaps(charges);
    SumTotals(charges);
    TotalNonNegative(Caps(charges, Paid));
    TotalNonNegative(Caps(charges, Free));
    if 0 < amount <= snapshot.total {
      var paid := PaidUsage(snapshot, amount, preferFree);
      PourChargesIsTwoWaterfalls(charges, paid, amount - paid);
    }
  }

  /** Closed form of a plan on a consistent ledger. */
  lemma SpendClosedForm(snapshot: Snapshot, charges: seq<ChargeBalance>, amount: int, preferFree: bool)
    requires Sound(charges) && Agrees(snapshot, charges) && 0 < amount <= snapshot.total
    ensures SpendDecision(snapshot, charges, amount, preferFree).Ok?
    ensures var plan := SpendDecision(snapshot, charges, amount, preferFree).value;
            && plan.paidUsage + plan.freeUsage == amount
            && 0 <= plan.paidUsage <= snapshot.paid && 0 <= plan.freeUsage <= snapshot.free
            && (if preferFree then plan.paidUsage > 0 ==> plan.freeUsage == snapshot.free
                else plan.freeUsage > 0 ==> plan.paidUsage == snapshot.paid)
            && plan.allocations == Parts(charges, Pour(Caps(charges, Paid), plan.paidUsage),
                                         Pour(Caps(charges, Free), plan.freeUsage))
            && plan.assumed == snapshot
            && plan.after == Snapshot(snapshot.paid - plan.paidUsage, snapshot.free - plan.freeUsage,
                                      snapshot.total - amount)
  {
    SpendSucceedsIffCovered(snapshot, charges, amount, preferFree);
    SumIsCaps(charges);
    SumTotals(charges);
    TotalNonNegative(Caps(charges, Paid));
    TotalNonNegative(Caps(charges, Free));
    var paid := PaidUsage(snapshot, amount, preferFree);
    PourChargesIsTwoWaterfalls(charges, paid, amount - paid);
  }

  /** What a list of allocations takes from one charge. */
  function Taken(allocations: seq<SpendAllocation>, id: nat, kind: Kind): int {
    if allocations == [] then 0 else
      (if allocations[0].chargeId == id then (if kind == Paid then allocations[0].paid else allocations[0].free) else 0)
      + Taken(allocations[1..], id, kind)
  }

  lemma {:induction false} TakenOfPart(charges: seq<ChargeBalance>, paid: seq<int>, free: seq<int>, k: nat)
    requires |charges| == |paid| == |free| && DistinctCharges(charges) && k < |charges|
    requires Feasible(Caps(charges, Paid), paid) && Feasible(Caps(charges, Free), free)
    ensures Taken(Parts(charges, paid, free), charges[k].id, Paid) == paid[k]
    ensures Taken(Parts(charges, paid, free), charges[k].id, Free) == free[k]
  {
    CapsTail(charges, Paid);
    CapsTail(charges, Free);
    var rest := Parts(charges[1..], paid[1..], free[1..]);
    if paid[0] + free[0] != 0 {
      assert Parts(charges, paid, free)[1..] == rest;
    } else {
      assert Parts(charges, paid, free) == rest;
    }
    if k == 0 {
      UntouchedElsewhere(charges[1..], paid[1..], free[1..], charges[0].id);
    } else {
      TakenOfPart(charges[1..], paid[1..], free[1..], k - 1);
    }
  }

  lemma {:induction false} UntouchedElsewhere(charges: seq<ChargeBalance>, paid: seq<int>, free: seq<int>, id: nat)
    requires |charges| == |paid| == |free|
    requires forall i :: 0 <= i < |charges| ==> charges[i].id != id
    ensures Taken(Parts(charges, paid, free), id, Paid) == 0 && Taken(Parts(charges, paid, free), id, Free) == 0
    ensures forall j :: 0 <= j < |Parts(charges, paid, free)| ==> Parts(charges, paid, free)[j].chargeId != id
  {
    if charges != [] {
      UntouchedElsewhere(charges[1..], paid[1..], free[1..], id);
      var rest := Parts(charges[1..], paid[1..], free[1..]);
      if paid[0] + free[0] != 0 {
        assert Parts(charges, paid, free)[1..] == rest;
      } else {
        assert Parts(charges, paid, free) == rest;
      }
    }
  }

  /** Each charge loses exactly the overlap of its prefix-sum interval with the usage. */
  lemma SpendTakesOverlap(snapshot: Snapshot, charges: seq<ChargeBalance>, amount: int, preferFree: bool,
                          k: nat, kind: Kind)
    requires Sound(charges) && DistinctCharges(charges) && Agrees(snapshot, charges)
    requires 0 < amount <= snapshot.total && k < |charges|
    ensures SpendDecision(snapshot, charges, amount, preferFree).Ok?
    ensures var plan := SpendDecision(snapshot, charges, amount, preferFree).value;
            var usage := if kind == Paid then plan.paidUsage else plan.freeUsage;
            var caps := Caps(charges, kind);
            Taken(plan.allocations, charges[k].id, kind)
            == Min(usage, Total(caps[..k + 1])) - Min(usage, Total(caps[..k]))
  {
    SpendClosedForm(snapshot, charges, amount, preferFree);
    var plan := SpendDecision(snapshot, charges, amount, preferFree).value;
    PourFeasible(Caps(charges, Paid), plan.paidUsage);
    PourFeasible(Caps(charges, Free), plan.freeUsage);
    TakenOfPart(charges, Pour(Caps(charges, Paid), plan.paidUsage), Pour(Caps(charges, Free), plan.freeUsage), k);
    PourClosedForm(Caps(charges, kind), if kind == Paid then plan.paidUsage else plan.freeUsage, k);
  }

  ghost predicate DistinctParts(allocations: seq<SpendAllocation>) {
    forall i, j :: 0 <= i < j < |allocations| ==> allocations[i].chargeId != allocations[j].chargeId
  }

  /** A plan names each charge at most once. */
  lemma {:induction false} PartsDistinct(charges: seq<ChargeBalance>, paid: seq<int>, free: seq<int>)
    requires |charges| == |paid| == |free| && DistinctCharges(charges)
    ensures DistinctParts(Parts(charges, paid, free))
  {
    if charges != [] {
      PartsDistinct(charges[1..], paid[1..], free[1..]);
      UntouchedElsewhere(charges[1..], paid[1..], free[1..], charges[0].id);
    }
  }

  /** Every allocation is a positive, covered draw on a planned charge, marked depleted iff it empties it. */
  ghost predicate PartOk(a: SpendAllocation) {
    && 0 <= a.paid <= a.assumedPaid && 0 <= a.free <= a.assumedFree && a.paid + a.free > 0
    && (a.depleted <==> a.paid == a.assumedPaid && a.free == a.assumedFree)
  }

  lemma {:induction false} PartsOk(charges: seq<ChargeBalance>, paid: seq<int>, free: seq<int>, j: nat)
    requires |charges| == |paid| == |free|
    requires Feasible(Caps(charges, Paid), paid) && Feasible(Caps(charges, Free), free)
    requires j < |Parts(charges, paid, free)|
    ensures var a := Parts(charges, paid, free)[j];
            PartOk(a) && ChargeBalance(a.chargeId, a.assumedPaid, a.assumedFree) in charges
  {
    CapsTail(charges, Paid);
    CapsTail(charges, Free);
    var skip := if paid[0] + free[0] == 0 then 0 else 1;
    if j >= skip {
      PartsOk(charges[1..], paid[1..], free[1..], j - skip);
    }
  }

  /** Total of one kind over the allocations. */
  function Used(allocations: seq<SpendAllocation>, kind: Kind): int {
    if allocations == [] then 0 else
      (if kind == Paid then allocations[0].paid else allocations[0].free) + Used(allocations[1..], kind)
  }

  lemma {:induction false} UsedOfParts(charges: seq<ChargeBalance>, paid: seq<int>, free: seq<int>)
    requires |charges| == |paid| == |free|
    requires Feasible(Caps(charges, Paid), paid) && Feasible(Caps(charges, Free), free)
    ensures Used(Parts(charges, paid, free), Paid) == Total(paid)
    ensures Used(Parts(charges, paid, free), Free) == Total(free)
  {
    if charges != [] {
      CapsTail(charges, Paid);
      CapsTail(charges, Free);
      UsedOfParts(charges[1..], paid[1..], free[1..]);
      var rest := Parts(charges[1..], paid[1..], free[1..]);
      if paid[0] + free[0] != 0 {
        assert Parts(charges, paid, free)[1..] == rest;
      } else {
        assert Parts(charges, paid, free) == rest;
      }
    }
  }
}
