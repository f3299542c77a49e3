/**
 First in, first out over whole runs: a lot is drawn on only when every older lot of its account is empty.
 */
module LedgerFifo {
  import opened Prelude
  import opened Waterfall
  import opened ReservationPlans
  import opened LedgerTables
  import opened LotQueue
  import opened LedgerUseCases
  import opened LedgerHistory
  import opened LedgerInvariant
  import opened LedgerPlans
  import opened LedgerKeeps
  import opened LedgerRuns
  import opened LedgerFrame
  import C = LedgerConcurrency
  import F = FifoOrder

  // ----- One draw -----

  ghost predicate SamePlace(a: Lot, b: Lot) {
    a.account == b.account && a.currency == b.currency
  }

  /** Issued earlier, or at the same instant under a smaller id. */
  ghost predicate Older(lots: seq<Lot>, i: nat, j: nat)
    requires i < |lots| && j < |lots|
  {
    lots[i].createdAt < lots[j].createdAt || (lots[i].createdAt == lots[j].createdAt && i < j)
  }

  /** Only remainders change; a lot loses something only when every older lot of its place is left empty. */
  ghost predicate OldestFirst(before: seq<Lot>, after: seq<Lot>) {
    && |after| == |before|
    && (forall i :: 0 <= i < |before| ==>
         after[i] == before[i].(remaining := after[i].remaining) && after[i].remaining <= before[i].remaining)
    && forall i, j | 0 <= i < |before| && 0 <= j < |before| && SamePlace(before[i], before[j]) && Older(before, i, j) ::
         after[j].remaining < before[j].remaining ==> after[i].remaining == 0
  }

  lemma {:induction false} TakenIsPour(balances: seq<LotBalance>, need: int, k: nat)
    requires DistinctLots(balances) && need >= 0 && k < |balances|
    ensures TakenFrom(Draws(balances, need), balances[k].lotId) == Pour(Capacities(balances), need)[k]
  {
    var t := Min(balances[0].remaining, need);
    assert Capacities(balances)[1..] == Capacities(balances[1..]);
    if need == 0 {
      PourFeasible(Capacities(balances), 0);
      PourTotal(Capacities(balances), 0);
      TotalNonNegative(Capacities(balances));
      PartAtMostTotal(Pour(Capacities(balances), 0), k);
    } else if k == 0 {
      NotDrawn(balances[1..], need - t, balances[0].lotId);
      HeadDraw(balances, need);
    } else {
      TakenIsPour(balances[1..], need - t, k - 1);
      HeadDraw(balances, need);
    }
  }

  lemma HeadDraw(balances: seq<LotBalance>, need: int)
    requires balances != [] && need > 0
    ensures var t := Min(balances[0].remaining, need);
            forall lot: nat :: TakenFrom(Draws(balances, need), lot)
                               == (if lot == balances[0].lotId then t else 0) + TakenFrom(Draws(balances[1..], need - t), lot)
  {
    var t := Min(balances[0].remaining, need);
    var rest := Draws(balances[1..], need - t);
    if t > 0 {
      assert Draws(balances, need)[1..] == rest;
    } else {
      assert Draws(balances, need) == rest;
    }
  }

  lemma NotDrawn(balances: seq<LotBalance>, need: int, lot: nat)
    requires need >= 0 && forall i :: 0 <= i < |balances| ==> balances[i].lotId != lot
    ensures TakenFrom(Draws(balances, need), lot) == 0
  {
    forall j | 0 <= j < |Draws(balances, need)| ensures Draws(balances, need)[j].lotId != lot {
      DrawsWithinLots(balances, need, j);
    }
    NotNamed(Draws(balances, need), lot);
  }

  lemma SortedKeys(lots: seq<Lot>, account: nat, currency: Currency)
    ensures var keys := F.Order(SpendableKeys(lots, account, currency, |lots|));
            && F.Sorted(keys)
            && forall k :: k in keys <==> k.id < |lots| && Spendable(lots[k.id], account, currency) && k.at == lots[k.id].createdAt
  {
    var raw := SpendableKeys(lots, account, currency, |lots|);
    SpendableKeysAre(lots, account, currency, |lots|);
    SpendableKeysDistinct(lots, account, currency, |lots|);
    F.OrderSorted(raw);
    F.OrderMembers(raw);
  }

  lemma PlaceInQueue(lots: seq<Lot>, account: nat, currency: Currency, i: nat) returns (k: nat)
    requires i < |lots| && Spendable(lots[i], account, currency)
    ensures k < |LoadLots(lots, account, currency)| && LoadLots(lots, account, currency)[k] == LotBalance(i, lots[i].remaining)
    ensures F.Order(SpendableKeys(lots, account, currency, |lots|))[k] == F.Key(lots[i].createdAt, i)
  {
    var keys := F.Order(SpendableKeys(lots, account, currency, |lots|));
    SortedKeys(lots, account, currency);
    assert F.Key(lots[i].createdAt, i) in keys;
    k :| 0 <= k < |keys| && keys[k] == F.Key(lots[i].createdAt, i);
  }

  lemma OlderIsAhead(lots: seq<Lot>, account: nat, currency: Currency, i: nat, j: nat) returns (k: nat, l: nat)
    requires i < |lots| && j < |lots| && Older(lots, i, j)
    requires Spendable(lots[i], account, currency) && Spendable(lots[j], account, currency)
    ensures var queue := LoadLots(lots, account, currency);
            k < l < |queue| && queue[k] == LotBalance(i, lots[i].remaining) && queue[l] == LotBalance(j, lots[j].remaining)
  {
    k := PlaceInQueue(lots, account, currency, i);
    l := PlaceInQueue(lots, account, currency, j);
    SortedKeys(lots, account, currency);
  }

  /** What the guarded loop does with a plan made from the loaded queue. */
  lemma DrawsTakeOldestFirst(lots: seq<Lot>, account: nat, currency: Currency, amount: int)
    requires amount > 0
    ensures var r := TakeAll(lots, account, currency, Draws(LoadLots(lots, account, currency), amount));
            r.Some? && OldestFirst(lots, r.value)
  {
    hide Draws, LoadLots, TakeAll, Older;
    var queue := LoadLots(lots, account, currency);
    PlanIsFresh(lots, account, currency, amount);
    FreshTake(lots, account, currency, Draws(queue, amount));
    var after := TakeAll(lots, account, currency, Draws(queue, amount)).value;
    forall i, j | 0 <= i < |lots| && 0 <= j < |lots| && SamePlace(lots[i], lots[j]) && Older(lots, i, j)
                  && after[j].remaining < lots[j].remaining
      ensures after[i].remaining == 0
    {
      if lots[i].remaining > 0 {
        OlderIsTaken(lots, account, currency, amount, i, j);
      }
    }
  }

  lemma OlderIsTaken(lots: seq<Lot>, account: nat, currency: Currency, amount: int, i: nat, j: nat)
    requires amount > 0 && i < |lots| && j < |lots| && Older(lots, i, j)
    requires Spendable(lots[i], account, currency) && Spendable(lots[j], account, currency)
    requires TakenFrom(Draws(LoadLots(lots, account, currency), amount), j) > 0
    ensures TakenFrom(Draws(LoadLots(lots, account, currency), amount), i) == lots[i].remaining
  {
    hide Draws, LoadLots, Pour, Older;
    var queue := LoadLots(lots, account, currency);
    LoadedLots(lots, account, currency);
    var k, l := OlderIsAhead(lots, account, currency, i, j);
    TakenIsPour(queue, amount, k);
    TakenIsPour(queue, amount, l);
    PourFillsInOrder(Capacities(queue), amount, k, l);
  }

  // ----- One request -----

  /** A request appends at most one lot, untouched and stamped with its instant, or draws oldest first. */
  ghost predicate LotStep(before: seq<Lot>, after: seq<Lot>, now: int) {
    || after == before
    || (|after| == |before| + 1 && after[..|before|] == before
        && after[|before|].remaining == after[|before|].original && after[|before|].createdAt == now)
    || OldestFirst(before, after)
  }

  lemma CheckoutDraws(db: Db, r: Request, t: Targets)
    requires r.CheckoutRequest? && t.CheckoutTargets? && DecideCheckout(db, r, t).Proceed?
    ensures var plan := DecideCheckout(db, r, t).plan;
            plan.CheckoutPlan? && plan.amount > 0 && plan.allocations == Draws(LoadLots(db.lots, plan.account, POINT), plan.amount)
  {
  }

  lemma WithdrawalDraws(db: Db, r: Request, holder: nat)
    requires r.WithdrawRequest? && DecideWithdraw(db, r, holder).Proceed?
    ensures var plan := DecideWithdraw(db, r, holder).plan;
            plan.WithdrawPlan? && r.amount > 0 && plan.allocations == Draws(LoadLots(db.lots, plan.account, INCOME), r.amount)
  {
  }

  lemma ProceedSteps(db: Db, r: Request, t: Targets, now: int)
    requires Inv(db) && Prepared(db, r, t) && Matching(r, t) && Decide(db, r, t).Proceed?
    requires PlanFits(r, Decide(db, r, t).plan) && ApplyPlan(db, r, Decide(db, r, t).plan, now).Ok?
    ensures LotStep(db.lots, ApplyPlan(db, r, Decide(db, r, t).plan, now).value.lots, now)
  {
    hide Inv, ApplyCharge, ApplyCheckout, ApplySettle, ApplyWithdraw, DecideCharge, DecideCheckout, DecideSettle,
         DecideWithdraw, OldestFirst, TakeAll, Draws, LoadLots;
    ProductOf(db);
    Decided(db, r, t);
    var plan := Decide(db, r, t).plan;
    match r
    case ChargeRequest(_, _, _, _) => ChargeWrites(db, r, plan, now);
    case CheckoutRequest(_, _, _) =>
      CheckoutDraws(db, r, t);
      CheckoutWrites(db, r, plan);
      DrawsTakeOldestFirst(db.lots, plan.account, POINT, plan.amount);
    case SettleRequest(_, _, _) => SettleWrites(db, r, plan, now);
    case WithdrawRequest(_, _, _) =>
      WithdrawalDraws(db, r, t.holder);
      WithdrawWrites(db, r, plan);
      DrawsTakeOldestFirst(db.lots, plan.account, INCOME, r.amount);
  }

  lemma AfterSteps(db: Db, e: Event)
    requires Inv(db)
    ensures LotStep(db.lots, After(db, e).lots, e.now)
  {
    hide Inv, LotStep, Decide, ApplyPlan, ApplyAlias, LoadReceipt, Prepare;
    Unchanged(db.lots, e.now);
    if Prepare(db, e.request).Ok? {
      var t := Prepare(db, e.request).value;
      PreparedMatches(db, e.request, t);
      DecideFits(db, e.request, t);
      match Decide(db, e.request, t)
      case Reject(_) =>
      case Replay(_) =>
      case Alias(c) => if ApplyAlias(db, e.request, c).Ok? { AliasKeepsLots(db, e.request, c); }
      case Proceed(plan) =>
        if ApplyPlan(db, e.request, plan, e.now).Ok? {
          ProceedSteps(db, e.request, t, e.now);
        }
    }
  }

  lemma Unchanged(lots: seq<Lot>, now: int)
    ensures LotStep(lots, lots, now)
  {
  }

  lemma AliasKeepsLots(db: Db, r: Request, c: nat)
    requires c < |db.commands| && ApplyAlias(db, r, c).Ok?
    ensures ApplyAlias(db, r, c).value.lots == db.lots
  {
  }

  /** Whatever the stamps, each served request leaves every lot older than one it drew on empty. */
  lemma EachDrawIsOldestFirst(db: Db, e: Event, i: nat, j: nat)
    requires Inv(db) && i < |db.lots| && j < |db.lots|
    requires db.lots[i].account == db.lots[j].account && db.lots[i].currency == db.lots[j].currency
    requires db.lots[i].createdAt < db.lots[j].createdAt || (db.lots[i].createdAt == db.lots[j].createdAt && i < j)
    ensures |After(db, e).lots| >= |db.lots|
    ensures After(db, e).lots[j].remaining < db.lots[j].remaining ==> After(db, e).lots[i].remaining == 0
  {
    hide Inv, After;
    AfterSteps(db, e);
    var after := After(db, e).lots;
    if |after| == |db.lots| + 1 && after[..|db.lots|] == db.lots {
      assert after[j] == db.lots[j];
    }
  }

  // ----- Whole runs -----

  ghost predicate Chronological(events: seq<Event>) {
    forall a, b :: 0 <= a < b < |events| ==> events[a].now <= events[b].now
  }

  /** Lots from index `first` on were issued in order, between the instants `since` and `until`. */
  ghost predicate Stamped(lots: seq<Lot>, first: nat, since: int, until: int) {
    && first <= |lots|
    && (forall i :: first <= i < |lots| ==> since <= lots[i].createdAt <= until)
    && forall i, j :: first <= i < j < |lots| ==> lots[i].createdAt <= lots[j].createdAt
  }

  /** A lot that was drawn on has only empty older lots before it. */
  ghost predicate DrainedInOrder(lots: seq<Lot>, first: nat) {
    forall i, j | 0 <= i < |lots| && 0 <= j < |lots| && (i < first || first <= j) && SamePlace(lots[i], lots[j]) && Older(lots, i, j) ::
      lots[j].remaining < lots[j].original ==> lots[i].remaining == 0
  }

  lemma StepKeepsOrder(before: seq<Lot>, after: seq<Lot>, first: nat, since: int, until: int, now: int)
    requires Stamped(before, first, since, until) && DrainedInOrder(before, first) && LotStep(before, after, now)
    requires since <= until <= now
    ensures Stamped(after, first, since, now) && DrainedInOrder(after, first)
  {
    if OldestFirst(before, after) {
      DrawKeepsOrder(before, after, first);
    } else if after != before {
      AppendKeepsOrder(before, after[|before|], first, since, until, now);
      assert after == before + [after[|before|]];
    }
  }

  lemma DrawKeepsOrder(before: seq<Lot>, after: seq<Lot>, first: nat)
    requires DrainedInOrder(before, first) && OldestFirst(before, after)
    ensures DrainedInOrder(after, first)
  {
    forall i, j | 0 <= i < |after| && 0 <= j < |after| && (i < first || first <= j) && SamePlace(after[i], after[j])
                  && Older(after, i, j) && after[j].remaining < after[j].original
      ensures after[i].remaining == 0
    {
      assert SamePlace(before[i], before[j]) && Older(before, i, j);
    }
  }

  lemma AppendKeepsOrder(before: seq<Lot>, lot: Lot, first: nat, since: int, until: int, now: int)
    requires Stamped(before, first, since, until) && DrainedInOrder(before, first)
    requires since <= until <= now && lot.remaining == lot.original && lot.createdAt == now
    ensures Stamped(before + [lot], first, since, now) && DrainedInOrder(before + [lot], first)
  {
    var after := before + [lot];
    forall i, j | 0 <= i < |after| && 0 <= j < |after| && (i < first || first <= j) && SamePlace(after[i], after[j])
                  && Older(after, i, j) && after[j].remaining < after[j].original
      ensures after[i].remaining == 0
    {
      assert j < |before| && after[j] == before[j];
      assert i < |before| && after[i] == before[i];
      assert SamePlace(before[i], before[j]) && Older(before, i, j);
    }
  }

  lemma {:induction false} RunKeepsOrder(db: Db, events: seq<Event>, first: nat, since: int, until: int) returns (last: int)
    requires Inv(db) && Chronological(events) && Stamped(db.lots, first, since, until) && DrainedInOrder(db.lots, first)
    requires since <= until && forall a :: 0 <= a < |events| ==> until <= events[a].now
    ensures Stamped(RunAll(db, events).lots, first, since, last)
    ensures DrainedInOrder(RunAll(db, events).lots, first)
    decreases |events|
  {
    hide Inv, After, Stamped, DrainedInOrder, LotStep;
    if events == [] {
      last := until;
    } else {
      AfterKeeps(db, events[0]);
      AfterSteps(db, events[0]);
      StepKeepsOrder(db.lots, After(db, events[0]).lots, first, since, until, events[0].now);
      last := RunKeepsOrder(After(db, events[0]), events[1..], first, since, events[0].now);
    }
  }

  /** One lot came before another: both from the start, one from the start, or both issued by the run. */
  ghost predicate CameFirst(start: Db, events: seq<Event>, i: nat, j: nat) {
    if j < |start.lots| then
      i < |start.lots|
      && (start.lots[i].createdAt < start.lots[j].createdAt || (start.lots[i].createdAt == start.lots[j].createdAt && i < j))
    else if i < |start.lots| then events != [] && start.lots[i].createdAt <= events[0].now
    else i < j
  }

  /**
   FIFO over every chronological run, for charges and settlements, checkouts and withdrawals alike: of two lots of
   one account and currency, the one that came later is untouched until nothing is left of the one that came first.
   */
  lemma OldestLotsDrainFirst(start: Db, events: seq<Event>, i: nat, j: nat)
    requires Initial(start) && Chronological(events) && CameFirst(start, events, i, j)
    requires var lots := RunAll(start, events).lots;
             && i < |lots| && j < |lots| && lots[i].account == lots[j].account && lots[i].currency == lots[j].currency
             && lots[j].remaining < lots[j].original
    ensures RunAll(start, events).lots[i].remaining == 0
  {
    hide Inv, Initial, Extends, RunAll, Stamped, DrainedInOrder, CameFirst, LotsMove;
    var first := |start.lots|;
    var since := if events == [] then 0 else events[0].now;
    UntouchedAtStart(start, since);
    InitialInv(start);
    RunKeeps(start, events);
    var last := RunKeepsOrder(start, events, first, since, since);
    var lots := RunAll(start, events).lots;
    LotsOnlyMove(start, RunAll(start, events));
    OlderAtTheEnd(start, events, lots, last, i, j);
    DrainedMeans(lots, first, i, j);
  }

  /** The same in every interleaving of any number of requests that ended in the order of their instants. */
  lemma OldestLotsDrainFirstConcurrently(start: Db, requests: seq<Request>, turns: seq<C.Turn>, i: nat, j: nat)
    requires Initial(start) && C.Runs(C.Open(start, requests), turns)
    requires var s := C.Reached(C.Open(start, requests), turns);
             && Chronological(s.log) && CameFirst(start, s.log, i, j)
             && i < |s.db.lots| && j < |s.db.lots|
             && s.db.lots[i].account == s.db.lots[j].account && s.db.lots[i].currency == s.db.lots[j].currency
             && s.db.lots[j].remaining < s.db.lots[j].original
    ensures C.Reached(C.Open(start, requests), turns).db.lots[i].remaining == 0
  {
    hide Initial, RunAll, C.Runs, C.Reached, C.Open, C.PlacesOk, Chronological, CameFirst;
    C.EveryInterleavingIsSerial(start, requests, turns);
    OldestLotsDrainFirst(start, C.Reached(C.Open(start, requests), turns).log, i, j);
  }

  lemma LotsOnlyMove(a: Db, b: Db)
    requires Extends(a, b)
    ensures LotsMove(a.lots, b.lots)
  {
  }

  lemma OlderAtTheEnd(start: Db, events: seq<Event>, lots: seq<Lot>, last: int, i: nat, j: nat)
    requires CameFirst(start, events, i, j) && LotsMove(start.lots, lots) && i < |lots| && j < |lots|
    requires Stamped(lots, |start.lots|, if events == [] then 0 else events[0].now, last)
    ensures Older(lots, i, j) && (i < |start.lots| || |start.lots| <= j)
  {
    KeptRows(start.lots, lots);
  }

  lemma DrainedMeans(lots: seq<Lot>, first: nat, i: nat, j: nat)
    requires DrainedInOrder(lots, first) && i < |lots| && j < |lots| && Older(lots, i, j) && (i < first || first <= j)
    requires lots[i].account == lots[j].account && lots[i].currency == lots[j].currency && lots[j].remaining < lots[j].original
    ensures lots[i].remaining == 0
  {
    assert SamePlace(lots[i], lots[j]);
  }

  lemma UntouchedAtStart(start: Db, since: int)
    requires Initial(start)
    ensures Stamped(start.lots, |start.lots|, since, since) && DrainedInOrder(start.lots, |start.lots|)
  {
  }

  lemma KeptRows(before: seq<Lot>, after: seq<Lot>)
    requires LotsMove(before, after)
    ensures |before| <= |after| && forall i :: 0 <= i < |before| ==> after[i].createdAt == before[i].createdAt
  {
    forall i | 0 <= i < |before| ensures after[i].createdAt == before[i].createdAt {
      assert after[i] == before[i].(remaining := after[i].remaining);
    }
  }
}
