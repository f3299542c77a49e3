/** Loading the lots of an account in spend order, and taking planned amounts from them. */
module LotQueue {
  import opened Prelude
  import opened ReservationPlans
  import opened LedgerTables
  import F = FifoOrder

  function SpendableKeys(lots: seq<Lot>, account: nat, currency: Currency, n: nat): seq<F.Key>
    requires n <= |lots|
  {
    if n == 0 then [] else
      SpendableKeys(lots, account, currency, n - 1)
      + if Spendable(lots[n - 1], account, currency) then [F.Key(lots[n - 1].createdAt, n - 1)] else []
  }

  function BalanceAt(lots: seq<Lot>, id: nat): LotBalance {
    if id < |lots| then LotBalance(id, lots[id].remaining) else LotBalance(id, 0)
  }

  /** `loadAvailablePointWorld` and `loadAvailableIncomeWorld`: spendable lots, oldest first. */
  function LoadLots(lots: seq<Lot>, account: nat, currency: Currency): (balances: seq<LotBalance>)
    ensures var keys := F.Order(SpendableKeys(lots, account, currency, |lots|));
            |balances| == |keys| && forall i :: 0 <= i < |keys| ==> balances[i] == BalanceAt(lots, keys[i].id)
  {
    var keys := F.Order(SpendableKeys(lots, account, currency, |lots|));
    seq(|keys|, i requires 0 <= i < |keys| => BalanceAt(lots, keys[i].id))
  }

  lemma {:induction false} SpendableKeysAre(lots: seq<Lot>, account: nat, currency: Currency, n: nat)
    requires n <= |lots|
    ensures forall k :: k in SpendableKeys(lots, account, currency, n) <==>
                        k.id < n && Spendable(lots[k.id], account, currency) && k.at == lots[k.id].createdAt
  {
    if n > 0 {
      SpendableKeysAre(lots, account, currency, n - 1);
    }
  }

  lemma {:induction false} SpendableKeysDistinct(lots: seq<Lot>, account: nat, currency: Currency, n: nat)
    requires n <= |lots|
    ensures F.DistinctIds(SpendableKeys(lots, account, currency, n))
  {
    if n > 0 {
      SpendableKeysDistinct(lots, account, currency, n - 1);
      var keys := SpendableKeys(lots, account, currency, n - 1);
      forall i | 0 <= i < |keys| ensures keys[i].id < n - 1 {
        assert keys[i] in keys;
        SpendableKeysAre(lots, account, currency, n - 1);
      }
    }
  }

  /** The loaded lots are distinct rows of the account with something left. */
  lemma LoadedLots(lots: seq<Lot>, account: nat, currency: Currency)
    ensures var balances := LoadLots(lots, account, currency);
            && DistinctLots(balances)
            && forall i :: 0 <= i < |balances| ==>
                 balances[i].lotId < |lots| && Spendable(lots[balances[i].lotId], account, currency)
                 && balances[i].remaining == lots[balances[i].lotId].remaining
  {
    var raw := SpendableKeys(lots, account, currency, |lots|);
    SpendableKeysAre(lots, account, currency, |lots|);
    SpendableKeysDistinct(lots, account, currency, |lots|);
    F.OrderSorted(raw);
    F.OrderMembers(raw);
    var keys := F.Order(raw);
    forall i | 0 <= i < |keys| ensures keys[i].id < |lots| && Spendable(lots[keys[i].id], account, currency) {
      assert keys[i] in keys;
    }
  }

  /** Writes that leave an account's lots alone leave what it loads alone. */
  ghost predicate SameFor(before: seq<Lot>, after: seq<Lot>, account: nat, currency: Currency) {
    && |before| <= |after|
    && (forall i :: 0 <= i < |before| ==>
         after[i] == before[i] || (!Spendable(before[i], account, currency) && !Spendable(after[i], account, currency)))
    && forall i :: |before| <= i < |after| ==> !Spendable(after[i], account, currency)
  }

  lemma {:induction false} SameKeys(before: seq<Lot>, after: seq<Lot>, account: nat, currency: Currency, n: nat)
    requires SameFor(before, after, account, currency) && n <= |after|
    ensures SpendableKeys(after, account, currency, n)
         == SpendableKeys(before, account, currency, if n <= |before| then n else |before|)
  {
    if n > 0 {
      SameKeys(before, after, account, currency, n - 1);
    }
  }

  lemma SameLoad(before: seq<Lot>, after: seq<Lot>, account: nat, currency: Currency)
    requires SameFor(before, after, account, currency)
    ensures LoadLots(after, account, currency) == LoadLots(before, account, currency)
  {
    SameKeys(before, after, account, currency, |after|);
    var raw := SpendableKeys(before, account, currency, |before|);
    SpendableKeysAre(before, account, currency, |before|);
    F.OrderMembers(raw);
    var keys := F.Order(raw);
    forall i | 0 <= i < |keys| ensures BalanceAt(after, keys[i].id) == BalanceAt(before, keys[i].id) {
      assert keys[i] in keys;
    }
  }

  // ----- Guarded decrements -----

  /** The `WHERE` of the update, and the CHECK that a remainder never goes negative. */
  predicate LotGuard(lots: seq<Lot>, account: nat, currency: Currency, a: Allocation) {
    a.lotId < |lots| && lots[a.lotId].account == account && lots[a.lotId].currency == currency
    && lots[a.lotId].remaining == a.assumedRemaining && a.amount <= a.assumedRemaining
  }

  function Decrement(lot: Lot, amount: int): Lot
    requires amount <= lot.remaining
  {
    lot.(remaining := lot.remaining - amount)
  }

  /** The guarded updates in plan order; `None` when one misses. */
  function TakeAll(lots: seq<Lot>, account: nat, currency: Currency, allocations: seq<Allocation>): Option<seq<Lot>>
    decreases |allocations|
  {
    if allocations == [] then Some(lots) else
      var a := allocations[0];
      if LotGuard(lots, account, currency, a)
      then TakeAll(lots[a.lotId := Decrement(lots[a.lotId], a.amount)], account, currency, allocations[1..])
      else None
  }

  /** What a list of allocations takes from one lot. */
  function TakenFrom(allocations: seq<Allocation>, lot: nat): int {
    if allocations == [] then 0
    else (if allocations[0].lotId == lot then allocations[0].amount else 0) + TakenFrom(allocations[1..], lot)
  }

  ghost predicate PlannedOn(lots: seq<Lot>, account: nat, currency: Currency, allocations: seq<Allocation>) {
    && DistinctAllocations(allocations)
    && forall j :: 0 <= j < |allocations| ==> allocations[j].amount > 0 && LotGuard(lots, account, currency, allocations[j])
  }

  /** A plan executed on the lots it was made for never misses and takes exactly its parts. */
  lemma {:induction false} FreshTake(lots: seq<Lot>, account: nat, currency: Currency, allocations: seq<Allocation>)
    requires PlannedOn(lots, account, currency, allocations)
    ensures var r := TakeAll(lots, account, currency, allocations);
            && r.Some? && |r.value| == |lots|
            && forall i :: 0 <= i < |lots| ==>
                 0 <= TakenFrom(allocations, i) <= lots[i].remaining
                 && r.value[i] == Decrement(lots[i], TakenFrom(allocations, i))
                 && (TakenFrom(allocations, i) > 0 ==> lots[i].account == account && lots[i].currency == currency)
    decreases |allocations|
  {
    if allocations != [] {
      var a := allocations[0];
      var next := lots[a.lotId := Decrement(lots[a.lotId], a.amount)];
      forall j | 0 <= j < |allocations[1..]|
        ensures allocations[1..][j].amount > 0 && LotGuard(next, account, currency, allocations[1..][j])
      {
        assert allocations[1..][j] == allocations[j + 1];
      }
      FreshTake(next, account, currency, allocations[1..]);
      NotNamed(allocations[1..], a.lotId);
    }
  }

  lemma {:induction false} NotNamed(allocations: seq<Allocation>, lot: nat)
    requires forall j :: 0 <= j < |allocations| ==> allocations[j].lotId != lot
    ensures TakenFrom(allocations, lot) == 0
  {
    if allocations != [] {
      NotNamed(allocations[1..], lot);
    }
  }

  /** A planned reservation is executable on the lots it was planned from. */
  lemma PlanIsFresh(lots: seq<Lot>, account: nat, currency: Currency, amount: int)
    requires amount > 0
    ensures PlannedOn(lots, account, currency, Draws(LoadLots(lots, account, currency), amount))
  {
    var balances := LoadLots(lots, account, currency);
    var draws := Draws(balances, amount);
    LoadedLots(lots, account, currency);
    DrawsDistinct(balances, amount);
    forall j | 0 <= j < |draws| ensures draws[j].amount > 0 && LotGuard(lots, account, currency, draws[j]) {
      DrawsWithinLots(balances, amount, j);
      var i :| 0 <= i < |balances| && balances[i] == LotBalance(draws[j].lotId, draws[j].assumedRemaining);
    }
  }
}
