/**
 Where withdrawn INCOME came from: the reports add up, withdrawal by withdrawal and flow by flow.
 */
module LedgerLineage {
  import opened Prelude
  import opened LedgerTables
  import opened LedgerUseCases
  import opened LedgerInvariant
  import opened LedgerReceipts
  import opened LedgerRuns
  import F = FifoOrder

  // ----- Lists of sources -----

  function FlowsOf(sources: seq<Source>): (flows: seq<nat>)
    ensures |flows| == |sources| && forall i :: 0 <= i < |flows| ==> flows[i] == sources[i].flow
  {
    seq(|sources|, i requires 0 <= i < |sources| => sources[i].flow)
  }

  ghost predicate NoRepeats(flows: seq<nat>) {
    forall i, j :: 0 <= i < j < |flows| ==> flows[i] != flows[j]
  }

  function SourceTotal(sources: seq<Source>): int {
    if sources == [] then 0 else sources[0].amount + SourceTotal(sources[1..])
  }

  function AmountFrom(sources: seq<Source>, flow: nat): int {
    if sources == [] then 0
    else (if sources[0].flow == flow then sources[0].amount else 0) + AmountFrom(sources[1..], flow)
  }

  /** A flow seen before keeps its place; a new one goes last. */
  lemma {:induction false} AddSourceFlows(sources: seq<Source>, flow: nat, amount: int)
    ensures FlowsOf(AddSource(sources, flow, amount))
         == if flow in FlowsOf(sources) then FlowsOf(sources) else FlowsOf(sources) + [flow]
  {
    if sources != [] {
      assert FlowsOf(sources) == [sources[0].flow] + FlowsOf(sources[1..]);
      if sources[0].flow != flow {
        AddSourceFlows(sources[1..], flow, amount);
        var r := AddSource(sources, flow, amount);
        assert FlowsOf(r) == [r[0].flow] + FlowsOf(r[1..]);
      }
    }
  }

  lemma {:induction false} AddSourceSums(sources: seq<Source>, flow: nat, amount: int, asked: nat)
    ensures SourceTotal(AddSource(sources, flow, amount)) == SourceTotal(sources) + amount
    ensures AmountFrom(AddSource(sources, flow, amount), asked)
         == AmountFrom(sources, asked) + if asked == flow then amount else 0
  {
    if sources != [] && sources[0].flow != flow {
      AddSourceSums(sources[1..], flow, amount, asked);
    }
  }

  lemma {:induction false} AddSourcePositive(sources: seq<Source>, flow: nat, amount: int)
    requires amount > 0 && forall i :: 0 <= i < |sources| ==> sources[i].amount > 0
    ensures forall i :: 0 <= i < |AddSource(sources, flow, amount)| ==> AddSource(sources, flow, amount)[i].amount > 0
  {
    if sources != [] && sources[0].flow != flow {
      AddSourcePositive(sources[1..], flow, amount);
    }
  }

  // ----- The loop that collects them -----

  /** The keys of an insertion-ordered map, and their order. */
  ghost predicate Keyed(order: seq<nat>, amounts: map<nat, int>) {
    NoRepeats(order) && forall f :: f in order <==> f in amounts
  }

  /** An insertion-ordered map from flow to amount, read out in order. */
  function Entries(order: seq<nat>, amounts: map<nat, int>): (entries: seq<Source>)
    requires forall f :: f in order ==> f in amounts
  {
    if order == [] then [] else [Source(order[0], amounts[order[0]])] + Entries(order[1..], amounts)
  }

  lemma {:induction false} EntriesElsewhere(order: seq<nat>, amounts: map<nat, int>, flow: nat, amount: int)
    requires (forall f :: f in order ==> f in amounts) && flow !in order
    ensures Entries(order, amounts[flow := amount]) == Entries(order, amounts)
  {
    if order != [] {
      EntriesElsewhere(order[1..], amounts, flow, amount);
    }
  }

  /** A flow seen before: its entry grows in place. */
  lemma {:induction false} AddGrows(order: seq<nat>, amounts: map<nat, int>, flow: nat, amount: int)
    requires NoRepeats(order) && (forall f :: f in order ==> f in amounts) && flow in order
    ensures AddSource(Entries(order, amounts), flow, amount) == Entries(order, amounts[flow := amounts[flow] + amount])
  {
    assert order == [order[0]] + order[1..];
    if order[0] == flow {
      EntriesElsewhere(order[1..], amounts, flow, amounts[flow] + amount);
    } else {
      AddGrows(order[1..], amounts, flow, amount);
    }
  }

  /** A new flow: its entry goes last. */
  lemma {:induction false} AddAppends(order: seq<nat>, amounts: map<nat, int>, flow: nat, amount: int)
    requires (forall f :: f in order ==> f in amounts) && flow !in order
    ensures AddSource(Entries(order, amounts), flow, amount) == Entries(order + [flow], amounts[flow := amount])
  {
    if order == [] {
      assert order + [flow] == [flow];
    } else {
      AddAppends(order[1..], amounts, flow, amount);
      assert (order + [flow])[1..] == order[1..] + [flow];
    }
  }

  /** `loadIncomeWithdrawalSources`: fold the allocations, by lot id, into a map keyed by commission flow. */
  method LoadIncomeWithdrawalSources(db: Db, reservation: nat) returns (sources: Option<seq<Source>>)
    ensures sources == LoadSources(db, reservation)
  {
    var transfer := FindTransfer(db, reservation);
    if transfer.None? {
      return Some([]);
    }
    sources := FoldAllocations(db, F.Order(TransferKeys(db.allocations, transfer.value, |db.allocations|)));
  }

  method FoldAllocations(db: Db, keys: seq<F.Key>) returns (sources: Option<seq<Source>>)
    ensures sources == CollectSources(db, keys)
  {
    hide AddSource, CollectSources, Entries, NoRepeats;
    var order: seq<nat> := [];
    var amounts: map<nat, int> := map[];
    CollectNothing(db, keys);
    for i := 0 to |keys|
      invariant Keyed(order, amounts)
      invariant CollectSources(db, keys[..i]) == Some(Entries(order, amounts))
    {
      if keys[i].id >= |db.allocations| || !CommissionSourced(db.lots, db.allocations[keys[i].id].lot) {
        CollectFails(db, keys, i);
        return None;
      }
      CollectStep(db, keys, i);
      var row := db.allocations[keys[i].id];
      var flow := db.lots[row.lot].source.value.flow;
      if flow in amounts {
        AddGrows(order, amounts, flow, row.amount);
        amounts := amounts[flow := amounts[flow] + row.amount];
      } else {
        AddAppends(order, amounts, flow, row.amount);
        KeyedAppend(order, amounts, flow, row.amount);
        amounts := amounts[flow := row.amount];
        order := order + [flow];
      }
    }
    assert keys[..|keys|] == keys;
    return Some(Entries(order, amounts));
  }

  lemma CollectNothing(db: Db, keys: seq<F.Key>)
    ensures Keyed([], map[]) && CollectSources(db, keys[..0]) == Some(Entries([], map[]))
  {
  }

  lemma KeyedAppend(order: seq<nat>, amounts: map<nat, int>, flow: nat, amount: int)
    requires Keyed(order, amounts) && flow !in amounts
    ensures Keyed(order + [flow], amounts[flow := amount])
  {
  }

  lemma CollectStep(db: Db, keys: seq<F.Key>, i: nat)
    requires i < |keys| && keys[i].id < |db.allocations| && CollectSources(db, keys[..i]).Some?
    requires CommissionSourced(db.lots, db.allocations[keys[i].id].lot)
    ensures var row := db.allocations[keys[i].id];
            CollectSources(db, keys[..i + 1])
            == Some(AddSource(CollectSources(db, keys[..i]).value, db.lots[row.lot].source.value.flow, row.amount))
  {
    assert keys[..i + 1][..i] == keys[..i];
  }

  lemma {:induction false} CollectFails(db: Db, keys: seq<F.Key>, i: nat)
    requires i < |keys|
    requires keys[i].id >= |db.allocations| || !CommissionSourced(db.lots, db.allocations[keys[i].id].lot)
    ensures CollectSources(db, keys).None?
  {
    if i < |keys| - 1 {
      CollectFails(db, keys[..|keys| - 1], i);
    }
  }

  // ----- Sums over allocation rows -----

  /** The value of the rows some keys name. */
  function SumKeys(values: seq<int>, keys: seq<F.Key>): int {
    if keys == [] then 0 else (if keys[0].id < |values| then values[keys[0].id] else 0) + SumKeys(values, keys[1..])
  }

  lemma {:induction false} SumKeysLast(values: seq<int>, keys: seq<F.Key>, last: F.Key)
    ensures SumKeys(values, keys + [last]) == SumKeys(values, keys) + if last.id < |values| then values[last.id] else 0
  {
    if keys == [] {
      assert keys + [last] == [last];
    } else {
      assert (keys + [last])[1..] == keys[1..] + [last];
      SumKeysLast(values, keys[1..], last);
    }
  }

  lemma {:induction false} InsertSum(values: seq<int>, key: F.Key, sorted: seq<F.Key>)
    ensures SumKeys(values, F.Insert(key, sorted))
         == SumKeys(values, sorted) + if key.id < |values| then values[key.id] else 0
  {
    if sorted == [] || F.Before(key, sorted[0]) {
      assert ([key] + sorted)[1..] == sorted;
    } else {
      InsertSum(values, key, sorted[1..]);
    }
  }

  lemma {:induction false} OrderSum(values: seq<int>, keys: seq<F.Key>)
    ensures SumKeys(values, F.Order(keys)) == SumKeys(values, keys)
  {
    if keys != [] {
      OrderSum(values, keys[1..]);
      InsertSum(values, keys[0], F.Order(keys[1..]));
    }
  }

  /** The value of the first n rows that belong to a transfer. */
  function SumOfTransfer(rows: seq<AllocationRow>, values: seq<int>, transfer: nat, n: nat): int
    requires n <= |rows| && |values| == |rows|
  {
    if n == 0 then 0
    else SumOfTransfer(rows, values, transfer, n - 1) + if rows[n - 1].transfer == transfer then values[n - 1] else 0
  }

  lemma {:induction false} TransferKeysSum(rows: seq<AllocationRow>, values: seq<int>, transfer: nat, n: nat)
    requires n <= |rows| && |values| == |rows|
    ensures SumKeys(values, TransferKeys(rows, transfer, n)) == SumOfTransfer(rows, values, transfer, n)
  {
    if n > 0 {
      TransferKeysSum(rows, values, transfer, n - 1);
      var before := TransferKeys(rows, transfer, n - 1);
      SumKeysLast(values, before, F.Key(rows[n - 1].lot, n - 1));
      assert before + [] == before;
    }
  }

  function RowAmounts(rows: seq<AllocationRow>): (values: seq<int>)
    ensures |values| == |rows| && forall a :: 0 <= a < |rows| ==> values[a] == rows[a].amount
  {
    seq(|rows|, a requires 0 <= a < |rows| => rows[a].amount)
  }

  lemma {:induction false} SumIsDrawn(rows: seq<AllocationRow>, transfer: nat, n: nat)
    requires n <= |rows|
    ensures SumOfTransfer(rows, RowAmounts(rows), transfer, n) == DrawnByTransfer(rows[..n], transfer)
  {
    if n > 0 {
      assert rows[..n][..n - 1] == rows[..n - 1];
      SumIsDrawn(rows, transfer, n - 1);
    }
  }

  /** INCOME issued by a settlement of this commission flow. */
  predicate IncomeOf(lots: seq<Lot>, lot: nat, flow: nat) {
    lot < |lots| && lots[lot].currency == INCOME && lots[lot].source.Some? && lots[lot].source.value.flow == flow
  }

  /** What each allocation row took of one commission flow's INCOME. */
  function FlowAmounts(db: Db, flow: nat): (values: seq<int>)
    ensures |values| == |db.allocations|
    ensures forall a :: 0 <= a < |values| ==>
              values[a] == if IncomeOf(db.lots, db.allocations[a].lot, flow) then db.allocations[a].amount else 0
  {
    seq(|db.allocations|, a requires 0 <= a < |db.allocations| =>
      if IncomeOf(db.lots, db.allocations[a].lot, flow) then db.allocations[a].amount else 0)
  }

  // ----- One withdrawal -----

  ghost predicate IncomeKeys(db: Db, keys: seq<F.Key>) {
    forall i :: 0 <= i < |keys| ==>
      keys[i].id < |db.allocations| && db.allocations[keys[i].id].amount > 0
      && CommissionSourced(db.lots, db.allocations[keys[i].id].lot)
      && db.lots[db.allocations[keys[i].id].lot].currency == INCOME
  }

  lemma WithdrawnKeys(db: Db, w: nat)
    requires Inv(db) && w < |db.withdrawals|
    ensures db.withdrawals[w].reservation < |db.transfers|
    ensures IncomeKeys(db, KeysOf(db, db.withdrawals[w].reservation))
  {
    hide CommandsInv, ProductInv, SettlementInv, OwnersInv, EffectsInv, Conserved;
    WithdrawnLotsAreSourced(db, w);
    assert WithdrawalOk(db, w);
    var r := db.withdrawals[w].reservation;
    assert TransferOk(db, r);
    var keys := KeysOf(db, r);
    TransferKeysAre(db.allocations, r, |db.allocations|);
    F.OrderMembers(TransferKeys(db.allocations, r, |db.allocations|));
    forall i | 0 <= i < |keys|
      ensures db.allocations[keys[i].id].amount > 0 && db.lots[db.allocations[keys[i].id].lot].currency == INCOME
    {
      assert keys[i] in keys;
      assert AllocationOk(db, keys[i].id);
    }
  }

  lemma {:induction false} Collected(db: Db, keys: seq<F.Key>, flow: nat)
    requires IncomeKeys(db, keys)
    ensures CollectSources(db, keys).Some?
    ensures var sources := CollectSources(db, keys).value;
            && NoRepeats(FlowsOf(sources))
            && (forall i :: 0 <= i < |sources| ==> sources[i].amount > 0)
            && SourceTotal(sources) == SumKeys(RowAmounts(db.allocations), keys)
            && AmountFrom(sources, flow) == SumKeys(FlowAmounts(db, flow), keys)
  {
    if keys != [] {
      var n := |keys| - 1;
      Collected(db, keys[..n], flow);
      assert keys == keys[..n] + [keys[n]];
      SumKeysLast(RowAmounts(db.allocations), keys[..n], keys[n]);
      SumKeysLast(FlowAmounts(db, flow), keys[..n], keys[n]);
      var row := db.allocations[keys[n].id];
      var before := CollectSources(db, keys[..n]).value;
      AddSourceFlows(before, db.lots[row.lot].source.value.flow, row.amount);
      AddSourceSums(before, db.lots[row.lot].source.value.flow, row.amount, flow);
      AddSourcePositive(before, db.lots[row.lot].source.value.flow, row.amount);
    }
  }

  lemma SourcesOf(db: Db, w: nat, flow: nat)
    requires Inv(db) && w < |db.withdrawals|
    ensures db.withdrawals[w].reservation < |db.transfers| && LoadSources(db, db.withdrawals[w].reservation).Some?
    ensures var r := db.withdrawals[w].reservation;
            var sources := LoadSources(db, r).value;
            && NoRepeats(FlowsOf(sources))
            && (forall i :: 0 <= i < |sources| ==> sources[i].amount > 0)
            && SourceTotal(sources) == db.transfers[r].amount
            && AmountFrom(sources, flow) == SumOfTransfer(db.allocations, FlowAmounts(db, flow), r, |db.allocations|)
  {
    hide CommandsInv, LotsInv, ProductInv, SettlementInv, OwnersInv, EffectsInv, Conserved;
    WithdrawnKeys(db, w);
    SourcesLoad(db, w);
    var r, rows := db.withdrawals[w].reservation, db.allocations;
    Collected(db, KeysOf(db, r), flow);
    OrderSum(RowAmounts(rows), TransferKeys(rows, r, |rows|));
    OrderSum(FlowAmounts(db, flow), TransferKeys(rows, r, |rows|));
    TransferKeysSum(rows, RowAmounts(rows), r, |rows|);
    TransferKeysSum(rows, FlowAmounts(db, flow), r, |rows|);
    SumIsDrawn(rows, r, |rows|);
    assert rows[..|rows|] == rows;
  }

  /** In any run, a withdrawal's sources are distinct commission flows whose amounts add up to what was withdrawn. */
  lemma SourcesAddUp(start: Db, events: seq<Event>, w: nat)
    requires Initial(start) && w < |RunAll(start, events).withdrawals|
    ensures var db := RunAll(start, events);
            var r := db.withdrawals[w].reservation;
            && r < |db.reservations| && LoadSources(db, r).Some?
            && NoRepeats(FlowsOf(LoadSources(db, r).value))
            && (forall i :: 0 <= i < |LoadSources(db, r).value| ==> LoadSources(db, r).value[i].amount > 0)
            && SourceTotal(LoadSources(db, r).value) == db.reservations[r].target
  {
    InitialInv(start);
    RunKeeps(start, events);
    var db := RunAll(start, events);
    SourcesOf(db, w, 0);
    assert TransferOk(db, db.withdrawals[w].reservation);
  }

  // ----- All withdrawals together -----

  /** What the first n withdrawals report to have drawn from one commission flow. */
  function WithdrawnFrom(db: Db, flow: nat, n: nat): int
    requires n <= |db.withdrawals|
  {
    if n == 0 then 0 else
      WithdrawnFrom(db, flow, n - 1) + AmountFrom(LoadSources(db, db.withdrawals[n - 1].reservation).GetOr([]), flow)
  }

  ghost predicate OwnedBy(withdrawals: seq<Withdrawal>, n: nat, reservation: nat)
    requires n <= |withdrawals|
  {
    exists w :: 0 <= w < n && withdrawals[w].reservation == reservation
  }

  /** The value of the rows whose transfer fills the hold of one of the first n withdrawals. */
  ghost function SumOwned(rows: seq<AllocationRow>, values: seq<int>, withdrawals: seq<Withdrawal>, n: nat, m: nat): int
    requires m <= |rows| && |values| == |rows| && n <= |withdrawals|
  {
    if m == 0 then 0 else
      SumOwned(rows, values, withdrawals, n, m - 1)
      + if OwnedBy(withdrawals, n, rows[m - 1].transfer) then values[m - 1] else 0
  }

  lemma {:induction false} OneMoreOwner(rows: seq<AllocationRow>, values: seq<int>, withdrawals: seq<Withdrawal>, n: nat, m: nat)
    requires m <= |rows| && |values| == |rows| && 0 < n <= |withdrawals| && WithdrawalsDistinct(withdrawals)
    ensures SumOwned(rows, values, withdrawals, n, m)
         == SumOwned(rows, values, withdrawals, n - 1, m) + SumOfTransfer(rows, values, withdrawals[n - 1].reservation, m)
  {
    if m > 0 {
      OneMoreOwner(rows, values, withdrawals, n, m - 1);
      var t := rows[m - 1].transfer;
      if OwnedBy(withdrawals, n, t) {
        var w :| 0 <= w < n && withdrawals[w].reservation == t;
        assert w < n - 1 ==> OwnedBy(withdrawals, n - 1, t);
      }
      if withdrawals[n - 1].reservation == t {
        assert OwnedBy(withdrawals, n, t);
      }
    }
  }

  lemma {:induction false} NobodyOwns(rows: seq<AllocationRow>, values: seq<int>, withdrawals: seq<Withdrawal>, m: nat)
    requires m <= |rows| && |values| == |rows|
    ensures SumOwned(rows, values, withdrawals, 0, m) == 0
  {
    if m > 0 {
      NobodyOwns(rows, values, withdrawals, m - 1);
    }
  }

  lemma {:induction false} WithdrawnIsOwned(db: Db, flow: nat, n: nat)
    requires Inv(db) && n <= |db.withdrawals|
    ensures WithdrawnFrom(db, flow, n)
         == SumOwned(db.allocations, FlowAmounts(db, flow), db.withdrawals, n, |db.allocations|)
  {
    hide CommandsInv, HoldsInv, LotsInv, ProductInv, SettlementInv, OwnersInv, EffectsInv, Conserved, LoadSources;
    if n == 0 {
      NobodyOwns(db.allocations, FlowAmounts(db, flow), db.withdrawals, |db.allocations|);
    } else {
      WithdrawnIsOwned(db, flow, n - 1);
      SourcesOf(db, n - 1, flow);
      OneMoreOwner(db.allocations, FlowAmounts(db, flow), db.withdrawals, n, |db.allocations|);
    }
  }

  lemma {:induction false} EverybodyOwns(rows: seq<AllocationRow>, values: seq<int>, withdrawals: seq<Withdrawal>, m: nat)
    requires m <= |rows| && |values| == |rows|
    requires forall a :: 0 <= a < m ==> values[a] != 0 ==> OwnedBy(withdrawals, |withdrawals|, rows[a].transfer)
    ensures SumOwned(rows, values, withdrawals, |withdrawals|, m) == Total(values[..m])
  {
    if m > 0 {
      EverybodyOwns(rows, values, withdrawals, m - 1);
      assert values[..m] == values[..m - 1] + [values[m - 1]];
      TotalAppend(values[..m - 1], [values[m - 1]]);
    }
  }

  /** INCOME is only ever drawn by withdrawals. */
  lemma IncomeIsWithdrawn(db: Db, a: nat)
    requires Inv(db) && a < |db.allocations| && db.allocations[a].lot < |db.lots|
    requires db.lots[db.allocations[a].lot].currency == INCOME
    ensures OwnedBy(db.withdrawals, |db.withdrawals|, db.allocations[a].transfer)
  {
    hide CommandsInv, SettlementInv, EffectsInv, Conserved;
    assert AllocationOk(db, a);
    var t := db.allocations[a].transfer;
    assert TransferOk(db, t);
    assert HoldOwned(db, t);
    forall k | 0 <= k < |db.links|
      ensures db.links[k].reservation < |db.reservations| && db.reservations[db.links[k].reservation].currency == POINT
    {
      assert Formed(db, k);
    }
  }

  // ----- Against the lots -----

  /** What the first n lots issued, and what they still hold, of one commission flow's INCOME. */
  function Issued(lots: seq<Lot>, flow: nat, n: nat): int
    requires n <= |lots|
  {
    if n == 0 then 0 else Issued(lots, flow, n - 1) + if IncomeOf(lots, n - 1, flow) then lots[n - 1].original else 0
  }

  function Left(lots: seq<Lot>, flow: nat, n: nat): nat
    requires n <= |lots|
  {
    if n == 0 then 0 else Left(lots, flow, n - 1) + if IncomeOf(lots, n - 1, flow) then lots[n - 1].remaining else 0
  }

  function DrawnFromLots(lots: seq<Lot>, rows: seq<AllocationRow>, flow: nat, n: nat): int
    requires n <= |lots|
  {
    if n == 0 then 0 else
      DrawnFromLots(lots, rows, flow, n - 1) + if IncomeOf(lots, n - 1, flow) then DrawnFromLot(rows, n - 1) else 0
  }

  lemma {:induction false} OneRowsLots(lots: seq<Lot>, rows: seq<AllocationRow>, flow: nat, n: nat)
    requires rows != [] && n <= |lots|
    ensures var last := rows[|rows| - 1];
            DrawnFromLots(lots, rows, flow, n) == DrawnFromLots(lots, rows[..|rows| - 1], flow, n)
              + if last.lot < n && IncomeOf(lots, last.lot, flow) then last.amount else 0
  {
    if n > 0 {
      OneRowsLots(lots, rows, flow, n - 1);
    }
  }

  lemma {:induction false} NothingDrawnFrom(lots: seq<Lot>, flow: nat, n: nat)
    requires n <= |lots|
    ensures DrawnFromLots(lots, [], flow, n) == 0
  {
    if n > 0 {
      NothingDrawnFrom(lots, flow, n - 1);
    }
  }

  /** Counting lot by lot and counting row by row is the same. */
  lemma {:induction false} LotsAreRows(db: Db, flow: nat, m: nat)
    requires m <= |db.allocations|
    ensures DrawnFromLots(db.lots, db.allocations[..m], flow, |db.lots|) == Total(FlowAmounts(db, flow)[..m])
  {
    if m == 0 {
      NothingDrawnFrom(db.lots, flow, |db.lots|);
    } else {
      var values := FlowAmounts(db, flow);
      LotsAreRows(db, flow, m - 1);
      assert db.allocations[..m][..m - 1] == db.allocations[..m - 1];
      OneRowsLots(db.lots, db.allocations[..m], flow, |db.lots|);
      assert values[..m] == values[..m - 1] + [values[m - 1]];
      TotalAppend(values[..m - 1], [values[m - 1]]);
    }
  }

  lemma {:induction false} DrawnIsSpent(db: Db, flow: nat, n: nat)
    requires LotsInv(db) && n <= |db.lots|
    ensures DrawnFromLots(db.lots, db.allocations, flow, n) == Issued(db.lots, flow, n) - Left(db.lots, flow, n)
  {
    if n > 0 {
      DrawnIsSpent(db, flow, n - 1);
      assert LotConserved(db, n - 1);
    }
  }

  lemma FlowAccounted(db: Db, flow: nat)
    requires Inv(db)
    ensures WithdrawnFrom(db, flow, |db.withdrawals|) == Issued(db.lots, flow, |db.lots|) - Left(db.lots, flow, |db.lots|)
  {
    hide CommandsInv, HoldsInv, ProductInv, SettlementInv, OwnersInv, EffectsInv, Conserved;
    var values := FlowAmounts(db, flow);
    WithdrawnIsOwned(db, flow, |db.withdrawals|);
    forall a: nat | a < |db.allocations| && values[a] != 0
      ensures OwnedBy(db.withdrawals, |db.withdrawals|, db.allocations[a].transfer)
    {
      IncomeIsWithdrawn(db, a);
    }
    EverybodyOwns(db.allocations, values, db.withdrawals, |db.allocations|);
    LotsAreRows(db, flow, |db.allocations|);
    assert db.allocations[..|db.allocations|] == db.allocations && values[..|db.allocations|] == values;
    DrawnIsSpent(db, flow, |db.lots|);
  }

  /**
   Over any run, what all withdrawals together report to have drawn from a commission flow is exactly what
   has left the INCOME that flow was settled for, so it never exceeds it.
   */
  lemma LineageIsExact(start: Db, events: seq<Event>, flow: nat)
    requires Initial(start)
    ensures var db := RunAll(start, events);
            var drawn, issued := WithdrawnFrom(db, flow, |db.withdrawals|), Issued(db.lots, flow, |db.lots|);
            drawn == issued - Left(db.lots, flow, |db.lots|) && drawn <= issued
  {
    InitialInv(start);
    RunKeeps(start, events);
    FlowAccounted(RunAll(start, events), flow);
  }
}
