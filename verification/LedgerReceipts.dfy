/**
 Under the invariant every committed command has a receipt, and the receipt never changes.

 A result is never stored: it is loaded from the tables whenever a command is answered.  The look-ups are by
 unique columns, the rows they find are never rewritten in the columns that are read, and the allocations of
 a withdrawal are complete as soon as its transfer is.
 */
module LedgerReceipts {
  import opened Prelude
  import opened LedgerTables
  import opened LedgerUseCases
  import opened LedgerHistory
  import opened LedgerInvariant
  import opened LedgerPlans
  import F = FifoOrder

  // ----- Unique look-ups -----

  lemma LotOfOperation(db: Db, l: nat)
    requires LotsDistinct(db.lots) && l < |db.lots| && db.lots[l].source.Some?
    ensures FindLot(db, db.lots[l].source.value.operation) == Some(l)
  {
    FirstIs(db.lots, (x: Lot) => x.source.Some? && x.source.value.operation == db.lots[l].source.value.operation, l);
  }

  lemma SwapOfOperation(db: Db, s: nat)
    requires SwapsDistinct(db.swaps) && s < |db.swaps|
    ensures FindSwap(db, db.swaps[s].operation) == Some(s)
  {
    FirstIs(db.swaps, (x: Swap) => x.operation == db.swaps[s].operation, s);
  }

  lemma WithdrawalOfFlow(db: Db, w: nat)
    requires WithdrawalsDistinct(db.withdrawals) && w < |db.withdrawals|
    ensures FindWithdrawal(db, db.withdrawals[w].flow) == Some(w)
  {
    FirstIs(db.withdrawals, (x: Withdrawal) => x.flow == db.withdrawals[w].flow, w);
  }

  lemma ContractOfOrder(db: Db, k: nat)
    requires FormedDistinct(db) && k < |db.contracts|
    ensures FindContract(db, db.contracts[k].order) == Some(k)
  {
    FirstIs(db.contracts, (x: Contract) => x.order == db.contracts[k].order, k);
  }

  lemma TransferOfReservation(db: Db, r: nat)
    requires HoldsInv(db) && r < |db.transfers|
    ensures FindTransfer(db, r) == Some(r)
  {
    forall t | 0 <= t <= r ensures db.transfers[t].reservation == t { assert TransferOk(db, t); }
    FirstIs(db.transfers, (x: Transfer) => x.reservation == r, r);
  }

  // ----- Sources of a withdrawal -----

  lemma {:induction false} TransferKeysAre(rows: seq<AllocationRow>, transfer: nat, n: nat)
    requires n <= |rows|
    ensures forall k :: k in TransferKeys(rows, transfer, n) <==>
                        k.id < n && rows[k.id].transfer == transfer && k.at == rows[k.id].lot
  {
    if n > 0 {
      TransferKeysAre(rows, transfer, n - 1);
    }
  }

  ghost predicate SourcedKeys(db: Db, keys: seq<F.Key>) {
    forall i :: 0 <= i < |keys| ==>
      keys[i].id < |db.allocations| && CommissionSourced(db.lots, db.allocations[keys[i].id].lot)
  }

  lemma {:induction false} CollectSucceeds(db: Db, keys: seq<F.Key>)
    requires SourcedKeys(db, keys)
    ensures CollectSources(db, keys).Some?
  {
    if keys != [] {
      CollectSucceeds(db, keys[..|keys| - 1]);
    }
  }

  ghost function KeysOf(db: Db, transfer: nat): seq<F.Key> {
    F.Order(TransferKeys(db.allocations, transfer, |db.allocations|))
  }

  /** Everything a withdrawal drew came from commission settlements. */
  lemma WithdrawnLotsAreSourced(db: Db, w: nat)
    requires Inv(db) && w < |db.withdrawals|
    ensures db.withdrawals[w].reservation < |db.transfers|
    ensures SourcedKeys(db, KeysOf(db, db.withdrawals[w].reservation))
  {
    assert WithdrawalOk(db, w);
    var r := db.withdrawals[w].reservation;
    assert TransferOk(db, r);
    var keys := KeysOf(db, r);
    TransferKeysAre(db.allocations, r, |db.allocations|);
    F.OrderMembers(TransferKeys(db.allocations, r, |db.allocations|));
    forall i | 0 <= i < |keys|
      ensures keys[i].id < |db.allocations| && CommissionSourced(db.lots, db.allocations[keys[i].id].lot)
    {
      assert keys[i] in keys;
      assert AllocationOk(db, keys[i].id);
      assert LotSourced(db, db.allocations[keys[i].id].lot);
    }
  }

  lemma SourcesLoad(db: Db, w: nat)
    requires Inv(db) && w < |db.withdrawals|
    ensures LoadSources(db, db.withdrawals[w].reservation).Some?
    ensures LoadSources(db, db.withdrawals[w].reservation)
         == CollectSources(db, KeysOf(db, db.withdrawals[w].reservation))
  {
    WithdrawnLotsAreSourced(db, w);
    TransferOfReservation(db, db.withdrawals[w].reservation);
    CollectSucceeds(db, KeysOf(db, db.withdrawals[w].reservation));
  }

  // ----- Receipts load -----

  /** A committed command can always be answered. */
  lemma ReceiptLoads(db: Db, i: nat, replayed: bool)
    requires Inv(db) && i < |db.commands|
    ensures LoadReceipt(db, i, replayed).Ok?
  {
    assert CommandOk(db, i);
    assert EffectOk(db, i);
    match db.commands[i].kind
    case PAY =>
      var k: nat :| PaidBy(db, i, k);
      assert Formed(db, k);
      LinkUnique(db, k);
      ContractOfOrder(db, k);
    case SETTLE =>
      var s: nat :| SettledBy(db, i, s);
      SwapOfOperation(db, s);
      assert SwapOk(db, s);
      var l: nat :| LotOfSwap(db, s, l);
      LotOfOperation(db, l);
    case CHARGE =>
      var l: nat :| ChargedBy(db, i, l);
      LotOfOperation(db, l);
    case WITHDRAW =>
      var w: nat :| WithdrawnBy(db, i, w);
      WithdrawalOfFlow(db, w);
      SourcesLoad(db, w);
    case _ =>
  }

  // ----- Receipts do not change -----

  /** The allocations of a filled transfer are complete: none is ever added. */
  lemma {:induction false} NoLaterAllocation(rows: seq<AllocationRow>, n: nat, transfer: nat)
    requires n <= |rows| && forall a :: 0 <= a < |rows| ==> rows[a].amount > 0
    ensures DrawnByTransfer(rows[..n], transfer) <= DrawnByTransfer(rows, transfer)
    ensures DrawnByTransfer(rows[..n], transfer) == DrawnByTransfer(rows, transfer) ==>
              forall a :: n <= a < |rows| ==> rows[a].transfer != transfer
  {
    if n == |rows| {
      assert rows[..n] == rows;
    } else {
      var m := |rows| - 1;
      assert rows[..m][..n] == rows[..n];
      NoLaterAllocation(rows[..m], n, transfer);
    }
  }

  lemma {:induction false} SameTransferKeys(a: seq<AllocationRow>, b: seq<AllocationRow>, transfer: nat, n: nat)
    requires a <= b && n <= |b|
    requires forall x :: |a| <= x < |b| ==> b[x].transfer != transfer
    ensures TransferKeys(b, transfer, n) == TransferKeys(a, transfer, if n <= |a| then n else |a|)
  {
    if n > 0 {
      SameTransferKeys(a, b, transfer, n - 1);
    }
  }

  lemma {:induction false} SameCollected(a: Db, b: Db, keys: seq<F.Key>)
    requires Extends(a, b) && SourcedKeys(a, keys)
    ensures CollectSources(b, keys) == CollectSources(a, keys)
  {
    if keys != [] {
      SameCollected(a, b, keys[..|keys| - 1]);
      var id := keys[|keys| - 1].id;
      assert b.allocations[id] == a.allocations[id];
    }
  }

  lemma SourcesStable(a: Db, b: Db, w: nat)
    requires Inv(a) && Inv(b) && Extends(a, b) && w < |a.withdrawals|
    ensures w < |b.withdrawals| && b.withdrawals[w] == a.withdrawals[w]
    ensures KeysOf(b, a.withdrawals[w].reservation) == KeysOf(a, a.withdrawals[w].reservation)
    ensures LoadSources(b, a.withdrawals[w].reservation) == LoadSources(a, a.withdrawals[w].reservation)
  {
    var r := a.withdrawals[w].reservation;
    WithdrawnLotsAreSourced(a, w);
    SourcesLoad(a, w);
    SourcesLoad(b, w);
    AllocationsComplete(a, b, r);
    SameTransferKeys(a.allocations, b.allocations, r, |b.allocations|);
    SameCollected(a, b, KeysOf(a, r));
  }

  lemma AllocationsComplete(a: Db, b: Db, t: nat)
    requires Inv(a) && Inv(b) && Extends(a, b) && t < |a.transfers|
    ensures forall x :: |a.allocations| <= x < |b.allocations| ==> b.allocations[x].transfer != t
  {
    assert b.allocations[..|a.allocations|] == a.allocations;
    assert b.transfers[t] == a.transfers[t];
    forall x | 0 <= x < |b.allocations| ensures b.allocations[x].amount > 0 { assert AllocationOk(b, x); }
    NoLaterAllocation(b.allocations, |a.allocations|, t);
  }

  /** Once a command has committed, it is answered the same way for ever. */
  lemma ReceiptStable(a: Db, b: Db, i: nat, replayed: bool)
    requires Inv(a) && Inv(b) && Extends(a, b) && i < |a.commands|
    ensures i < |b.commands| && LoadReceipt(b, i, replayed) == LoadReceipt(a, i, replayed)
  {
    hide HoldsInv, ProductInv, SettlementInv, OwnersInv, Conserved, Formed, LoadSources;
    assert CommandOk(a, i) && EffectOk(a, i);
    assert b.commands[i] == a.commands[i];
    assert b.operations[a.commands[i].result.value] == a.operations[a.commands[i].result.value];
    match a.commands[i].kind
    case PAY =>
      var k: nat :| PaidBy(a, i, k);
      PayEffectStable(a, b, i, k);
    case SETTLE =>
      var s: nat :| SettledBy(a, i, s);
      SettleEffectStable(a, b, i, s);
    case CHARGE =>
      var l: nat :| ChargedBy(a, i, l);
      LotOfOperation(a, l);
      LotOfOperation(b, l);
    case WITHDRAW =>
      var w: nat :| WithdrawnBy(a, i, w);
      SourcesStable(a, b, w);
      WithdrawalOfFlow(a, w);
      WithdrawalOfFlow(b, w);
    case _ =>
  }

  lemma PayEffectStable(a: Db, b: Db, i: nat, k: nat)
    requires Inv(a) && Inv(b) && Extends(a, b) && PaidBy(a, i, k) && CommandOk(a, i)
    ensures LoadEffect(b, a.commands[i], a.commands[i].result.value) == LoadEffect(a, a.commands[i], a.commands[i].result.value)
  {
    hide CommandsInv, HoldsInv, LotsInv, SettlementInv, WithdrawalsInv, OwnersInv, EffectsInv, Conserved, StatesInStep,
         PaidThrough, LotsMove;
    assert Formed(a, k);
    assert b.links[k] == a.links[k] && b.contracts[k] == a.contracts[k];
    LinkUnique(a, k);
    LinkUnique(b, k);
    ContractOfOrder(a, k);
    ContractOfOrder(b, k);
  }

  lemma SettleEffectStable(a: Db, b: Db, i: nat, s: nat)
    requires Inv(a) && Inv(b) && Extends(a, b) && SettledBy(a, i, s) && CommandOk(a, i)
    ensures LoadEffect(b, a.commands[i], a.commands[i].result.value) == LoadEffect(a, a.commands[i], a.commands[i].result.value)
  {
    assert b.swaps[s] == a.swaps[s];
    assert b.contracts[a.commands[i].subject.contractId] == a.contracts[a.commands[i].subject.contractId];
    SwapOfOperation(a, s);
    SwapOfOperation(b, s);
    assert SwapOk(a, s);
    var l: nat :| LotOfSwap(a, s, l);
    LotOfOperation(a, l);
    LotOfOperation(b, l);
  }
}
