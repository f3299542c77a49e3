/**
 Facts about existing rows survive any transaction, and sums over tables follow the writes.

 A `...Stable` lemma says that a predicate of the invariant, true of a row before a transaction that only
 extends the tables, is true of it afterwards.  The rest are the laws of the sums in the invariant under the
 three writes there are: appending a row, lowering a lot's remainder, and settling a hold.
 */
module LedgerStable {
  import opened Prelude
  import opened ReservationPlans
  import opened LedgerTables
  import opened LotQueue
  import opened LedgerUseCases
  import opened LedgerHistory
  import opened LedgerInvariant

  lemma CommandStable(a: Db, b: Db, i: nat)
    requires Extends(a, b) && CommandOk(a, i)
    ensures CommandOk(b, i)
  {
  }

  lemma OperationStable(a: Db, b: Db, op: nat)
    requires Extends(a, b) && OperationOk(a, op)
    ensures OperationOk(b, op)
  {
  }

  lemma ActionStable(a: Db, b: Db, x: nat)
    requires Extends(a, b) && ActionOk(a, x)
    ensures ActionOk(b, x)
  {
  }

  lemma TransferStable(a: Db, b: Db, t: nat)
    requires Extends(a, b) && TransferOk(a, t)
    ensures TransferOk(b, t)
  {
  }

  lemma EscrowStable(a: Db, b: Db, i: nat)
    requires Extends(a, b) && EscrowOk(a, i)
    ensures EscrowOk(b, i)
  {
  }

  lemma AllocationStable(a: Db, b: Db, x: nat)
    requires Extends(a, b) && AllocationOk(a, x)
    ensures AllocationOk(b, x)
  {
  }

  lemma LotSourcedStable(a: Db, b: Db, l: nat)
    requires Extends(a, b) && LotSourced(a, l)
    ensures LotSourced(b, l)
  {
  }

  lemma FormedStable(a: Db, b: Db, k: nat)
    requires Extends(a, b) && Formed(a, k)
    ensures Formed(b, k)
  {
    assert b.contracts[k] == a.contracts[k] && b.links[k] == a.links[k];
    var c, l := a.contracts[k], a.links[k];
    assert b.transfers[l.reservation] == a.transfers[l.reservation];
    assert PaidThrough(b, k) by {
      var x := a.transfers[l.reservation].action;
      assert b.actions[x] == a.actions[x];
      var op := a.actions[x].operation;
      assert b.operations[op] == a.operations[op];
      assert b.commands[a.operations[op].command] == a.commands[a.operations[op].command];
    }
  }

  lemma SwapStable(a: Db, b: Db, s: nat)
    requires Extends(a, b) && SwapOk(a, s)
    ensures SwapOk(b, s)
  {
    var k: nat :| LinkOfSwap(a, s, k);
    var l: nat :| LotOfSwap(a, s, l);
    assert LinkOfSwap(b, s, k) && LotOfSwap(b, s, l);
    assert b.legs[2 * s] == a.legs[2 * s] && b.legs[2 * s + 1] == a.legs[2 * s + 1];
  }

  lemma HoldOwnedStable(a: Db, b: Db, r: nat)
    requires Extends(a, b) && HoldOwned(a, r)
    ensures HoldOwned(b, r)
  {
    if a.reservations[r].purpose == CommissionPayment {
      var k: nat :| 0 <= k < |a.links| && a.links[k].reservation == r;
      assert b.links[k].reservation == r;
    } else {
      var w: nat :| 0 <= w < |a.withdrawals| && a.withdrawals[w].reservation == r;
      assert b.withdrawals[w].reservation == r;
    }
  }

  lemma EffectStable(a: Db, b: Db, i: nat)
    requires Extends(a, b) && EffectOk(a, i)
    ensures EffectOk(b, i)
  {
    assert b.commands[i] == a.commands[i];
    match a.commands[i].kind
    case PAY =>
      var k: nat :| PaidBy(a, i, k);
      assert PaidBy(b, i, k) by {
        assert b.links[k] == a.links[k];
        assert b.transfers[a.links[k].reservation] == a.transfers[a.links[k].reservation];
        assert b.actions[a.transfers[a.links[k].reservation].action] == a.actions[a.transfers[a.links[k].reservation].action];
      }
    case SETTLE =>
      var s: nat :| SettledBy(a, i, s);
      assert SettledBy(b, i, s) by {
        assert b.swaps[s] == a.swaps[s];
        var k := a.commands[i].subject.contractId;
        assert b.contracts[k] == a.contracts[k] && b.links[k] == a.links[k];
      }
    case CHARGE =>
      var l: nat :| ChargedBy(a, i, l);
      assert ChargedBy(b, i, l);
    case WITHDRAW =>
      var w: nat :| WithdrawnBy(a, i, w);
      assert WithdrawnBy(b, i, w) by {
        assert b.withdrawals[w] == a.withdrawals[w];
      }
    case _ =>
  }

  // ----- Sums -----

  lemma LotTotalsAppend(lots: seq<Lot>, lot: Lot, currency: Currency)
    ensures Originals(lots + [lot], currency)
         == Originals(lots, currency) + if lot.currency == currency then lot.original else 0
    ensures Remainings(lots + [lot], currency)
         == Remainings(lots, currency) + if lot.currency == currency then lot.remaining else 0
  {
    assert (lots + [lot])[..|lots|] == lots;
  }

  lemma {:induction false} LotTotalsUpdate(lots: seq<Lot>, i: nat, amount: int, currency: Currency)
    requires i < |lots| && amount <= lots[i].remaining
    ensures Originals(lots[i := Decrement(lots[i], amount)], currency) == Originals(lots, currency)
    ensures Remainings(lots[i := Decrement(lots[i], amount)], currency)
         == Remainings(lots, currency) - if lots[i].currency == currency then amount else 0
  {
    var n := |lots| - 1;
    var after := lots[i := Decrement(lots[i], amount)];
    if i < n {
      assert after[..n] == lots[..n][i := Decrement(lots[i], amount)];
      LotTotalsUpdate(lots[..n], i, amount, currency);
    } else {
      assert after[..n] == lots[..n];
    }
  }

  /** The guarded loop takes the planned total from the account's currency, and nothing else. */
  lemma {:induction false} TakeAllTotals(
    lots: seq<Lot>, account: nat, currency: Currency, allocations: seq<Allocation>, other: Currency)
    requires TakeAll(lots, account, currency, allocations).Some?
    ensures var after := TakeAll(lots, account, currency, allocations).value;
            && Originals(after, other) == Originals(lots, other)
            && Remainings(after, other)
               == Remainings(lots, other) - if other == currency then Total(Amounts(allocations)) else 0
    decreases |allocations|
  {
    if allocations != [] {
      var a := allocations[0];
      LotTotalsUpdate(lots, a.lotId, a.amount, other);
      TakeAllTotals(lots[a.lotId := Decrement(lots[a.lotId], a.amount)], account, currency, allocations[1..], other);
      assert Amounts(allocations)[1..] == Amounts(allocations[1..]);
    }
  }

  lemma HoldsAppend(rows: seq<Reservation>, row: Reservation, currency: Currency, state: ReservationState)
    ensures Holds(rows + [row], currency, state)
         == Holds(rows, currency, state) + if row.currency == currency && row.state == state then row.target else 0
  {
    assert (rows + [row])[..|rows|] == rows;
  }

  lemma {:induction false} HoldsSettle(rows: seq<Reservation>, i: nat, currency: Currency)
    requires i < |rows| && rows[i].state == HELD
    ensures var after := rows[i := rows[i].(state := SETTLED)];
            var moved := if rows[i].currency == currency then rows[i].target else 0;
            && Holds(after, currency, HELD) == Holds(rows, currency, HELD) - moved
            && Holds(after, currency, SETTLED) == Holds(rows, currency, SETTLED) + moved
  {
    var n := |rows| - 1;
    var after := rows[i := rows[i].(state := SETTLED)];
    if i < n {
      assert after[..n] == rows[..n][i := rows[i].(state := SETTLED)];
      HoldsSettle(rows[..n], i, currency);
    } else {
      assert after[..n] == rows[..n];
    }
  }

  lemma {:induction false} DrawnAppend(a: seq<AllocationRow>, b: seq<AllocationRow>, lot: nat, transfer: nat)
    ensures DrawnFromLot(a + b, lot) == DrawnFromLot(a, lot) + DrawnFromLot(b, lot)
    ensures DrawnByTransfer(a + b, transfer) == DrawnByTransfer(a, transfer) + DrawnByTransfer(b, transfer)
  {
    if b == [] {
      assert a + b == a;
    } else {
      assert (a + b)[..|a + b| - 1] == a + b[..|b| - 1];
      DrawnAppend(a, b[..|b| - 1], lot, transfer);
    }
  }

  lemma {:induction false} RowsDrawn(t: nat, account: nat, currency: Currency, allocations: seq<Allocation>, lot: nat, transfer: nat)
    ensures var rows := AllocationRows(t, account, currency, allocations);
            && DrawnFromLot(rows, lot) == TakenFrom(allocations, lot)
            && DrawnByTransfer(rows, transfer) == if transfer == t then Total(Amounts(allocations)) else 0
  {
    if allocations != [] {
      var rest := AllocationRows(t, account, currency, allocations[1..]);
      var first := AllocationRow(t, account, currency, allocations[0].lotId, allocations[0].amount);
      assert AllocationRows(t, account, currency, allocations) == [first] + rest;
      assert Amounts(allocations)[1..] == Amounts(allocations[1..]);
      RowsDrawn(t, account, currency, allocations[1..], lot, transfer);
      OneDrawn(first, lot, transfer);
      DrawnAppend([first], rest, lot, transfer);
    }
  }

  lemma OneDrawn(row: AllocationRow, lot: nat, transfer: nat)
    ensures DrawnFromLot([row], lot) == if row.lot == lot then row.amount else 0
    ensures DrawnByTransfer([row], transfer) == if row.transfer == transfer then row.amount else 0
  {
    assert [row][..0] == [];
  }

  /** Recording the allocations of a transfer records what they took. */
  lemma AllocationRowsDrawn(
    rows: seq<AllocationRow>, t: nat, account: nat, currency: Currency, allocations: seq<Allocation>, lot: nat, transfer: nat)
    ensures var after := rows + AllocationRows(t, account, currency, allocations);
            && DrawnFromLot(after, lot) == DrawnFromLot(rows, lot) + TakenFrom(allocations, lot)
            && DrawnByTransfer(after, transfer)
               == DrawnByTransfer(rows, transfer) + if transfer == t then Total(Amounts(allocations)) else 0
  {
    DrawnAppend(rows, AllocationRows(t, account, currency, allocations), lot, transfer);
    RowsDrawn(t, account, currency, allocations, lot, transfer);
  }

  lemma {:induction false} NothingDrawn(rows: seq<AllocationRow>, lot: nat, transfer: nat)
    requires forall a :: 0 <= a < |rows| ==> rows[a].lot != lot
    ensures DrawnFromLot(rows, lot) == 0
  {
    if rows != [] {
      NothingDrawn(rows[..|rows| - 1], lot, transfer);
    }
  }

  lemma {:induction false} NothingTransferred(rows: seq<AllocationRow>, transfer: nat)
    requires forall a :: 0 <= a < |rows| ==> rows[a].transfer != transfer
    ensures DrawnByTransfer(rows, transfer) == 0
  {
    if rows != [] {
      NothingTransferred(rows[..|rows| - 1], transfer);
    }
  }

  /** After the guarded loop each lot lost exactly what the allocations name. */
  lemma {:induction false} TakeAllEach(lots: seq<Lot>, account: nat, currency: Currency, allocations: seq<Allocation>, i: nat)
    requires TakeAll(lots, account, currency, allocations).Some? && i < |lots|
    ensures var after := TakeAll(lots, account, currency, allocations).value;
            |after| == |lots| && after[i].remaining == lots[i].remaining - TakenFrom(allocations, i)
            && after[i] == lots[i].(remaining := after[i].remaining)
    decreases |allocations|
  {
    if allocations != [] {
      var a := allocations[0];
      TakeAllEach(lots[a.lotId := Decrement(lots[a.lotId], a.amount)], account, currency, allocations[1..], i);
    }
  }

  /** The guarded loop only touches lots of the account, and every allocation names one. */
  lemma {:induction false} TakeAllOwn(lots: seq<Lot>, account: nat, currency: Currency, allocations: seq<Allocation>, j: nat)
    requires TakeAll(lots, account, currency, allocations).Some? && j < |allocations|
    ensures var lot := allocations[j].lotId;
            lot < |lots| && lots[lot].account == account && lots[lot].currency == currency
    decreases |allocations|
  {
    var a := allocations[0];
    if j > 0 {
      TakeAllOwn(lots[a.lotId := Decrement(lots[a.lotId], a.amount)], account, currency, allocations[1..], j - 1);
    }
  }
}
