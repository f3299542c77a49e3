/** Expiry sweeps compose: sweeping at t1 and then at a later t2 is sweeping at t2, and a repeat changes nothing. */
module ExpiryLaws {
  import opened Prelude
  import opened KstTime
  import opened FifoOrder
  import opened PointCore
  import opened PointLedger
  import opened PointInvariant

  /** The expiry use-case run alone: read, decide, execute. */
  function SweepNow(ledger: Ledger, user: nat, now: Instant): Result<Ledger, PointError> {
    ApplyExpiry(ledger, user, ExpiryDecision(BalanceOf(ledger.balances, user), LoadExpirable(ledger.charges, user), now))
  }

  /** What a sweep does to one row. */
  function SweptRow(row: ChargeRow, user: nat, now: Instant): ChargeRow {
    if UsableBy(row, user) && Due(row.chargedAt, now) then SweepRow(row, now) else row
  }

  ghost predicate FreshExpirations(rows: seq<ChargeRow>, expirations: seq<Expiration>) {
    && (forall j :: 0 <= j < |expirations| ==>
         GuardHolds(rows, expirations[j].chargeId, expirations[j].assumedPaid, expirations[j].assumedFree))
    && DistinctExpirations(expirations)
  }

  ghost predicate Expires(expirations: seq<Expiration>, id: nat) {
    exists j :: 0 <= j < |expirations| && expirations[j].chargeId == id
  }

  lemma {:induction false} FreshSweep(rows: seq<ChargeRow>, expirations: seq<Expiration>, at: Instant, i: nat)
    requires FreshExpirations(rows, expirations) && i < |rows|
    ensures var r := SweepAll(rows, expirations, at);
            && r.Some? && |r.value| == |rows|
            && r.value[i] == if Expires(expirations, i) then SweepRow(rows[i], at) else rows[i]
    decreases |expirations|
  {
    if expirations != [] {
      var e := expirations[0];
      var next := rows[e.chargeId := SweepRow(rows[e.chargeId], at)];
      forall j | 0 <= j < |expirations[1..]|
        ensures GuardHolds(next, expirations[1..][j].chargeId, expirations[1..][j].assumedPaid, expirations[1..][j].assumedFree)
      {
        assert expirations[1..][j] == expirations[j + 1];
      }
      FreshSweep(next, expirations[1..], at, i);
      assert Expires(expirations, i) <==> e.chargeId == i || Expires(expirations[1..], i) by {
        if Expires(expirations[1..], i) {
          var j :| 0 <= j < |expirations[1..]| && expirations[1..][j].chargeId == i;
          assert expirations[j + 1].chargeId == i;
        }
        if Expires(expirations, i) && e.chargeId != i {
          var j :| 0 <= j < |expirations| && expirations[j].chargeId == i;
          assert expirations[1..][j - 1].chargeId == i;
        }
      }
    }
  }

  lemma {:induction false} DueListed(charges: seq<ExpirableCharge>, now: Instant, k: nat)
    requires k < |charges| && Due(charges[k].chargedAt, now)
    ensures Expires(DueExpirations(charges, now), charges[k].id)
  {
    var skip := if Due(charges[0].chargedAt, now) then 1 else 0;
    if k == 0 {
      assert DueExpirations(charges, now)[0].chargeId == charges[0].id;
    } else {
      DueListed(charges[1..], now, k - 1);
      var j :| 0 <= j < |DueExpirations(charges[1..], now)| && DueExpirations(charges[1..], now)[j].chargeId == charges[k].id;
      assert DueExpirations(charges, now)[j + skip].chargeId == charges[k].id;
    }
  }

  /** The loaded expirations name exactly the user's USABLE due rows, with their present remainders. */
  lemma DecidedExpirations(rows: seq<ChargeRow>, user: nat, now: Instant, i: nat)
    requires i < |rows|
    ensures var due := DueExpirations(LoadExpirable(rows, user), now);
            FreshExpirations(rows, due) && (Expires(due, i) <==> UsableBy(rows[i], user) && Due(rows[i].chargedAt, now))
  {
    var charges, keys := LoadExpirable(rows, user), FifoKeys(rows, user);
    FifoKeysAre(rows, user);
    DueDistinct(charges, now);
    var due := DueExpirations(charges, now);
    forall j | 0 <= j < |due|
      ensures GuardHolds(rows, due[j].chargeId, due[j].assumedPaid, due[j].assumedFree)
      ensures UsableBy(rows[due[j].chargeId], user) && Due(rows[due[j].chargeId].chargedAt, now)
    {
      var k := DueFrom(charges, now, j);
      assert keys[k] in keys;
    }
    if UsableBy(rows[i], user) && Due(rows[i].chargedAt, now) {
      var key := Key(rows[i].chargedAt, i);
      assert key in keys;
      var k :| 0 <= k < |keys| && keys[k] == key;
      DueListed(charges, now, k);
    }
  }

  lemma {:induction false} SumCoversRow(rows: seq<ChargeRow>, user: nat, kind: Kind, i: nat)
    requires RowsOk(rows) && i < |rows| && UsableBy(rows[i], user)
    ensures UsableSum(rows, user, kind) >= rows[i].Unspent(kind)
  {
    var n := |rows| - 1;
    if i == n {
      UsableSumNonNegative(rows[..n], user, kind);
    } else {
      SumCoversRow(rows[..n], user, kind, i);
    }
  }

  /** A sweep that runs alone always commits, and touches exactly the user's due USABLE rows. */
  lemma SweepNowRow(ledger: Ledger, user: nat, now: Instant, i: nat)
    requires Inv(ledger) && i < |ledger.charges|
    ensures var r := SweepNow(ledger, user, now);
            r.Ok? && |r.value.charges| == |ledger.charges|
            && r.value.charges[i] == SweptRow(ledger.charges[i], user, now)
  {
    var rows := ledger.charges;
    DecidedExpirations(rows, user, now, i);
    var due := DueExpirations(LoadExpirable(rows, user), now);
    FreshSweep(rows, due, now, i);
    if due != [] {
      var id := due[0].chargeId;
      DecidedExpirations(rows, user, now, id);
      assert Expires(due, id);
      SumCoversRow(rows, user, Paid, id);
      SumCoversRow(rows, user, Free, id);
      UsableSumNonNegative(rows, user, Paid);
      UsableSumNonNegative(rows, user, Free);
      assert BalanceOf(ledger.balances, user) == Summary(rows, user);
      assert user in ledger.balances;
    } else {
      assert !Expires(due, i);
    }
  }

  lemma SweepNowKeeps(ledger: Ledger, user: nat, now: Instant)
    requires Inv(ledger)
    ensures var r := SweepNow(ledger, user, now);
            && r.Ok? && Inv(r.value) && |r.value.charges| == |ledger.charges|
            && (forall other: nat :: other in r.value.balances <==> other in ledger.balances)
            && forall other: nat :: other != user ==>
                 BalanceOf(r.value.balances, other) == BalanceOf(ledger.balances, other)
  {
    DecidedExpiryOk(ledger.charges, user, BalanceOf(ledger.balances, user), now);
    if ledger.charges == [] {
      NothingToSweep(ledger.charges, user, now);
    } else {
      SweepNowRow(ledger, user, now, 0);
    }
    ExpiryKeeps(ledger, user, ExpiryDecision(BalanceOf(ledger.balances, user), LoadExpirable(ledger.charges, user), now));
  }

  lemma NothingToSweep(rows: seq<ChargeRow>, user: nat, now: Instant)
    requires forall i :: 0 <= i < |rows| ==> !(UsableBy(rows[i], user) && Due(rows[i].chargedAt, now))
    ensures DueExpirations(LoadExpirable(rows, user), now) == []
  {
    if DueExpirations(LoadExpirable(rows, user), now) != [] {
      var k := DueFrom(LoadExpirable(rows, user), now, 0);
      LoadedIsUsable(rows, user, k);
      assert false;
    }
  }

  lemma LoadedIsUsable(rows: seq<ChargeRow>, user: nat, k: nat)
    requires k < |FifoKeys(rows, user)|
    ensures var key := FifoKeys(rows, user)[k];
            key.id < |rows| && UsableBy(rows[key.id], user) && key.at == rows[key.id].chargedAt
  {
    FifoKeysAre(rows, user);
    assert FifoKeys(rows, user)[k] in FifoKeys(rows, user);
  }

  /** Equal up to the stamp saying when a charge expired. */
  ghost predicate SameButStamp(a: seq<ChargeRow>, b: seq<ChargeRow>) {
    |a| == |b| && forall i :: 0 <= i < |a| ==> a[i].(expiredAt := None) == b[i].(expiredAt := None)
  }

  lemma {:induction false} StampsDoNotCount(a: seq<ChargeRow>, b: seq<ChargeRow>, user: nat, kind: Kind)
    requires SameButStamp(a, b)
    ensures UsableSum(a, user, kind) == UsableSum(b, user, kind)
  {
    if a != [] {
      var n := |a| - 1;
      assert a[n].(expiredAt := None) == b[n].(expiredAt := None);
      StampsDoNotCount(a[..n], b[..n], user, kind);
    }
  }

  /** Expiring at t1 and then at t2 >= t1 leaves what expiring at t2 alone leaves. */
  lemma SweepsCompose(ledger: Ledger, user: nat, t1: Instant, t2: Instant)
    requires Inv(ledger) && t1 <= t2
    ensures var first := SweepNow(ledger, user, t1);
            var single := SweepNow(ledger, user, t2);
            && first.Ok? && single.Ok?
            && var second := SweepNow(first.value, user, t2);
               && second.Ok?
               && SameButStamp(second.value.charges, single.value.charges)
               && second.value.balances == single.value.balances
  {
    SweepNowKeeps(ledger, user, t1);
    SweepNowKeeps(ledger, user, t2);
    var mid, one := SweepNow(ledger, user, t1).value, SweepNow(ledger, user, t2).value;
    SweepNowKeeps(mid, user, t2);
    var two := SweepNow(mid, user, t2).value;
    forall i | 0 <= i < |ledger.charges|
      ensures two.charges[i].(expiredAt := None) == one.charges[i].(expiredAt := None)
    {
      SweepNowRow(ledger, user, t1, i);
      SweepNowRow(ledger, user, t2, i);
      SweepNowRow(mid, user, t2, i);
    }
    SameBalances(two, one);
  }

  lemma SameBalances(a: Ledger, b: Ledger)
    requires Inv(a) && Inv(b) && SameButStamp(a.charges, b.charges)
    requires forall user: nat :: user in a.balances <==> user in b.balances
    ensures a.balances == b.balances
  {
    forall user: nat ensures BalanceOf(a.balances, user) == BalanceOf(b.balances, user) {
      StampsDoNotCount(a.charges, b.charges, user, Paid);
      StampsDoNotCount(a.charges, b.charges, user, Free);
    }
    forall user | user in a.balances ensures a.balances[user] == b.balances[user] {
      assert BalanceOf(a.balances, user) == BalanceOf(b.balances, user);
    }
  }

  /** A repeat at the same instant finds nothing due and writes nothing. */
  lemma RepeatedSweepIsInert(ledger: Ledger, user: nat, now: Instant)
    requires Inv(ledger)
    ensures SweepNow(ledger, user, now).Ok?
    ensures SweepNow(SweepNow(ledger, user, now).value, user, now) == Ok(SweepNow(ledger, user, now).value)
  {
    SweepNowKeeps(ledger, user, now);
    var swept := SweepNow(ledger, user, now).value;
    forall i | 0 <= i < |swept.charges|
      ensures !(UsableBy(swept.charges[i], user) && Due(swept.charges[i].chargedAt, now))
    {
      SweepNowRow(ledger, user, now, i);
    }
    NothingToSweep(swept.charges, user, now);
  }
}
