/**
 Which point charges paid for a hold: the trace adds up, charge by charge, and fails exactly when it must.
 */
module LedgerFunding {
  import opened Prelude
  import opened LedgerTables
  import opened LedgerUseCases
  import opened LedgerHistory
  import opened LedgerInvariant
  import opened LedgerReceipts
  import opened LedgerRuns
  import opened LedgerLineage
  import F = FifoOrder

  /** One allocation of the hold, with the charge that minted its lot. */
  datatype FundingPart = FundingPart(lot: nat, operation: nat, flow: nat, amount: int)

  /** The allocation row names a lot minted by a point charge. */
  predicate ChargeFunded(db: Db, a: nat) {
    a < |db.allocations| && db.allocations[a].lot < |db.lots|
    && var source := db.lots[db.allocations[a].lot].source;
       source.Some? && source.value.flowKind == POINT_CHARGE && source.value.kind == CHARGE
  }

  function PartOf(db: Db, a: nat): FundingPart
    requires ChargeFunded(db, a)
  {
    var row := db.allocations[a];
    var source := db.lots[row.lot].source.value;
    FundingPart(row.lot, source.operation, source.flow, row.amount)
  }

  /** `identifyPointChargeFundingSources`: every allocation in order, or nothing at all. */
  function Identify(db: Db, keys: seq<F.Key>): Option<seq<FundingPart>> {
    if keys == [] then Some([])
    else if !ChargeFunded(db, keys[0].id) then None
    else
      match Identify(db, keys[1..])
      case None => None
      case Some(rest) => Some([PartOf(db, keys[0].id)] + rest)
  }

  /** `traceCommissionFunding`. */
  function TraceFunding(db: Db, reservation: nat): Result<seq<FundingPart>, Rejection> {
    if reservation >= |db.reservations| then Err(NotFound("reservation")) else
      match FindTransfer(db, reservation)
      case None => Ok([])
      case Some(t) =>
        match Identify(db, F.Order(TransferKeys(db.allocations, t, |db.allocations|)))
        case None => Err(InvalidRequest)
        case Some(parts) => Ok(parts)
  }

  // ----- One trace -----

  function PartsTotal(parts: seq<FundingPart>): int {
    if parts == [] then 0 else parts[0].amount + PartsTotal(parts[1..])
  }

  function PartsFrom(parts: seq<FundingPart>, lot: nat): int {
    if parts == [] then 0 else (if parts[0].lot == lot then parts[0].amount else 0) + PartsFrom(parts[1..], lot)
  }

  /** What each allocation row took of one lot. */
  function LotAmounts(db: Db, lot: nat): (values: seq<int>)
    ensures |values| == |db.allocations|
    ensures forall a :: 0 <= a < |values| ==>
              values[a] == if db.allocations[a].lot == lot then db.allocations[a].amount else 0
  {
    seq(|db.allocations|, a requires 0 <= a < |db.allocations| =>
      if db.allocations[a].lot == lot then db.allocations[a].amount else 0)
  }

  lemma {:induction false} Identified(db: Db, keys: seq<F.Key>, lot: nat)
    ensures Identify(db, keys).Some? <==> forall i :: 0 <= i < |keys| ==> ChargeFunded(db, keys[i].id)
    ensures Identify(db, keys).Some? ==>
              var parts := Identify(db, keys).value;
              && |parts| == |keys| && (forall i :: 0 <= i < |keys| ==> parts[i] == PartOf(db, keys[i].id))
              && PartsTotal(parts) == SumKeys(RowAmounts(db.allocations), keys)
              && PartsFrom(parts, lot) == SumKeys(LotAmounts(db, lot), keys)
  {
    if keys != [] {
      assert keys == [keys[0]] + keys[1..];
      Identified(db, keys[1..], lot);
    }
  }

  /** What one hold drew from one lot. */
  function DrawnByHold(db: Db, reservation: nat, lot: nat): int {
    SumOfTransfer(db.allocations, LotAmounts(db, lot), reservation, |db.allocations|)
  }

  ghost predicate HoldFunded(db: Db, reservation: nat) {
    forall a :: 0 <= a < |db.allocations| && db.allocations[a].transfer == reservation ==> ChargeFunded(db, a)
  }

  lemma Traced(db: Db, r: nat, lot: nat)
    requires Inv(db) && r < |db.reservations|
    ensures TraceFunding(db, r).Ok? <==> HoldFunded(db, r)
    ensures TraceFunding(db, r).Ok? ==>
              var parts := TraceFunding(db, r).value;
              && PartsTotal(parts) == db.reservations[r].target
              && PartsFrom(parts, lot) == DrawnByHold(db, r, lot)
              && forall i :: 0 <= i < |parts| ==>
                   exists a: nat :: ChargeFunded(db, a) && db.allocations[a].transfer == r && parts[i] == PartOf(db, a)
  {
    hide CommandsInv, LotsInv, ProductInv, SettlementInv, WithdrawalsInv, OwnersInv, EffectsInv, Conserved, ChargeFunded,
         PartOf;
    var rows, keys := db.allocations, KeysOf(db, r);
    assert TransferOk(db, r);
    TransferOfReservation(db, r);
    Identified(db, keys, lot);
    FundedKeys(db, r);
    OrderSum(RowAmounts(rows), TransferKeys(rows, r, |rows|));
    OrderSum(LotAmounts(db, lot), TransferKeys(rows, r, |rows|));
    TransferKeysSum(rows, RowAmounts(rows), r, |rows|);
    TransferKeysSum(rows, LotAmounts(db, lot), r, |rows|);
    SumIsDrawn(rows, r, |rows|);
    assert rows[..|rows|] == rows;
  }

  /** The loaded keys are the hold's allocation rows. */
  lemma FundedKeys(db: Db, r: nat)
    ensures var keys := KeysOf(db, r);
            && ((forall i :: 0 <= i < |keys| ==> ChargeFunded(db, keys[i].id)) <==> HoldFunded(db, r))
            && forall i :: 0 <= i < |keys| ==> keys[i].id < |db.allocations| && db.allocations[keys[i].id].transfer == r
  {
    hide ChargeFunded;
    var raw, keys := TransferKeys(db.allocations, r, |db.allocations|), KeysOf(db, r);
    TransferKeysAre(db.allocations, r, |db.allocations|);
    F.OrderMembers(raw);
    forall i | 0 <= i < |keys| ensures keys[i].id < |db.allocations| && db.allocations[keys[i].id].transfer == r {
      assert keys[i] in keys;
    }
    forall a: nat | a < |db.allocations| && db.allocations[a].transfer == r
      ensures exists i :: 0 <= i < |keys| && keys[i].id == a
    {
      assert F.Key(db.allocations[a].lot, a) in keys;
    }
  }

  // ----- Where an untraceable hold drew from -----

  /** The hold drew on a lot that was there before the run began. */
  ghost predicate DrewOnInitial(start: Db, db: Db, reservation: nat) {
    exists a :: 0 <= a < |db.allocations| && db.allocations[a].transfer == reservation && db.allocations[a].lot < |start.lots|
  }

  /** A POINT lot has no charge source exactly if it was there before the run began. */
  lemma UnsourcedIsInitial(start: Db, db: Db, a: nat)
    requires Initial(start) && Extends(start, db) && LotsInv(db) && a < |db.allocations|
    requires db.allocations[a].lot < |db.lots| && db.lots[db.allocations[a].lot].currency == POINT
    ensures ChargeFunded(db, a) <==> db.allocations[a].lot >= |start.lots|
  {
    assert LotSourced(db, db.allocations[a].lot);
  }

  lemma HoldFundedIff(start: Db, db: Db, r: nat)
    requires Initial(start) && Extends(start, db) && Inv(db) && r < |db.reservations|
    requires db.reservations[r].currency == POINT
    ensures HoldFunded(db, r) <==> !DrewOnInitial(start, db, r)
  {
    hide CommandsInv, ProductInv, SettlementInv, WithdrawalsInv, OwnersInv, EffectsInv, Conserved, Initial, Extends, ChargeFunded;
    assert TransferOk(db, r);
    forall a: nat | a < |db.allocations| && db.allocations[a].transfer == r
      ensures ChargeFunded(db, a) <==> db.allocations[a].lot >= |start.lots|
    {
      assert AllocationOk(db, a);
      UnsourcedIsInitial(start, db, a);
    }
  }

  /**
   Over any run, a POINT hold is traced exactly if it drew on no lot that was there before the run began; the
   traced amounts then add up to the hold, and each part is an allocation of the hold with the charge its lot
   was minted by.
   */
  lemma FundingAddsUp(start: Db, events: seq<Event>, r: nat)
    requires Initial(start) && r < |RunAll(start, events).reservations|
    requires RunAll(start, events).reservations[r].currency == POINT
    ensures var db := RunAll(start, events);
            && (TraceFunding(db, r).Err? <==> DrewOnInitial(start, db, r))
            && (TraceFunding(db, r).Ok? ==>
                 var parts := TraceFunding(db, r).value;
                 && PartsTotal(parts) == db.reservations[r].target
                 && forall i :: 0 <= i < |parts| ==>
                      exists a: nat :: ChargeFunded(db, a) && db.allocations[a].transfer == r && parts[i] == PartOf(db, a))
  {
    hide Inv, Initial, RunAll, Extends, TraceFunding, ChargeFunded, DrewOnInitial, HoldFunded, PartOf;
    InitialInv(start);
    RunKeeps(start, events);
    Traced(RunAll(start, events), r, 0);
    HoldFundedIff(start, RunAll(start, events), r);
  }

  // ----- All holds together -----

  /** The value of the first m rows whose transfer is one of the first n. */
  function SumBelow(rows: seq<AllocationRow>, values: seq<int>, n: nat, m: nat): int
    requires m <= |rows| && |values| == |rows|
  {
    if m == 0 then 0 else SumBelow(rows, values, n, m - 1) + if rows[m - 1].transfer < n then values[m - 1] else 0
  }

  lemma {:induction false} OneMoreTransfer(rows: seq<AllocationRow>, values: seq<int>, n: nat, m: nat)
    requires m <= |rows| && |values| == |rows|
    ensures SumBelow(rows, values, 0, m) == 0
    ensures SumBelow(rows, values, n + 1, m) == SumBelow(rows, values, n, m) + SumOfTransfer(rows, values, n, m)
  {
    if m > 0 {
      OneMoreTransfer(rows, values, n, m - 1);
    }
  }

  /** What the first n holds drew from one lot. */
  function DrawnByHolds(db: Db, lot: nat, n: nat): int {
    if n == 0 then 0 else DrawnByHolds(db, lot, n - 1) + DrawnByHold(db, n - 1, lot)
  }

  /** What the traces of the first n holds, those that succeed, report for one lot. */
  function TracedFrom(db: Db, lot: nat, n: nat): int {
    if n == 0 then 0 else
      TracedFrom(db, lot, n - 1)
      + match TraceFunding(db, n - 1) case Ok(parts) => PartsFrom(parts, lot) case Err(_) => 0
  }

  lemma {:induction false} HoldsAreBelow(db: Db, lot: nat, n: nat)
    ensures DrawnByHolds(db, lot, n) == SumBelow(db.allocations, LotAmounts(db, lot), n, |db.allocations|)
  {
    if n == 0 {
      OneMoreTransfer(db.allocations, LotAmounts(db, lot), 0, |db.allocations|);
    } else {
      HoldsAreBelow(db, lot, n - 1);
      OneMoreTransfer(db.allocations, LotAmounts(db, lot), n - 1, |db.allocations|);
    }
  }

  lemma {:induction false} BelowIsDrawn(db: Db, lot: nat, m: nat)
    requires m <= |db.allocations|
    requires forall a :: 0 <= a < m ==> db.allocations[a].transfer < |db.transfers|
    ensures SumBelow(db.allocations, LotAmounts(db, lot), |db.transfers|, m) == DrawnFromLot(db.allocations[..m], lot)
  {
    if m > 0 {
      BelowIsDrawn(db, lot, m - 1);
      assert db.allocations[..m][..m - 1] == db.allocations[..m - 1];
    }
  }

  /** All holds together drew from a lot exactly what has left it. */
  lemma HoldsDrainLot(db: Db, lot: nat)
    requires Inv(db) && lot < |db.lots|
    ensures DrawnByHolds(db, lot, |db.reservations|) == db.lots[lot].original - db.lots[lot].remaining
  {
    hide CommandsInv, ProductInv, SettlementInv, WithdrawalsInv, OwnersInv, EffectsInv, Conserved;
    HoldsAreBelow(db, lot, |db.transfers|);
    forall a | 0 <= a < |db.allocations| ensures db.allocations[a].transfer < |db.transfers| {
      assert AllocationOk(db, a);
    }
    BelowIsDrawn(db, lot, |db.allocations|);
    assert db.allocations[..|db.allocations|] == db.allocations;
    assert LotConserved(db, lot);
  }

  lemma {:induction false} DrawsArePositive(db: Db, r: nat, lot: nat, m: nat)
    requires LotsInv(db) && m <= |db.allocations|
    ensures SumOfTransfer(db.allocations, LotAmounts(db, lot), r, m) >= 0
  {
    if m > 0 {
      DrawsArePositive(db, r, lot, m - 1);
      assert AllocationOk(db, m - 1);
    }
  }

  ghost predicate NothingMissing(db: Db, lot: nat, n: nat) {
    forall r: nat :: r < n && TraceFunding(db, r).Err? ==> DrawnByHold(db, r, lot) == 0
  }

  /** The traces miss exactly what the untraceable holds drew. */
  lemma {:induction false} TracesCover(db: Db, lot: nat, n: nat)
    requires Inv(db) && n <= |db.reservations|
    ensures TracedFrom(db, lot, n) <= DrawnByHolds(db, lot, n)
    ensures TracedFrom(db, lot, n) == DrawnByHolds(db, lot, n) <==> NothingMissing(db, lot, n)
  {
    hide Inv, TraceFunding, DrawnByHold;
    if n > 0 {
      TracesCover(db, lot, n - 1);
      Traced(db, n - 1, lot);
      HoldDrawsPositive(db, n - 1, lot);
    }
  }

  lemma HoldDrawsPositive(db: Db, r: nat, lot: nat)
    requires Inv(db)
    ensures DrawnByHold(db, r, lot) >= 0
  {
    DrawsArePositive(db, r, lot, |db.allocations|);
  }

  /**
   Over any run, what all holds together drew from the lot of a charge is issued minus remaining; the traces
   report all of it exactly if no untraceable hold drew on the lot.
   */
  lemma FundingIsExact(start: Db, events: seq<Event>, lot: nat)
    requires Initial(start) && lot < |RunAll(start, events).lots|
    ensures var db := RunAll(start, events);
            var drained := db.lots[lot].original - db.lots[lot].remaining;
            && DrawnByHolds(db, lot, |db.reservations|) == drained
            && TracedFrom(db, lot, |db.reservations|) <= drained
            && (TracedFrom(db, lot, |db.reservations|) == drained <==> NothingMissing(db, lot, |db.reservations|))
  {
    hide Inv, Initial, TraceFunding, NothingMissing;
    InitialInv(start);
    RunKeeps(start, events);
    HoldsDrainLot(RunAll(start, events), lot);
    TracesCover(RunAll(start, events), lot, |RunAll(start, events).reservations|);
  }

  /** Draws of an INCOME hold are not from POINT lots. */
  lemma {:induction false} OtherCurrencyDrawsNothing(db: Db, r: nat, lot: nat, m: nat)
    requires HoldsInv(db) && LotsInv(db) && r < |db.reservations| && lot < |db.lots| && m <= |db.allocations|
    requires db.reservations[r].currency != db.lots[lot].currency
    ensures SumOfTransfer(db.allocations, LotAmounts(db, lot), r, m) == 0
  {
    if m > 0 {
      OtherCurrencyDrawsNothing(db, r, lot, m - 1);
      assert AllocationOk(db, m - 1) && TransferOk(db, r);
    }
  }

  /** When all POINT came from charges, the traces of a charge's lot report exactly what has left it. */
  lemma ChargesFundEverything(start: Db, events: seq<Event>, lot: nat)
    requires Initial(start) && start.lots == [] && lot < |RunAll(start, events).lots|
    requires RunAll(start, events).lots[lot].currency == POINT
    ensures var db := RunAll(start, events);
            TracedFrom(db, lot, |db.reservations|) == db.lots[lot].original - db.lots[lot].remaining
  {
    hide Initial, CommandsInv, ProductInv, SettlementInv, WithdrawalsInv, OwnersInv, EffectsInv, Conserved, RunAll,
         TraceFunding;
    InitialInv(start);
    RunKeeps(start, events);
    var db := RunAll(start, events);
    FundingIsExact(start, events, lot);
    forall r: nat | r < |db.reservations| && TraceFunding(db, r).Err? ensures DrawnByHold(db, r, lot) == 0 {
      if db.reservations[r].currency == POINT {
        FundingAddsUp(start, events, r);
        assert false;
      }
      OtherCurrencyDrawsNothing(db, r, lot, |db.allocations|);
    }
  }
}
