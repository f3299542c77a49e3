/** The point tables and what executing a plan does to them. */
module PointLedger {
  import opened Prelude
  import opened KstTime
  import opened FifoOrder
  import opened PointCore
  import opened SpendLaws

  // Every write is guarded by the values the plan assumed; a missed guard makes the whole execution an error, which
  // rolls the transaction back.

  datatype ChargeState = USABLE | CONSUMED | EXPIRED

  datatype ChargeRow = ChargeRow(
    user: nat, state: ChargeState, paid: int, free: int, unspentPaid: int, unspentFree: int,
    chargedAt: Instant, expiredAt: Option<Instant>)
  {
    function Unspent(kind: Kind): int { if kind == Paid then unspentPaid else unspentFree }
    function Charged(kind: Kind): int { if kind == Paid then paid else free }
  }

  datatype Reason = Given(text: string) | TransferTo(userId: nat)

  datatype SpendRow = SpendRow(user: nat, paid: int, free: int, total: int, reason: Reason) {
    function Spent(kind: Kind): int { if kind == Paid then paid else free }
  }

  /** What one expiry removed; history the program does not store, kept to state lifetime accounts. */
  datatype Removal = Removal(user: nat, paid: int, free: int) {
    function Part(kind: Kind): int { if kind == Paid then paid else free }
  }

  /** A charge's id is its position in the table. */
  datatype Ledger = Ledger(
    charges: seq<ChargeRow>, balances: map<nat, Snapshot>, spends: seq<SpendRow>, removals: seq<Removal>)

  const ZERO := Snapshot(0, 0, 0)

  function BalanceOf(balances: map<nat, Snapshot>, user: nat): Snapshot {
    if user in balances then balances[user] else ZERO
  }

  // ----- Loading a user's world -----

  predicate UsableBy(row: ChargeRow, user: nat) {
    row.user == user && row.state == USABLE
  }

  /** The keys of a user's USABLE charges among the first n rows. */
  function UsableKeys(rows: seq<ChargeRow>, user: nat, n: nat): (keys: seq<Key>)
    requires n <= |rows|
  {
    if n == 0 then [] else
      UsableKeys(rows, user, n - 1)
      + if UsableBy(rows[n - 1], user) then [Key(rows[n - 1].chargedAt, n - 1)] else []
  }

  function FifoKeys(rows: seq<ChargeRow>, user: nat): seq<Key> {
    Order(UsableKeys(rows, user, |rows|))
  }

  function ChargeAt(rows: seq<ChargeRow>, id: nat): ChargeBalance {
    if id < |rows| then ChargeBalance(id, rows[id].unspentPaid, rows[id].unspentFree) else ChargeBalance(id, 0, 0)
  }

  function ChargesAt(rows: seq<ChargeRow>, keys: seq<Key>): (charges: seq<ChargeBalance>)
    ensures |charges| == |keys|
    ensures forall i :: 0 <= i < |keys| ==> charges[i] == ChargeAt(rows, keys[i].id)
  {
    seq(|keys|, i requires 0 <= i < |keys| => ChargeAt(rows, keys[i].id))
  }

  /** `loadPointWorld`: the USABLE charges in spend order. */
  function LoadCharges(rows: seq<ChargeRow>, user: nat): seq<ChargeBalance> {
    ChargesAt(rows, FifoKeys(rows, user))
  }

  function Expirable(rows: seq<ChargeRow>, key: Key): ExpirableCharge {
    ExpirableCharge(key.id, ChargeAt(rows, key.id).unspentPaid, ChargeAt(rows, key.id).unspentFree, key.at)
  }

  /** `loadExpiryWorld`: the same rows with the instant they were charged. */
  function LoadExpirable(rows: seq<ChargeRow>, user: nat): (charges: seq<ExpirableCharge>)
    ensures |charges| == |FifoKeys(rows, user)|
    ensures forall i :: 0 <= i < |charges| ==> charges[i] == Expirable(rows, FifoKeys(rows, user)[i])
  {
    var keys := FifoKeys(rows, user);
    seq(|keys|, i requires 0 <= i < |keys| => Expirable(rows, keys[i]))
  }

  lemma {:induction false} UsableKeysAre(rows: seq<ChargeRow>, user: nat, n: nat)
    requires n <= |rows|
    ensures forall k :: k in UsableKeys(rows, user, n) <==>
                        k.id < n && UsableBy(rows[k.id], user) && k.at == rows[k.id].chargedAt
  {
    if n > 0 {
      UsableKeysAre(rows, user, n - 1);
    }
  }

  lemma {:induction false} UsableKeysDistinct(rows: seq<ChargeRow>, user: nat, n: nat)
    requires n <= |rows|
    ensures DistinctIds(UsableKeys(rows, user, n))
  {
    if n > 0 {
      UsableKeysDistinct(rows, user, n - 1);
      var keys := UsableKeys(rows, user, n - 1);
      forall i | 0 <= i < |keys| ensures keys[i].id < n - 1 {
        assert keys[i] in keys;
        UsableKeysAre(rows, user, n - 1);
      }
    }
  }

  /** The loaded charges are exactly the user's USABLE rows, each once, in charging order. */
  lemma FifoKeysAre(rows: seq<ChargeRow>, user: nat)
    ensures Sorted(FifoKeys(rows, user)) && DistinctIds(FifoKeys(rows, user))
    ensures forall k :: k in FifoKeys(rows, user) <==>
                        k.id < |rows| && UsableBy(rows[k.id], user) && k.at == rows[k.id].chargedAt
  {
    UsableKeysAre(rows, user, |rows|);
    UsableKeysDistinct(rows, user, |rows|);
    OrderSorted(UsableKeys(rows, user, |rows|));
    OrderMembers(UsableKeys(rows, user, |rows|));
  }

  // ----- Executing plans -----

  predicate GuardHolds(rows: seq<ChargeRow>, id: nat, assumedPaid: int, assumedFree: int) {
    id < |rows| && rows[id].state == USABLE
    && rows[id].unspentPaid == assumedPaid && rows[id].unspentFree == assumedFree
  }

  function Consume(row: ChargeRow, a: SpendAllocation): ChargeRow {
    row.(state := if a.depleted then CONSUMED else row.state,
         unspentPaid := row.unspentPaid - a.paid, unspentFree := row.unspentFree - a.free)
  }

  /** The guarded charge updates of a spend, in plan order; `None` when one misses. */
  function ConsumeAll(rows: seq<ChargeRow>, allocations: seq<SpendAllocation>): (r: Option<seq<ChargeRow>>)
    decreases |allocations|
  {
    if allocations == [] then Some(rows) else
      var a := allocations[0];
      if GuardHolds(rows, a.chargeId, a.assumedPaid, a.assumedFree)
      then ConsumeAll(rows[a.chargeId := Consume(rows[a.chargeId], a)], allocations[1..])
      else None
  }

  function SweepRow(row: ChargeRow, at: Instant): ChargeRow {
    row.(state := EXPIRED, unspentPaid := 0, unspentFree := 0, expiredAt := Some(at))
  }

  function SweepAll(rows: seq<ChargeRow>, expirations: seq<Expiration>, at: Instant): (r: Option<seq<ChargeRow>>)
    decreases |expirations|
  {
    if expirations == [] then Some(rows) else
      var e := expirations[0];
      if GuardHolds(rows, e.chargeId, e.assumedPaid, e.assumedFree)
      then SweepAll(rows[e.chargeId := SweepRow(rows[e.chargeId], at)], expirations[1..], at)
      else None
  }

  /** The guarded balance update shared by spend and expiry. */
  function SwapBalance(balances: map<nat, Snapshot>, user: nat, assumed: Snapshot, after: Snapshot)
    : Option<map<nat, Snapshot>>
  {
    if user in balances && balances[user] == assumed then Some(balances[user := after]) else None
  }

  function ApplySpend(ledger: Ledger, user: nat, reason: Reason, plan: SpendPlan): Result<Ledger, PointError> {
    match ConsumeAll(ledger.charges, plan.allocations)
    case None => Err(ConcurrentUpdate)
    case Some(charges) =>
      match SwapBalance(ledger.balances, user, plan.assumed, plan.after)
      case None => Err(ConcurrentUpdate)
      case Some(balances) =>
        Ok(ledger.(charges := charges, balances := balances,
                   spends := ledger.spends + [SpendOf(user, reason, plan)]))
  }

  function SpendOf(user: nat, reason: Reason, plan: SpendPlan): SpendRow {
    SpendRow(user, plan.paidUsage, plan.freeUsage, plan.paidUsage + plan.freeUsage, reason)
  }

  function ApplyExpiry(ledger: Ledger, user: nat, plan: ExpiryPlan): Result<Ledger, PointError> {
    if plan.expirations == [] then Ok(ledger) else
      match SweepAll(ledger.charges, plan.expirations, plan.expiredAt)
      case None => Err(ConcurrentUpdate)
      case Some(charges) =>
        match SwapBalance(ledger.balances, user, plan.assumed, plan.after)
        case None => Err(ConcurrentUpdate)
        case Some(balances) =>
          Ok(ledger.(charges := charges, balances := balances,
                     removals := ledger.removals + [RemovalOf(user, plan)]))
  }

  function RemovalOf(user: nat, plan: ExpiryPlan): Removal {
    Removal(user, RemovedPart(plan.expirations, Paid), RemovedPart(plan.expirations, Free))
  }

  function NewCharge(user: nat, plan: ChargePlan): ChargeRow {
    ChargeRow(user, USABLE, plan.paid, plan.free, plan.paid, plan.free, plan.chargedAt, None)
  }

  function ApplyCharge(ledger: Ledger, user: nat, plan: ChargePlan): Ledger {
    var b := BalanceOf(ledger.balances, user);
    ledger.(charges := ledger.charges + [NewCharge(user, plan)],
            balances := ledger.balances[user := Snapshot(b.paid + plan.paid, b.free + plan.free, b.total + plan.total)])
  }

  function ApplyTransfer(ledger: Ledger, fromUser: nat, toUser: nat, plan: TransferPlan): Result<Ledger, PointError> {
    match ApplySpend(ledger, fromUser, TransferTo(toUser), plan.spend)
    case Err(e) => Err(e)
    case Ok(spent) => Ok(ApplyCharge(spent, toUser, plan.charge))
  }

  // ----- Sums over the tables -----

  function UsablePart(row: ChargeRow, user: nat, kind: Kind): int {
    if UsableBy(row, user) then row.Unspent(kind) else 0
  }

  function UsableSum(rows: seq<ChargeRow>, user: nat, kind: Kind): int {
    if rows == [] then 0 else
      UsableSum(rows[..|rows| - 1], user, kind) + UsablePart(rows[|rows| - 1], user, kind)
  }

  function ChargedSum(rows: seq<ChargeRow>, user: nat, kind: Kind): int {
    if rows == [] then 0 else
      ChargedSum(rows[..|rows| - 1], user, kind)
      + if rows[|rows| - 1].user == user then rows[|rows| - 1].Charged(kind) else 0
  }

  function SpentSum(spends: seq<SpendRow>, user: nat, kind: Kind): int {
    if spends == [] then 0 else
      SpentSum(spends[..|spends| - 1], user, kind)
      + if spends[|spends| - 1].user == user then spends[|spends| - 1].Spent(kind) else 0
  }

  function RemovedSum(removals: seq<Removal>, user: nat, kind: Kind): int {
    if removals == [] then 0 else
      RemovedSum(removals[..|removals| - 1], user, kind)
      + if removals[|removals| - 1].user == user then removals[|removals| - 1].Part(kind) else 0
  }

  /** All users together: the points of one kind still unspent in USABLE charges. */
  function AllUsable(rows: seq<ChargeRow>, kind: Kind): int {
    if rows == [] then 0 else
      AllUsable(rows[..|rows| - 1], kind)
      + if rows[|rows| - 1].state == USABLE then rows[|rows| - 1].Unspent(kind) else 0
  }

  lemma UsableSumAppend(rows: seq<ChargeRow>, row: ChargeRow, user: nat, kind: Kind)
    ensures UsableSum(rows + [row], user, kind) == UsableSum(rows, user, kind) + UsablePart(row, user, kind)
    ensures ChargedSum(rows + [row], user, kind)
         == ChargedSum(rows, user, kind) + if row.user == user then row.Charged(kind) else 0
    ensures AllUsable(rows + [row], kind)
         == AllUsable(rows, kind) + if row.state == USABLE then row.Unspent(kind) else 0
  {
    assert (rows + [row])[..|rows|] == rows;
  }

  lemma {:induction false} UsableSumUpdate(rows: seq<ChargeRow>, i: nat, row: ChargeRow, user: nat, kind: Kind)
    requires i < |rows|
    ensures UsableSum(rows[i := row], user, kind)
         == UsableSum(rows, user, kind) - UsablePart(rows[i], user, kind) + UsablePart(row, user, kind)
    ensures AllUsable(rows[i := row], kind)
         == AllUsable(rows, kind) - (if rows[i].state == USABLE then rows[i].Unspent(kind) else 0)
            + (if row.state == USABLE then row.Unspent(kind) else 0)
    ensures row.user == rows[i].user && row.Charged(kind) == rows[i].Charged(kind) ==>
              ChargedSum(rows[i := row], user, kind) == ChargedSum(rows, user, kind)
  {
    var n := |rows| - 1;
    if i < n {
      assert rows[i := row][..n] == rows[..n][i := row];
      UsableSumUpdate(rows[..n], i, row, user, kind);
    } else {
      assert rows[i := row][..n] == rows[..n];
    }
  }

  // ----- Loading sums to the table's total -----

  function KeySum(rows: seq<ChargeRow>, keys: seq<Key>, kind: Kind): int {
    if keys == [] then 0 else Unspent(ChargeAt(rows, keys[0].id), kind) + KeySum(rows, keys[1..], kind)
  }

  lemma {:induction false} KeySumInsert(rows: seq<ChargeRow>, e: Key, sorted: seq<Key>, kind: Kind)
    ensures KeySum(rows, Insert(e, sorted), kind) == Unspent(ChargeAt(rows, e.id), kind) + KeySum(rows, sorted, kind)
  {
    if sorted == [] || Before(e, sorted[0]) {
      assert ([e] + sorted)[1..] == sorted;
    } else {
      assert Insert(e, sorted)[1..] == Insert(e, sorted[1..]);
      KeySumInsert(rows, e, sorted[1..], kind);
    }
  }

  lemma {:induction false} KeySumOrder(rows: seq<ChargeRow>, keys: seq<Key>, kind: Kind)
    ensures KeySum(rows, Order(keys), kind) == KeySum(rows, keys, kind)
  {
    if keys != [] {
      KeySumOrder(rows, keys[1..], kind);
      KeySumInsert(rows, keys[0], Order(keys[1..]), kind);
    }
  }

  lemma {:induction false} KeySumAppend(rows: seq<ChargeRow>, a: seq<Key>, b: seq<Key>, kind: Kind)
    ensures KeySum(rows, a + b, kind) == KeySum(rows, a, kind) + KeySum(rows, b, kind)
  {
    if a == [] {
      assert a + b == b;
    } else {
      assert (a + b)[1..] == a[1..] + b;
      KeySumAppend(rows, a[1..], b, kind);
    }
  }

  lemma {:induction false} KeySumUsable(rows: seq<ChargeRow>, user: nat, kind: Kind, n: nat)
    requires n <= |rows|
    ensures KeySum(rows, UsableKeys(rows, user, n), kind) == UsableSum(rows[..n], user, kind)
  {
    if n > 0 {
      KeySumUsable(rows, user, kind, n - 1);
      assert rows[..n][..n - 1] == rows[..n - 1];
      var last := if UsableBy(rows[n - 1], user) then [Key(rows[n - 1].chargedAt, n - 1)] else [];
      KeySumAppend(rows, UsableKeys(rows, user, n - 1), last, kind);
    }
  }

  lemma {:induction false} SumOfKeys(rows: seq<ChargeRow>, keys: seq<Key>)
    ensures SumUsable(ChargesAt(rows, keys)).paid == KeySum(rows, keys, Paid)
    ensures SumUsable(ChargesAt(rows, keys)).free == KeySum(rows, keys, Free)
  {
    if keys != [] {
      assert ChargesAt(rows, keys)[1..] == ChargesAt(rows, keys[1..]);
      SumOfKeys(rows, keys[1..]);
    }
  }

  /** `sumUsableBalance` of the loaded charges is the table's own sum, whatever the order. */
  lemma LoadedSum(rows: seq<ChargeRow>, user: nat)
    ensures SumUsable(LoadCharges(rows, user))
         == Snapshot(UsableSum(rows, user, Paid), UsableSum(rows, user, Free),
                     UsableSum(rows, user, Paid) + UsableSum(rows, user, Free))
  {
    SumTotals(LoadCharges(rows, user));
    SumOfKeys(rows, FifoKeys(rows, user));
    FifoSum(rows, user, Paid);
    FifoSum(rows, user, Free);
  }

  lemma FifoSum(rows: seq<ChargeRow>, user: nat, kind: Kind)
    ensures KeySum(rows, FifoKeys(rows, user), kind) == UsableSum(rows, user, kind)
  {
    assert rows[..|rows|] == rows;
    KeySumOrder(rows, UsableKeys(rows, user, |rows|), kind);
    KeySumUsable(rows, user, kind, |rows|);
  }
}
