/**
 Whose money moves: each success changes the spendable balance of one holder, by the amount asked.
 */
module LedgerBalances {
  import opened Prelude
  import opened ReservationPlans
  import opened LedgerTables
  import opened LotQueue
  import opened LedgerUseCases
  import opened LedgerHistory
  import opened LedgerInvariant
  import opened LedgerPlans
  import opened LedgerRuns
  import opened LedgerFrame

  predicate InPurse(lot: Lot, accounts: seq<Account>, holder: nat, currency: Currency) {
    lot.currency == currency && lot.account < |accounts| && accounts[lot.account].owner == HolderOwner(holder)
  }

  /** What is left of the lots in a holder's own accounts. */
  function Purse(lots: seq<Lot>, accounts: seq<Account>, holder: nat, currency: Currency): nat {
    if lots == [] then 0 else
      Purse(lots[..|lots| - 1], accounts, holder, currency)
      + if InPurse(lots[|lots| - 1], accounts, holder, currency) then lots[|lots| - 1].remaining else 0
  }

  function BalanceOf(db: Db, holder: nat, currency: Currency): nat {
    Purse(db.lots, db.accounts, holder, currency)
  }

  // ----- How the purse follows each kind of write -----

  lemma PurseAppend(lots: seq<Lot>, lot: Lot, accounts: seq<Account>, holder: nat, currency: Currency)
    ensures Purse(lots + [lot], accounts, holder, currency)
         == Purse(lots, accounts, holder, currency) + if InPurse(lot, accounts, holder, currency) then lot.remaining else 0
  {
    assert (lots + [lot])[..|lots|] == lots;
  }

  lemma {:induction false} PurseUpdate(lots: seq<Lot>, i: nat, amount: int, accounts: seq<Account>, holder: nat, currency: Currency)
    requires i < |lots| && amount <= lots[i].remaining
    ensures Purse(lots[i := Decrement(lots[i], amount)], accounts, holder, currency)
         == Purse(lots, accounts, holder, currency) - if InPurse(lots[i], accounts, holder, currency) then amount else 0
  {
    var n := |lots| - 1;
    var after := lots[i := Decrement(lots[i], amount)];
    if i < n {
      assert after[..n] == lots[..n][i := Decrement(lots[i], amount)];
      PurseUpdate(lots[..n], i, amount, accounts, holder, currency);
    } else {
      assert after[..n] == lots[..n];
    }
  }

  /** The guarded loop takes its total out of the purse of the account's owner. */
  lemma {:induction false} PurseTake(
    lots: seq<Lot>, account: nat, taken: Currency, allocations: seq<Allocation>,
    accounts: seq<Account>, holder: nat, currency: Currency)
    requires TakeAll(lots, account, taken, allocations).Some? && account < |accounts|
    ensures Purse(TakeAll(lots, account, taken, allocations).value, accounts, holder, currency)
         == Purse(lots, accounts, holder, currency)
            - if taken == currency && accounts[account].owner == HolderOwner(holder) then Total(Amounts(allocations)) else 0
    decreases |allocations|
  {
    if allocations != [] {
      var a := allocations[0];
      PurseUpdate(lots, a.lotId, a.amount, accounts, holder, currency);
      PurseTake(lots[a.lotId := Decrement(lots[a.lotId], a.amount)], account, taken, allocations[1..], accounts, holder, currency);
      assert Amounts(allocations)[1..] == Amounts(allocations[1..]);
    }
  }

  /** A new escrow account is nobody's purse. */
  lemma {:induction false} PurseIgnoresEscrows(lots: seq<Lot>, a: seq<Account>, b: seq<Account>, holder: nat, currency: Currency)
    requires a <= b && forall i :: |a| <= i < |b| ==> b[i].owner.ReservationOwner?
    ensures Purse(lots, b, holder, currency) == Purse(lots, a, holder, currency)
  {
    if lots != [] {
      PurseIgnoresEscrows(lots[..|lots| - 1], a, b, holder, currency);
    }
  }

  // ----- What a request moves -----

  /** The price a checkout takes and a settlement pays. */
  function PriceOf(db: Db, r: Request): int {
    match r
    case CheckoutRequest(p, _, _) => if p < |db.payments| then db.payments[p].amount else 0
    case SettleRequest(k, _, _) =>
      if k < |db.links| && db.links[k].reservation < |db.reservations| then db.reservations[db.links[k].reservation].target else 0
    case ChargeRequest(_, amount, _, _) => amount
    case WithdrawRequest(_, amount, _) => amount
  }

  /** The signed change of the acting holder's balance, and its currency. */
  function Moves(db: Db, r: Request): (int, Currency) {
    match r
    case ChargeRequest(_, _, _, _) => (PriceOf(db, r), POINT)
    case CheckoutRequest(_, _, _) => (-PriceOf(db, r), POINT)
    case SettleRequest(_, _, _) => (PriceOf(db, r), INCOME)
    case WithdrawRequest(_, _, _) => (-PriceOf(db, r), INCOME)
  }

  ghost predicate MovedBy(a: Db, b: Db, owner: nat, change: int, moved: Currency, holder: nat, currency: Currency) {
    BalanceOf(b, holder, currency)
    == BalanceOf(a, holder, currency) + if holder == owner && currency == moved then change else 0
  }

  lemma ChargeMoves(db: Db, r: Request, plan: Plan, now: int, owner: nat, holder: nat, currency: Currency)
    requires ChargeReady(db, r, plan) && SpendableAccount(db, plan.account, owner, POINT)
    requires ApplyCharge(db, r, plan, now).Ok?
    ensures MovedBy(db, ApplyCharge(db, r, plan, now).value, owner, r.amount, POINT, holder, currency)
  {
    hide Purse;
    ChargeWrites(db, r, plan, now);
    PurseAppend(db.lots, PointLot(plan.account, r.amount, |db.operations|, |db.flows|, now), db.accounts, holder, currency);
  }

  lemma CheckoutMoves(db: Db, r: Request, plan: Plan, holder: nat, currency: Currency)
    requires CheckoutReady(db, r, plan) && ApplyCheckout(db, r, plan).Ok?
    ensures MovedBy(db, ApplyCheckout(db, r, plan).value, plan.holder, -plan.amount, POINT, holder, currency)
  {
    hide Purse, Payable;
    CheckoutWrites(db, r, plan);
    hide ApplyCheckout, NewCommand;
    var b := ApplyCheckout(db, r, plan).value;
    PurseTake(db.lots, plan.account, POINT, plan.allocations, db.accounts, holder, currency);
    PurseIgnoresEscrows(b.lots, db.accounts, b.accounts, holder, currency);
  }

  lemma SettleMoves(db: Db, r: Request, plan: Plan, now: int, holder: nat, currency: Currency)
    requires SettleReady(db, r, plan) && ApplySettle(db, r, plan, now).Ok?
    ensures MovedBy(db, ApplySettle(db, r, plan, now).value, plan.beneficiary, plan.amount, INCOME, holder, currency)
  {
    hide Purse;
    SettleWrites(db, r, plan, now);
    PurseAppend(db.lots, IncomeLot(plan, |db.operations|, |db.swaps|, now), db.accounts, holder, currency);
  }

  lemma WithdrawMoves(db: Db, r: Request, plan: Plan, holder: nat, currency: Currency)
    requires WithdrawReady(db, r, plan) && ApplyWithdraw(db, r, plan).Ok?
    ensures MovedBy(db, ApplyWithdraw(db, r, plan).value, plan.holder, -r.amount, INCOME, holder, currency)
  {
    hide Purse;
    WithdrawWrites(db, r, plan);
    hide ApplyWithdraw, NewCommand;
    var b := ApplyWithdraw(db, r, plan).value;
    PurseTake(db.lots, plan.account, INCOME, plan.allocations, db.accounts, holder, currency);
    PurseIgnoresEscrows(b.lots, db.accounts, b.accounts, holder, currency);
  }

  lemma ProceedMoves(db: Db, r: Request, t: Targets, now: int, holder: nat, currency: Currency)
    requires ProductInv(db) && Prepared(db, r, t) && Matching(r, t) && Decide(db, r, t).Proceed?
    requires PlanFits(r, Decide(db, r, t).plan) && ApplyPlan(db, r, Decide(db, r, t).plan, now).Ok?
    ensures t.holder < |db.holders| && db.holders[t.holder] == UserBinding(r.actor)
    ensures MovedBy(db, ApplyPlan(db, r, Decide(db, r, t).plan, now).value, t.holder,
                    Moves(db, r).0, Moves(db, r).1, holder, currency)
  {
    hide MovedBy, ProductInv, ApplyCharge, ApplyCheckout, ApplySettle, ApplyWithdraw,
         DecideCharge, DecideCheckout, DecideSettle, DecideWithdraw;
    var plan := Decide(db, r, t).plan;
    match r
    case ChargeRequest(_, _, _, _) =>
      ChargeDecided(db, r, t.holder);
      ChargeMoves(db, r, plan, now, t.holder, holder, currency);
    case CheckoutRequest(_, _, _) =>
      CheckoutDecided(db, r, t);
      CheckoutMoves(db, r, plan, holder, currency);
    case SettleRequest(_, _, _) =>
      SettleDecided(db, r, t);
      SettleMoves(db, r, plan, now, holder, currency);
    case WithdrawRequest(_, _, _) =>
      WithdrawDecided(db, r, t.holder);
      WithdrawMoves(db, r, plan, holder, currency);
  }

  /**
   A request served for the first time changes one spendable balance, that of the acting user's holder: a
   charge adds the amount, a checkout takes the price, a settlement pays the held amount, a withdrawal takes
   the amount.  A replay or an alias changes none.
   */
  lemma OnlyTheActorIsMoved(db: Db, e: Event, holder: nat, currency: Currency)
    requires Inv(db) && Serve(db, e).Ok?
    ensures var (after, receipt) := Serve(db, e).value;
            var (change, moved) := Moves(db, e.request);
            && (receipt.replayed ==> BalanceOf(after, holder, currency) == BalanceOf(db, holder, currency))
            && (!receipt.replayed ==>
                 var owner := FindHolder(db, UserBinding(e.request.actor));
                 owner.Some? && MovedBy(db, after, owner.value, change, moved, holder, currency))
  {
    hide Inv, Decide, ApplyPlan, ApplyAlias, MovedBy, LoadEffect, Prepare;
    var r := e.request;
    var t := Prepare(db, r).value;
    PreparedMatches(db, r, t);
    DecideFits(db, r, t);
    match Decide(db, r, t)
    case Reject(_) =>
    case Replay(_) =>
    case Alias(c) => AliasMovesNothing(db, r, c);
    case Proceed(plan) =>
      ProductOf(db);
      ProceedMoves(db, r, t, e.now, holder, currency);
      HolderIsActors(db, r, t);
  }

  lemma AliasMovesNothing(db: Db, r: Request, c: nat)
    requires c < |db.commands| && ApplyAlias(db, r, c).Ok?
    ensures ApplyAlias(db, r, c).value.lots == db.lots && ApplyAlias(db, r, c).value.accounts == db.accounts
  {
  }

  /** The prepared holder is the first one bound to the user it was looked up for. */
  lemma HolderIsActors(db: Db, r: Request, t: Targets)
    requires Prepared(db, r, t) && t.holder < |db.holders| && db.holders[t.holder] == UserBinding(r.actor)
    ensures FindHolder(db, UserBinding(r.actor)) == Some(t.holder)
  {
  }

  /** What one served request moves in or out of one balance. */
  ghost function ChangeBy(db: Db, e: Event, holder: nat, currency: Currency): int {
    match Serve(db, e)
    case Err(_) => 0
    case Ok(done) =>
      var (change, moved) := Moves(db, e.request);
      if !done.1.replayed && FindHolder(db, UserBinding(e.request.actor)) == Some(holder) && moved == currency
      then change else 0
  }

  lemma AfterChanges(db: Db, e: Event, holder: nat, currency: Currency)
    requires Inv(db)
    ensures BalanceOf(After(db, e), holder, currency) == BalanceOf(db, holder, currency) + ChangeBy(db, e, holder, currency)
  {
    hide Inv, Serve, BalanceOf, Moves;
    if Serve(db, e).Ok? {
      OnlyTheActorIsMoved(db, e, holder, currency);
    }
  }

  ghost function NetChange(db: Db, events: seq<Event>, holder: nat, currency: Currency): int
    decreases |events|
  {
    if events == [] then 0
    else ChangeBy(db, events[0], holder, currency) + NetChange(After(db, events[0]), events[1..], holder, currency)
  }

  /** Over any run every balance is where it started plus what its own user's first-time requests moved. */
  lemma {:induction false} EveryBalanceIsExplained(db: Db, events: seq<Event>, holder: nat, currency: Currency)
    requires Inv(db)
    ensures BalanceOf(RunAll(db, events), holder, currency)
         == BalanceOf(db, holder, currency) + NetChange(db, events, holder, currency)
    decreases |events|
  {
    hide Inv, After, BalanceOf, ChangeBy;
    if events != [] {
      AfterKeeps(db, events[0]);
      AfterChanges(db, events[0], holder, currency);
      EveryBalanceIsExplained(After(db, events[0]), events[1..], holder, currency);
    }
  }
}
