/**
 Which first-time requests succeed: exactly those that meet conditions a caller could look up.
 */
module LedgerAcceptance {
  import opened Prelude
  import opened ReservationPlans
  import opened LedgerTables
  import opened LotQueue
  import opened LedgerUseCases
  import opened LedgerInvariant
  import opened LedgerPlans
  import opened LedgerRuns
  import opened LedgerSettleable
  import opened LedgerRows
  import opened LedgerFrame
  import opened LedgerGuards
  import F = FifoOrder

  // ----- What an account can give -----

  /** What is left in the lots of one account. */
  function AccountTotal(lots: seq<Lot>, account: nat, currency: Currency): nat {
    if lots == [] then 0 else
      AccountTotal(lots[..|lots| - 1], account, currency)
      + if lots[|lots| - 1].account == account && lots[|lots| - 1].currency == currency then lots[|lots| - 1].remaining else 0
  }

  function KeysTotal(lots: seq<Lot>, keys: seq<F.Key>): int {
    if keys == [] then 0 else BalanceAt(lots, keys[0].id).remaining + KeysTotal(lots, keys[1..])
  }

  lemma {:induction false} KeysTotalLast(lots: seq<Lot>, keys: seq<F.Key>, last: F.Key)
    ensures KeysTotal(lots, keys + [last]) == KeysTotal(lots, keys) + BalanceAt(lots, last.id).remaining
  {
    if keys == [] {
      assert keys + [last] == [last];
    } else {
      assert (keys + [last])[1..] == keys[1..] + [last];
      KeysTotalLast(lots, keys[1..], last);
    }
  }

  lemma {:induction false} InsertTotal(lots: seq<Lot>, key: F.Key, sorted: seq<F.Key>)
    ensures KeysTotal(lots, F.Insert(key, sorted)) == KeysTotal(lots, sorted) + BalanceAt(lots, key.id).remaining
  {
    if sorted == [] || F.Before(key, sorted[0]) {
      assert ([key] + sorted)[1..] == sorted;
    } else {
      InsertTotal(lots, key, sorted[1..]);
    }
  }

  lemma {:induction false} OrderTotal(lots: seq<Lot>, keys: seq<F.Key>)
    ensures KeysTotal(lots, F.Order(keys)) == KeysTotal(lots, keys)
  {
    if keys != [] {
      OrderTotal(lots, keys[1..]);
      InsertTotal(lots, keys[0], F.Order(keys[1..]));
    }
  }

  lemma {:induction false} SpendableTotal(lots: seq<Lot>, account: nat, currency: Currency, n: nat)
    requires n <= |lots|
    ensures KeysTotal(lots, SpendableKeys(lots, account, currency, n)) == AccountTotal(lots[..n], account, currency)
  {
    if n > 0 {
      SpendableTotal(lots, account, currency, n - 1);
      assert lots[..n][..n - 1] == lots[..n - 1];
      var before := SpendableKeys(lots, account, currency, n - 1);
      KeysTotalLast(lots, before, F.Key(lots[n - 1].createdAt, n - 1));
      assert before + [] == before;
    }
  }

  lemma {:induction false} CapacitiesTotal(lots: seq<Lot>, keys: seq<F.Key>, balances: seq<LotBalance>)
    requires |balances| == |keys| && forall i :: 0 <= i < |keys| ==> balances[i] == BalanceAt(lots, keys[i].id)
    ensures Total(Capacities(balances)) == KeysTotal(lots, keys)
  {
    if keys != [] {
      assert Capacities(balances)[1..] == Capacities(balances[1..]);
      CapacitiesTotal(lots, keys[1..], balances[1..]);
    }
  }

  /** The loaded world holds everything that is left in the account, whatever the order. */
  lemma LoadedTotal(lots: seq<Lot>, account: nat, currency: Currency)
    ensures Total(Capacities(LoadLots(lots, account, currency))) == AccountTotal(lots, account, currency)
  {
    var raw := SpendableKeys(lots, account, currency, |lots|);
    CapacitiesTotal(lots, F.Order(raw), LoadLots(lots, account, currency));
    OrderTotal(lots, raw);
    SpendableTotal(lots, account, currency, |lots|);
    assert lots[..|lots|] == lots;
  }

  // ----- When a request is acceptable: conditions on rows, through none of the program's look-ups or checks -----

  /** The user's money of a currency covers a positive amount. */
  ghost predicate Covers(db: Db, user: nat, currency: Currency, amount: int) {
    exists account: nat :: SpendsFrom(db, user, currency, account) && 0 < amount <= AccountTotal(db.lots, account, currency)
  }

  ghost predicate FlowAllows(db: Db, flow: nat, kind: CommandKind) {
    flow < |db.flows| && db.flows[flow].kind == COMMISSION && kind in db.flows[flow].allowed
  }

  /** The order and its payment are open, the slot is free and its worker's, and order, payment and type agree. */
  ghost predicate OpenForCheckout(order: Order, payment: Payment, terms: CommissionType, slot: Slot) {
    && order.state == ORDER_REQUESTED && payment.state == PAYMENT_PENDING && slot.state == SLOT_AVAILABLE
    && terms.worker == slot.worker && order.flow == payment.flow
    && order.currency == POINT && payment.currency == POINT
    && order.amount == payment.amount == terms.price
  }

  ghost predicate CheckoutAcceptable(db: Db, r: Request)
    requires r.CheckoutRequest?
  {
    && r.payment < |db.payments| && db.payments[r.payment].order < |db.orders|
    && var payment := db.payments[r.payment];
       var order := db.orders[payment.order];
       && order.commissionType < |db.types| && order.slot < |db.slots|
       && order.buyer == r.actor
       && OpenForCheckout(order, payment, db.types[order.commissionType], db.slots[order.slot])
       && Covers(db, order.buyer, POINT, payment.amount)
       && FlowAllows(db, payment.flow, PAY)
  }

  /** The worker has a holder, and the three accounts of a settlement exist. */
  ghost predicate CanBePaid(db: Db, worker: nat) {
    exists holder: nat :: HolderIs(db, UserBinding(worker), holder) && SettlementAccountsExist(db, holder)
  }

  ghost predicate SettleAcceptable(db: Db, r: Request)
    requires r.SettleRequest?
  {
    && r.contract < |db.contracts| && r.contract < |db.links| && db.links[r.contract].reservation < |db.reservations|
    && db.contracts[r.contract].worker == r.actor
    && db.reservations[db.links[r.contract].reservation].state == HELD
    && CanBePaid(db, r.actor) && FlowAllows(db, db.contracts[r.contract].flow, SETTLE)
  }

  ghost predicate HasPointAccount(db: Db, user: nat) {
    exists account: nat :: SpendsFrom(db, user, POINT, account)
  }

  ghost predicate Acceptable(db: Db, r: Request) {
    match r
    case ChargeRequest(actor, amount, external, key) =>
      HasPointAccount(db, actor) && 0 < amount <= 9_007_199_254_740_991 && external != "" && key != ""
    case CheckoutRequest(_, _, _) => CheckoutAcceptable(db, r)
    case SettleRequest(_, _, _) => SettleAcceptable(db, r)
    case WithdrawRequest(actor, amount, _) => amount <= 9_007_199_254_740_991 && Covers(db, actor, INCOME, amount)
  }

  // ----- The same, as the program looks it up -----

  function AccountOf(db: Db, user: nat, currency: Currency): Option<nat> {
    match FindHolder(db, UserBinding(user))
    case None => None
    case Some(holder) => FindAccount(db, holder, currency, AvailableAccount)
  }

  lemma SpendsFromIsAccountOf(db: Db, user: nat, currency: Currency)
    ensures forall a: nat :: SpendsFrom(db, user, currency, a) <==> AccountOf(db, user, currency) == Some(a)
  {
    hide HolderIs, AccountIs, HasHolder, HasAccount, FindHolder, FindAccount;
    HolderFound(db, UserBinding(user));
    forall holder: nat
      ensures forall a: nat :: FindAccount(db, holder, currency, AvailableAccount) == Some(a) <==>
                AccountIs(db, a, currency, AvailableAccount, holder)
    {
      AccountFound(db, currency, AvailableAccount, holder);
    }
    forall a: nat | AccountOf(db, user, currency) == Some(a) ensures SpendsFrom(db, user, currency, a) {
      assert HolderIs(db, UserBinding(user), FindHolder(db, UserBinding(user)).value);
    }
  }

  lemma CoversFound(db: Db, user: nat, currency: Currency, amount: int)
    ensures Covers(db, user, currency, amount) <==>
            (AccountOf(db, user, currency).Some?
             && 0 < amount <= AccountTotal(db.lots, AccountOf(db, user, currency).value, currency))
    ensures HasPointAccount(db, user) <==> AccountOf(db, user, POINT).Some?
  {
    hide AccountOf, SpendsFrom;
    SpendsFromIsAccountOf(db, user, currency);
    SpendsFromIsAccountOf(db, user, POINT);
    if AccountOf(db, user, currency).Some? {
      assert SpendsFrom(db, user, currency, AccountOf(db, user, currency).value);
    }
    if AccountOf(db, user, POINT).Some? {
      assert SpendsFrom(db, user, POINT, AccountOf(db, user, POINT).value);
    }
  }

  lemma CanBePaidFound(db: Db, worker: nat)
    ensures CanBePaid(db, worker) <==>
            (FindHolder(db, UserBinding(worker)).Some? && LoadAccounts(db, FindHolder(db, UserBinding(worker)).value).Some?)
  {
    hide HolderIs, SettlementAccountsExist, FindHolder, LoadAccounts;
    HolderFound(db, UserBinding(worker));
    if FindHolder(db, UserBinding(worker)).Some? {
      var holder := FindHolder(db, UserBinding(worker)).value;
      assert HolderIs(db, UserBinding(worker), holder);
      AccountsLoadIffTheyExist(db, holder);
    }
  }

  lemma OpenIsPayable(order: Order, payment: Payment, terms: CommissionType, slot: Slot)
    ensures Payable(order, payment, terms, slot) <==> OpenForCheckout(order, payment, terms, slot)
  {
  }

  lemma PlansIffCovered(lots: seq<Lot>, account: nat, currency: Currency, amount: int)
    ensures PlanDraws(LoadLots(lots, account, currency), amount).Ok? <==> 0 < amount <= AccountTotal(lots, account, currency)
    ensures PlanWithdrawalDraws(LoadLots(lots, account, currency), amount).Ok?
            <==> 0 < amount <= AccountTotal(lots, account, currency) && amount <= MAX_SAFE_INTEGER
  {
    LoadedTotal(lots, account, currency);
    PlanIsWaterfall(LoadLots(lots, account, currency), amount);
  }

  ghost predicate Goes(db: Db, r: Request, t: Targets)
    requires Matching(r, t)
  {
    Decide(db, r, t).Proceed? && PolicyAdmits(db, Decide(db, r, t).plan)
  }

  lemma ChargeGoes(db: Db, r: Request, t: Targets)
    requires r.ChargeRequest? && t.ChargeTargets? && NewCommand(db, r) && Prepared(db, r, t)
    ensures Goes(db, r, t) <==> Acceptable(db, r)
  {
    hide HasPointAccount;
    CoversFound(db, r.actor, POINT, r.amount);
  }

  lemma CheckoutGoes(db: Db, r: Request, t: Targets)
    requires r.CheckoutRequest? && t.CheckoutTargets? && NewCommand(db, r) && Prepared(db, r, t)
    ensures Goes(db, r, t) <==> Acceptable(db, r)
  {
    hide LoadLots, PlanDraws, AccountTotal, Payable, OpenForCheckout, Covers;
    var payment := db.payments[r.payment];
    var order := db.orders[payment.order];
    CoversFound(db, order.buyer, POINT, payment.amount);
    if order.commissionType < |db.types| && order.slot < |db.slots| {
      OpenIsPayable(order, payment, db.types[order.commissionType], db.slots[order.slot]);
    }
    var account := FindAccount(db, t.holder, POINT, AvailableAccount);
    if account.Some? {
      PlansIffCovered(db.lots, account.value, POINT, payment.amount);
    }
  }

  lemma WithdrawGoes(db: Db, r: Request, t: Targets)
    requires r.WithdrawRequest? && t.WithdrawTargets? && NewCommand(db, r) && Prepared(db, r, t)
    ensures Goes(db, r, t) <==> Acceptable(db, r)
  {
    hide LoadLots, PlanWithdrawalDraws, AccountTotal, Covers;
    CoversFound(db, r.actor, INCOME, r.amount);
    var account := FindAccount(db, t.holder, INCOME, AvailableAccount);
    if account.Some? {
      PlansIffCovered(db.lots, account.value, INCOME, r.amount);
    }
  }

  lemma SettleGoes(db: Db, r: Request, t: Targets)
    requires Inv(db) && r.SettleRequest? && t.SettleTargets? && NewCommand(db, r) && Prepared(db, r, t)
    ensures Goes(db, r, t) <==> Acceptable(db, r)
  {
    hide Inv, DecideSettle, LoadAccounts, CanBePaid, SettlementAccountsExist;
    CanBePaidFound(db, r.actor);
    if Acceptable(db, r) {
      HolderFound(db, UserBinding(r.actor));
      AccountsLoadIffTheyExist(db, t.holder);
      assert CanSettle(db, r.contract, r.key, t.holder);
      SettlementDecides(db, r.contract, r.key, t.holder);
      assert r == SettleRequest(r.contract, db.contracts[r.contract].worker, r.key) && t == SettleTargets(t.holder);
    }
    if Goes(db, r, t) {
      ProductOf(db);
      SettleDecided(db, r, t);
      SettleNeedsAccounts(db, r, t);
    }
  }

  lemma SettleNeedsAccounts(db: Db, r: Request, t: Targets)
    requires r.SettleRequest? && t.SettleTargets? && Prepared(db, r, t) && DecideSettle(db, r, t).Proceed?
    ensures LoadAccounts(db, t.holder).Some?
    ensures r.contract < |db.contracts| && FindHolder(db, UserBinding(db.contracts[r.contract].worker)) == Some(t.holder)
  {
  }

  lemma AcceptableIsPrepared(db: Db, r: Request)
    requires Acceptable(db, r)
    ensures Prepare(db, r).Ok?
  {
    hide Covers, CanBePaid, HasPointAccount;
    match r
    case ChargeRequest(actor, amount, _, _) => CoversFound(db, actor, POINT, amount);
    case CheckoutRequest(payment, actor, _) => CoversFound(db, actor, POINT, db.payments[payment].amount);
    case SettleRequest(_, actor, _) => CanBePaidFound(db, actor);
    case WithdrawRequest(actor, amount, _) => CoversFound(db, actor, INCOME, amount);
  }

  lemma RequestGoes(db: Db, r: Request, t: Targets)
    requires Inv(db) && Matching(r, t) && NewCommand(db, r) && Prepared(db, r, t)
    ensures Goes(db, r, t) <==> Acceptable(db, r)
  {
    hide Inv, Goes, Acceptable, NewCommand, Prepared;
    match r
    case ChargeRequest(_, _, _, _) => ChargeGoes(db, r, t);
    case CheckoutRequest(_, _, _) => CheckoutGoes(db, r, t);
    case SettleRequest(_, _, _) => SettleGoes(db, r, t);
    case WithdrawRequest(_, _, _) => WithdrawGoes(db, r, t);
  }

  lemma NewIsPlanned(db: Db, r: Request, t: Targets)
    requires Matching(r, t) && NewCommand(db, r)
    ensures Decide(db, r, t).Reject? || Decide(db, r, t).Proceed?
  {
  }

  /**
   A request with a new key and subject succeeds exactly when it is acceptable: a charge of a proper amount
   into an existing account, a checkout of a payable order by its buyer with enough POINT, a settlement of a
   held contract by its worker, a withdrawal the available INCOME covers; flows must admit PAY and SETTLE.
   */
  lemma FirstTimeSucceedsIff(db: Db, r: Request, now: int)
    requires Inv(db) && Unseen(db, r)
    ensures Serve(db, Event(r, now)).Ok? <==> Acceptable(db, r)
  {
    UnseenIsNew(db, r);
    hide Unseen;
    hide Inv, Decide, ApplyPlan, LoadReceipt, Acceptable, NewCommand, Prepare, PolicyAdmits;
    if Acceptable(db, r) {
      AcceptableIsPrepared(db, r);
    }
    if Prepare(db, r).Ok? {
      var t := Prepare(db, r).value;
      PreparedMatches(db, r, t);
      RequestGoes(db, r, t);
      NewIsPlanned(db, r, t);
      DecideFits(db, r, t);
      if Decide(db, r, t).Proceed? {
        ProceedCommits(db, r, t, now);
      }
    }
  }
}
