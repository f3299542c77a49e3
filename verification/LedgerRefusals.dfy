/**
 Why a first-time request is refused: the exact reason, read from the rows.
 */
module LedgerRefusals {
  import opened Prelude
  import opened ReservationPlans
  import opened LedgerTables
  import opened LotQueue
  import opened LedgerUseCases
  import opened LedgerInvariant
  import opened LedgerPlans
  import opened LedgerKeeps
  import opened LedgerReceipts
  import opened LedgerRuns
  import opened LedgerRows
  import opened LedgerSettleable
  import opened LedgerAcceptance

  ghost predicate RefusedWith(db: Db, r: Request, now: int, reason: Rejection) {
    Serve(db, Event(r, now)) == Err(reason)
  }

  ghost predicate HasMoneyAccount(db: Db, user: nat, currency: Currency) {
    exists account: nat :: SpendsFrom(db, user, currency, account)
  }

  lemma MoneyAccountFound(db: Db, user: nat, currency: Currency)
    ensures HasHolder(db, UserBinding(user)) <==> FindHolder(db, UserBinding(user)).Some?
    ensures HasMoneyAccount(db, user, currency) <==> AccountOf(db, user, currency).Some?
    ensures forall a: nat :: SpendsFrom(db, user, currency, a) <==> AccountOf(db, user, currency) == Some(a)
  {
    hide SpendsFrom, AccountOf;
    HolderFound(db, UserBinding(user));
    SpendsFromIsAccountOf(db, user, currency);
    if AccountOf(db, user, currency).Some? {
      assert SpendsFrom(db, user, currency, AccountOf(db, user, currency).value);
    }
  }

  /** A plan over an account's lots fails for its amount, or for exactly what the account holds. */
  lemma ShortPlan(lots: seq<Lot>, account: nat, currency: Currency, amount: int)
    ensures var plan := PlanDraws(LoadLots(lots, account, currency), amount);
            && (amount <= 0 ==> plan == Err(InvalidAmount(amount)))
            && (amount > 0 && amount > AccountTotal(lots, account, currency) ==>
                 plan == Err(InsufficientFunds(AccountTotal(lots, account, currency), amount)))
  {
    LoadedTotal(lots, account, currency);
  }

  /** Amount against balance, the same for both kinds of spending. */
  ghost predicate FundsReason(db: Db, account: nat, currency: Currency, amount: int, reason: Rejection) {
    var total := AccountTotal(db.lots, account, currency);
    reason == BadPlan(if amount <= 0 then InvalidAmount(amount) else InsufficientFunds(total, amount))
  }

  lemma WithdrawalRefusal(db: Db, r: Request, now: int)
    requires r.WithdrawRequest? && Unseen(db, r)
    ensures !HasHolder(db, UserBinding(r.actor)) ==> RefusedWith(db, r, now, NotFound("holder"))
    ensures HasHolder(db, UserBinding(r.actor)) && !HasMoneyAccount(db, r.actor, INCOME) ==>
              RefusedWith(db, r, now, NotFound("account"))
    ensures forall account: nat | SpendsFrom(db, r.actor, INCOME, account) ::
              && (r.amount > 9_007_199_254_740_991 ==> RefusedWith(db, r, now, BadPlan(InvalidAmount(r.amount))))
              && (r.amount <= 9_007_199_254_740_991 && !(0 < r.amount <= AccountTotal(db.lots, account, INCOME)) ==>
                   exists reason :: FundsReason(db, account, INCOME, r.amount, reason) && RefusedWith(db, r, now, reason))
  {
    hide SpendsFrom, HasMoneyAccount, HasHolder, LoadLots, AccountTotal, PlanDraws;
    UnseenIsNew(db, r);
    hide Unseen;
    MoneyAccountFound(db, r.actor, INCOME);
    var holder := FindHolder(db, UserBinding(r.actor));
    if holder.Some? {
      var found := FindAccount(db, holder.value, INCOME, AvailableAccount);
      assert Prepare(db, r) == Ok(WithdrawTargets(holder.value));
      if found.Some? {
        ShortPlan(db.lots, found.value, INCOME, r.amount);
        forall account: nat | SpendsFrom(db, r.actor, INCOME, account)
          && r.amount <= MAX_SAFE_INTEGER && !(0 < r.amount <= AccountTotal(db.lots, account, INCOME))
          ensures exists reason :: FundsReason(db, account, INCOME, r.amount, reason) && RefusedWith(db, r, now, reason)
        {
          var e := if r.amount <= 0 then InvalidAmount(r.amount)
                   else InsufficientFunds(AccountTotal(db.lots, account, INCOME), r.amount);
          assert FundsReason(db, account, INCOME, r.amount, BadPlan(e)) && RefusedWith(db, r, now, BadPlan(e));
        }
      }
    }
  }

  /** The refusals of a checkout of an existing payment: holder, buyer, states and terms, account, funds, policy. */
  ghost predicate CheckoutReasons(db: Db, r: Request, now: int)
    requires Catalogue(db) && r.CheckoutRequest? && r.payment < |db.payments|
  {
    var payment := db.payments[r.payment];
    var order := db.orders[payment.order];
    var open := OpenForCheckout(order, payment, db.types[order.commissionType], db.slots[order.slot]);
    && (!HasHolder(db, UserBinding(order.buyer)) ==> RefusedWith(db, r, now, NotFound("holder")))
    && (HasHolder(db, UserBinding(order.buyer)) && order.buyer != r.actor ==> RefusedWith(db, r, now, ActorMismatch))
    && (HasHolder(db, UserBinding(order.buyer)) && order.buyer == r.actor ==>
         && (!open ==> RefusedWith(db, r, now, NotPayable))
         && (open && !HasMoneyAccount(db, r.actor, POINT) ==> RefusedWith(db, r, now, NotFound("account")))
         && (open ==> forall account: nat | SpendsFrom(db, r.actor, POINT, account) ::
               FundedReasons(db, r, account, now)))
  }

  /** Short of funds, or refused by the flow. */
  ghost predicate FundedReasons(db: Db, r: Request, account: nat, now: int)
    requires r.CheckoutRequest? && r.payment < |db.payments|
  {
    var payment := db.payments[r.payment];
    var covered := 0 < payment.amount <= AccountTotal(db.lots, account, POINT);
    && (!covered ==> exists reason :: FundsReason(db, account, POINT, payment.amount, reason) && RefusedWith(db, r, now, reason))
    && (covered && !FlowAllows(db, payment.flow, PAY) ==> RefusedWith(db, r, now, PolicyViolation))
  }

  lemma CheckoutRefusal(db: Db, r: Request, now: int)
    requires Inv(db) && r.CheckoutRequest? && Unseen(db, r)
    ensures r.payment >= |db.payments| ==> RefusedWith(db, r, now, NotFound("order payment"))
    ensures r.payment < |db.payments| ==> Catalogue(db) && CheckoutReasons(db, r, now)
  {
    UnseenIsNew(db, r);
    hide Unseen, CheckoutReasons;
    if r.payment < |db.payments| {
      CatalogueOf(db);
      CheckoutReason(db, r, now);
    }
  }

  lemma CatalogueOf(db: Db)
    requires Inv(db)
    ensures Catalogue(db)
  {
  }

  lemma CheckoutReason(db: Db, r: Request, now: int)
    requires Catalogue(db) && r.CheckoutRequest? && NewCommand(db, r) && r.payment < |db.payments|
    ensures CheckoutReasons(db, r, now)
  {
    hide SpendsFrom, HasMoneyAccount, HasHolder, AccountTotal, LoadLots, PlanDraws, OpenForCheckout, Payable, ApplyPlan, First,
         FundedReasons;
    var payment := db.payments[r.payment];
    var order := db.orders[payment.order];
    OpenIsPayable(order, payment, db.types[order.commissionType], db.slots[order.slot]);
    MoneyAccountFound(db, order.buyer, POINT);
    var holder := FindHolder(db, UserBinding(order.buyer));
    if holder.Some? {
      var t := CheckoutTargets(order.buyer, order.slot, holder.value);
      assert Prepare(db, r) == Ok(t);
      assert Decide(db, r, t) == PlanCheckout(db, r, t);
      var found := FindAccount(db, holder.value, POINT, AvailableAccount);
      if found.Some? && order.buyer == r.actor
         && OpenForCheckout(order, payment, db.types[order.commissionType], db.slots[order.slot]) {
        FundedReason(db, r, t, found.value, now);
      }
    }
  }

  lemma FundedReason(db: Db, r: Request, t: Targets, account: nat, now: int)
    requires Catalogue(db) && r.CheckoutRequest? && NewCommand(db, r) && r.payment < |db.payments|
    requires t.CheckoutTargets? && Prepare(db, r) == Ok(t) && db.orders[db.payments[r.payment].order].buyer == r.actor
    requires FindAccount(db, t.holder, POINT, AvailableAccount) == Some(account)
    requires var payment := db.payments[r.payment];
             var order := db.orders[payment.order];
             Payable(order, payment, db.types[order.commissionType], db.slots[order.slot])
    ensures FundedReasons(db, r, account, now)
  {
    hide AccountTotal, LoadLots, PlanDraws, Payable, First, Reserve, FormContract, PayOrder, OccupySlot;
    var amount := db.payments[r.payment].amount;
    assert Decide(db, r, t) == PlanCheckout(db, r, t);
    ShortPlan(db.lots, account, POINT, amount);
    PlansIffCovered(db.lots, account, POINT, amount);
    if !(0 < amount <= AccountTotal(db.lots, account, POINT)) {
      var e := if amount <= 0 then InvalidAmount(amount) else InsufficientFunds(AccountTotal(db.lots, account, POINT), amount);
      assert FundsReason(db, account, POINT, amount, BadPlan(e)) && RefusedWith(db, r, now, BadPlan(e));
    }
  }

  /** A charge is refused for a missing holder, a missing account, or a malformed request, in this order. */
  lemma ChargeRefusal(db: Db, r: Request, now: int)
    requires r.ChargeRequest? && Unseen(db, r)
    ensures !HasHolder(db, UserBinding(r.actor)) ==> RefusedWith(db, r, now, NotFound("holder"))
    ensures HasHolder(db, UserBinding(r.actor)) && !HasMoneyAccount(db, r.actor, POINT) ==>
              RefusedWith(db, r, now, NotFound("account"))
    ensures HasMoneyAccount(db, r.actor, POINT)
            && !(0 < r.amount <= 9_007_199_254_740_991 && r.externalPaymentId != "" && r.key != "") ==>
              RefusedWith(db, r, now, InvalidRequest)
  {
    hide SpendsFrom, HasMoneyAccount, HasHolder, ApplyPlan, First;
    UnseenIsNew(db, r);
    hide Unseen;
    MoneyAccountFound(db, r.actor, POINT);
  }

  /** The refusals of a settlement of an existing contract: rows, then actor and hold, then policy. */
  ghost predicate SettlementReasons(db: Db, r: Request, now: int)
    requires r.SettleRequest? && r.contract < |db.contracts| && r.contract < |db.links|
    requires db.links[r.contract].reservation < |db.reservations|
  {
    var worker := db.contracts[r.contract].worker;
    var ready := worker == r.actor && db.reservations[db.links[r.contract].reservation].state == HELD;
    && (!HasHolder(db, UserBinding(worker)) ==> RefusedWith(db, r, now, NotFound("holder")))
    && (HasHolder(db, UserBinding(worker)) && !CanBePaid(db, worker) ==> RefusedWith(db, r, now, NotFound("account")))
    && (CanBePaid(db, worker) && !ready ==> RefusedWith(db, r, now, NotSettleable))
    && (CanBePaid(db, worker) && ready && !FlowAllows(db, db.contracts[r.contract].flow, SETTLE) ==>
         RefusedWith(db, r, now, PolicyViolation))
  }

  lemma SettlementRefusal(db: Db, r: Request, now: int)
    requires Inv(db) && r.SettleRequest? && Unseen(db, r)
    ensures r.contract >= |db.contracts| ==> RefusedWith(db, r, now, NotFound("contract"))
    ensures r.contract < |db.contracts| ==>
              && r.contract < |db.links| && db.links[r.contract].reservation < |db.reservations|
              && SettlementReasons(db, r, now)
  {
    UnseenIsNew(db, r);
    hide Unseen, SettlementReasons, CommandsInv, LotsInv, SettlementInv, WithdrawalsInv, OwnersInv, EffectsInv, Conserved;
    if r.contract < |db.contracts| {
      var k := r.contract;
      assert Formed(db, k);
      PaidOrderIsLinked(db, k);
      FundingOfContract(db, k);
      if db.reservations[db.links[k].reservation].state == HELD {
        HeldFunding(db, k);
      }
      SettlementReason(db, r, now);
    }
  }

  lemma SettlementReason(db: Db, r: Request, now: int)
    requires r.SettleRequest? && NewCommand(db, r) && r.contract < |db.contracts| && r.contract < |db.links|
    requires db.links[r.contract].reservation < |db.reservations|
    requires LoadPaidOrder(db, db.contracts[r.contract]) == Some((db.links[r.contract].payment, r.contract))
    requires db.contracts[r.contract].order < |db.orders| && db.links[r.contract].payment < |db.payments|
    requires var f := LoadFunding(db, db.contracts[r.contract], db.links[r.contract].payment, r.contract);
             && f.Some? && f.value.reservation == db.reservations[db.links[r.contract].reservation]
             && (f.value.reservation.state == HELD ==>
                  Settleable(db.contracts[r.contract], f.value, db.contracts[r.contract].worker))
    ensures SettlementReasons(db, r, now)
  {
    hide CanBePaid, HasHolder, SwapInto, First, LoadAccounts, LoadFunding, LoadPaidOrder;
    var worker := db.contracts[r.contract].worker;
    HolderFound(db, UserBinding(worker));
    CanBePaidFound(db, worker);
    var holder := FindHolder(db, UserBinding(worker));
    if holder.Some? {
      var t := SettleTargets(holder.value);
      assert Prepare(db, r) == Ok(t);
      assert Decide(db, r, t) == PlanSettle(db, r, t);
    }
  }

  lemma HeldFunding(db: Db, k: nat)
    requires Inv(db) && k < |db.contracts| && Formed(db, k)
    requires db.reservations[db.links[k].reservation].state == HELD
    ensures var f := LoadFunding(db, db.contracts[k], db.links[k].payment, k);
            f.Some? && Settleable(db.contracts[k], f.value, db.contracts[k].worker)
  {
    assert TransferOk(db, db.links[k].reservation);
    FundingSettles(db, k);
  }

  /** Whatever the state of its hold, a contract's funding rows are found. */
  lemma FundingOfContract(db: Db, k: nat)
    requires HoldsInv(db) && k < |db.contracts| && Formed(db, k)
    ensures var f := LoadFunding(db, db.contracts[k], db.links[k].payment, k);
            f.Some? && f.value.reservation == db.reservations[db.links[k].reservation]
  {
    hide HoldsInv;
    EscrowOfHold(db, db.links[k].reservation);
    TransferOfReservation(db, db.links[k].reservation);
  }
}
