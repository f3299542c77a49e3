/**
 Every contract formed by a checkout can be settled by its worker, for exactly the price paid.
 */
module LedgerSettleable {
  import opened Prelude
  import opened LedgerTables
  import opened LedgerUseCases
  import opened LedgerHistory
  import opened LedgerInvariant
  import opened LedgerPlans
  import opened LedgerKeeps
  import opened LedgerReceipts
  import opened LedgerRuns
  import opened LedgerRows

  /** What the worker needs besides the contract: a holder, the accounts, a new key, and the flow's permission. */
  ghost predicate CanSettle(db: Db, k: nat, key: string, holder: nat) {
    && k < |db.contracts| && k < |db.links| && db.links[k].reservation < |db.reservations|
    && db.reservations[db.links[k].reservation].state == HELD
    && HolderIs(db, UserBinding(db.contracts[k].worker), holder)
    && SettlementAccountsExist(db, holder)
    && (forall c :: 0 <= c < |db.commands| && db.commands[c].kind == SETTLE ==>
         !(db.commands[c].principal == db.contracts[k].worker && db.commands[c].key == key))
    && db.contracts[k].flow < |db.flows| && SETTLE in db.flows[db.contracts[k].flow].allowed
  }

  /** The same, as the look-ups of the settlement find it. */
  ghost predicate Found(db: Db, k: nat, key: string, holder: nat) {
    && k < |db.contracts| && k < |db.links| && db.links[k].reservation < |db.reservations|
    && db.reservations[db.links[k].reservation].state == HELD
    && FindHolder(db, UserBinding(db.contracts[k].worker)) == Some(holder)
    && LoadAccounts(db, holder).Some?
    && FindCommand(db, db.contracts[k].worker, SETTLE, key).None?
    && db.contracts[k].flow < |db.flows| && SETTLE in db.flows[db.contracts[k].flow].allowed
  }

  lemma CanSettleIsFound(db: Db, k: nat, key: string, holder: nat)
    requires CanSettle(db, k, key, holder)
    ensures Found(db, k, key, holder)
  {
    HolderFound(db, UserBinding(db.contracts[k].worker));
    AccountsLoadIffTheyExist(db, holder);
  }

  lemma EscrowOfHold(db: Db, r: nat)
    requires HoldsInv(db) && r < |db.transfers|
    ensures FindEscrow(db, r) == Some(db.transfers[r].toAccount)
  {
    assert TransferOk(db, r);
    forall i | 0 <= i < |db.accounts| && db.accounts[i].owner == ReservationOwner(r)
      ensures i == db.transfers[r].toAccount
    {
      assert EscrowOk(db, i);
    }
    FirstIs(db.accounts, (a: Account) => a.owner == ReservationOwner(r), db.transfers[r].toAccount);
  }

  /** A settlement command about a contract means its hold is SETTLED. */
  lemma SettleCommandMeansSettled(db: Db, k: nat)
    requires Inv(db) && k < |db.contracts| && db.links[k].reservation < |db.reservations|
    ensures (exists i :: 0 <= i < |db.commands| && db.commands[i].kind == SETTLE && db.commands[i].subject == ContractSubject(k)) ==>
              db.reservations[db.links[k].reservation].state == SETTLED
  {
    if i: nat :| 0 <= i < |db.commands| && db.commands[i].kind == SETTLE && db.commands[i].subject == ContractSubject(k) {
      assert EffectOk(db, i);
      var s: nat :| SettledBy(db, i, s);
      assert SwapOk(db, s);
    }
  }

  /** A hold that is still HELD has no completed settlement of its contract. */
  lemma HeldIsNotSettled(db: Db, k: nat)
    requires Inv(db) && k < |db.contracts| && db.links[k].reservation < |db.reservations|
    requires db.reservations[db.links[k].reservation].state == HELD
    ensures FindCompleted(db, COMMISSION, SETTLE, ContractSubject(k)).None?
  {
    SettleCommandMeansSettled(db, k);
  }

  ghost function SettlementOf(db: Db, k: nat, holder: nat, accounts: SettlementAccounts): Plan
    requires k < |db.contracts| && k < |db.links| && db.links[k].reservation < |db.reservations|
    requires db.links[k].reservation < |db.transfers|
  {
    var r := db.links[k].reservation;
    SettlePlan(db.contracts[k].flow, r, holder, db.reservations[r].target, db.transfers[r].toAccount,
               accounts.settled, accounts.issuer, accounts.available)
  }

  /** All checks of `planCommissionSettlement` pass. */
  lemma SettlementDecides(db: Db, k: nat, key: string, holder: nat)
    requires Inv(db) && CanSettle(db, k, key, holder)
    ensures db.links[k].reservation < |db.transfers| && LoadAccounts(db, holder).Some?
    ensures DecideSettle(db, SettleRequest(k, db.contracts[k].worker, key), SettleTargets(holder))
         == Proceed(SettlementOf(db, k, holder, LoadAccounts(db, holder).value))
  {
    hide SettlementAccountsExist;
    CanSettleIsFound(db, k, key, holder);
    assert Formed(db, k);
    var r := db.links[k].reservation;
    HeldIsNotSettled(db, k);
    PaidOrderIsLinked(db, k);
    EscrowOfHold(db, r);
    TransferOfReservation(db, r);
    assert TransferOk(db, r);
    FundingSettles(db, k);
  }

  lemma FundingSettles(db: Db, k: nat)
    requires Inv(db) && k < |db.contracts|
    requires Formed(db, k) && TransferOk(db, db.links[k].reservation)
    requires db.reservations[db.links[k].reservation].state == HELD
    ensures var f := LoadFunding(db, db.contracts[k], db.links[k].payment, k);
            && f.Some? && Settleable(db.contracts[k], f.value, db.contracts[k].worker)
            && f.value.link == db.links[k] && f.value.escrow == db.transfers[db.links[k].reservation].toAccount
            && f.value.reservation == db.reservations[db.links[k].reservation]
  {
    hide CommandsInv, LotsInv, SettlementInv, WithdrawalsInv, OwnersInv, EffectsInv, Conserved, ProductInv, HoldsInv;
    EscrowOfHold(db, db.links[k].reservation);
    TransferOfReservation(db, db.links[k].reservation);
  }

  /** The plan can be written: no constraint is in its way. */
  lemma SettlementApplies(db: Db, k: nat, key: string, holder: nat, now: int)
    requires Inv(db) && Found(db, k, key, holder) && db.links[k].reservation < |db.transfers|
    ensures ApplySettle(db, SettleRequest(k, db.contracts[k].worker, key),
                        SettlementOf(db, k, holder, LoadAccounts(db, holder).value), now).Ok?
  {
    assert Formed(db, k);
    var r := db.links[k].reservation;
    var op := |db.operations|;
    CommissionFlow(db, k);
    assert !HasSwap(db, r);
    forall s | 0 <= s < |db.swaps| ensures db.swaps[s].reservation != r && db.swaps[s].operation != op {
      assert SwapOk(db, s);
    }
    forall l | 0 <= l < |db.lots| ensures db.lots[l].source.Some? ==> db.lots[l].source.value.operation != op {
      assert LotSourced(db, l);
    }
  }

  lemma CommissionFlow(db: Db, k: nat)
    requires Inv(db) && k < |db.contracts|
    ensures db.contracts[k].flow < |db.flows| && db.flows[db.contracts[k].flow].kind == COMMISSION
  {
    assert Formed(db, k);
    var op := db.actions[db.transfers[db.links[k].reservation].action].operation;
    assert CommandOk(db, db.operations[op].command);
  }

  ghost predicate IsAccount(db: Db, account: nat, currency: Currency, purpose: Purpose, holder: nat) {
    account < |db.accounts| && db.accounts[account] == Account(currency, purpose, HolderOwner(holder))
  }

  ghost predicate IsPlatforms(db: Db, account: nat, currency: Currency, purpose: Purpose) {
    exists platform: nat :: HolderIs(db, PlatformBinding, platform) && IsAccount(db, account, currency, purpose, platform)
  }

  lemma AccountsAre(db: Db, worker: nat)
    requires LoadAccounts(db, worker).Some?
    ensures var accounts := LoadAccounts(db, worker).value;
            && IsPlatforms(db, accounts.settled, POINT, SettledAccount)
            && IsPlatforms(db, accounts.issuer, INCOME, IssuerAccount)
            && IsAccount(db, accounts.available, INCOME, AvailableAccount, worker)
  {
    var accounts := LoadAccounts(db, worker).value;
    AccountsLoadIffTheyExist(db, worker);
    var platform: nat :| PlatformReady(db, platform) && AccountIs(db, accounts.settled, POINT, SettledAccount, platform)
                         && AccountIs(db, accounts.issuer, INCOME, IssuerAccount, platform);
    assert HolderIs(db, PlatformBinding, platform);
    assert IsAccount(db, accounts.settled, POINT, SettledAccount, platform);
    assert IsAccount(db, accounts.issuer, INCOME, IssuerAccount, platform);
  }

  /** The worker was paid the commission's price out of the hold, and nothing else changed hands. */
  ghost predicate PaidOut(db: Db, after: Db, receipt: Receipt, k: nat, holder: nat, now: int)
    requires Formed(db, k)
  {
    var r := db.links[k].reservation;
    var price := db.types[db.orders[db.contracts[k].order].commissionType].price;
    && !receipt.replayed && receipt.effect == Settled(k, r, |db.lots|)
    && after.swaps == db.swaps + [Swap(db.contracts[k].flow, |db.operations|, r, holder)]
    && |after.legs| == |db.legs| + 2
    && after.legs[|db.legs|].amount == price && after.legs[|db.legs|].currency == POINT
    && after.legs[|db.legs| + 1].amount == price && after.legs[|db.legs| + 1].currency == INCOME
    && after.legs[|db.legs|].fromAccount == db.transfers[r].toAccount
    && IsPlatforms(db, after.legs[|db.legs|].toAccount, POINT, SettledAccount)
    && IsPlatforms(db, after.legs[|db.legs| + 1].fromAccount, INCOME, IssuerAccount)
    && IsAccount(db, after.legs[|db.legs| + 1].toAccount, INCOME, AvailableAccount, holder)
    && |after.lots| == |db.lots| + 1 && after.lots[..|db.lots|] == db.lots
    && after.lots[|db.lots|].original == price == after.lots[|db.lots|].remaining
    && after.lots[|db.lots|].currency == INCOME && after.lots[|db.lots|].account == after.legs[|db.legs| + 1].toAccount
    && after.lots[|db.lots|].source == Some(LotSource(|db.operations|, db.contracts[k].flow, COMMISSION, SETTLE))
    && after.lots[|db.lots|].swap == Some(|db.swaps|) && after.lots[|db.lots|].createdAt == now
    && after.reservations == db.reservations[r := db.reservations[r].(state := SETTLED)]
    && after.transfers == db.transfers && after.allocations == db.allocations
  }

  lemma SettleableNow(db: Db, k: nat, key: string, holder: nat, now: int)
    requires Inv(db) && CanSettle(db, k, key, holder)
    ensures Formed(db, k)
    ensures var served := Serve(db, Event(SettleRequest(k, db.contracts[k].worker, key), now));
            served.Ok? && PaidOut(db, served.value.0, served.value.1, k, holder, now)
  {
    hide Serve, LoadAccounts, DecideSettle, ApplySettle, FindHolder, FindCommand, IsAccount, IsPlatforms, SettlementAccountsExist;
    CanSettleIsFound(db, k, key, holder);
    AccountsAre(db, holder);
    assert Formed(db, k);
    assert TransferOk(db, db.links[k].reservation);
    SettlementDecides(db, k, key, holder);
    SettlementApplies(db, k, key, holder, now);
    SettlementReceipt(db, k, key, holder, now);
  }

  /**
   Every checkout is settleable: while its hold is HELD and the accounts exist, the worker's first request
   succeeds, swaps exactly the commission's price, and issues that much INCOME.
   */
  lemma EveryCheckoutIsSettleable(start: Db, events: seq<Event>, k: nat, key: string, holder: nat, now: int)
    requires Initial(start) && CanSettle(RunAll(start, events), k, key, holder)
    ensures var db := RunAll(start, events);
            var served := Serve(db, Event(SettleRequest(k, db.contracts[k].worker, key), now));
            Formed(db, k) && served.Ok? && PaidOut(db, served.value.0, served.value.1, k, holder, now)
  {
    hide Inv, Formed, PaidOut, Serve;
    InitialInv(start);
    RunKeeps(start, events);
    SettleableNow(RunAll(start, events), k, key, holder, now);
  }

  lemma SettlementReceipt(db: Db, k: nat, key: string, holder: nat, now: int)
    requires Inv(db) && Found(db, k, key, holder) && Formed(db, k)
    requires var r := SettleRequest(k, db.contracts[k].worker, key);
             var plan := SettlementOf(db, k, holder, LoadAccounts(db, holder).value);
             DecideSettle(db, r, SettleTargets(holder)) == Proceed(plan) && ApplySettle(db, r, plan, now).Ok?
    ensures var r := SettleRequest(k, db.contracts[k].worker, key);
            var plan := SettlementOf(db, k, holder, LoadAccounts(db, holder).value);
            var served := Serve(db, Event(r, now));
            && served.Ok? && served.value.0 == AfterSettle(db, r, plan, now)
            && !served.value.1.replayed && served.value.1.effect == Settled(k, db.links[k].reservation, |db.lots|)
  {
    var r := SettleRequest(k, db.contracts[k].worker, key);
    var plan := SettlementOf(db, k, holder, LoadAccounts(db, holder).value);
    hide CommandsInv, HoldsInv, ProductInv, WithdrawalsInv, OwnersInv, EffectsInv, Conserved, ApplySettle, DecideSettle,
         LoadEffect, SettleReady;
    SettleWrites(db, r, plan, now);
    var after := AfterSettle(db, r, plan, now);
    assert Decide(db, r, SettleTargets(holder)) == Proceed(plan);
    Decided(db, r, SettleTargets(holder));
    SettleKeeps(db, r, plan, now);
    SwapOfOperation(after, |db.swaps|);
    LotOfOperation(after, |db.lots|);
    SettledEffect(after, |db.commands|, |db.swaps|, |db.lots|);
  }

  /** A settlement's receipt names its swap's hold and its lot. */
  lemma SettledEffect(db: Db, i: nat, s: nat, l: nat)
    requires i < |db.commands| && s < |db.swaps| && l < |db.lots|
    requires db.commands[i].subject.ContractSubject? && db.commands[i].result.Some?
    requires db.commands[i].result.value < |db.operations|
    requires db.commands[i].subject.contractId < |db.contracts|
    requires db.contracts[db.commands[i].subject.contractId].flow == db.commands[i].flow
    requires FindSwap(db, db.commands[i].result.value) == Some(s) && FindLot(db, db.commands[i].result.value) == Some(l)
    ensures LoadReceipt(db, i, false).Ok?
    ensures !LoadReceipt(db, i, false).value.replayed
    ensures LoadReceipt(db, i, false).value.effect == Settled(db.commands[i].subject.contractId, db.swaps[s].reservation, l)
  {
  }
}
