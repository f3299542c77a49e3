/**
 Which rows a look-up means, said of the tables alone.
 */
module LedgerRows {
  import opened Prelude
  import opened LedgerTables
  import opened LedgerUseCases
  import opened LedgerInvariant
  import opened LedgerPlans

  /** The holder of a binding; bindings are unique in the schema, so the first is the only one. */
  ghost predicate HolderIs(db: Db, binding: Binding, holder: nat) {
    && holder < |db.holders| && db.holders[holder] == binding
    && forall j :: 0 <= j < holder ==> db.holders[j] != binding
  }

  ghost predicate AccountIs(db: Db, account: nat, currency: Currency, purpose: Purpose, holder: nat) {
    && account < |db.accounts| && db.accounts[account] == Account(currency, purpose, HolderOwner(holder))
    && forall j :: 0 <= j < account ==> db.accounts[j] != Account(currency, purpose, HolderOwner(holder))
  }

  ghost predicate HasHolder(db: Db, binding: Binding) {
    exists h :: 0 <= h < |db.holders| && db.holders[h] == binding
  }

  ghost predicate HasAccount(db: Db, currency: Currency, purpose: Purpose, holder: nat) {
    exists a :: 0 <= a < |db.accounts| && db.accounts[a] == Account(currency, purpose, HolderOwner(holder))
  }

  /** The account a user's money of one currency is in. */
  ghost predicate SpendsFrom(db: Db, user: nat, currency: Currency, account: nat) {
    exists holder: nat ::
      HolderIs(db, UserBinding(user), holder) && AccountIs(db, account, currency, AvailableAccount, holder)
  }

  ghost predicate PlatformReady(db: Db, platform: nat) {
    && HolderIs(db, PlatformBinding, platform)
    && HasAccount(db, POINT, SettledAccount, platform) && HasAccount(db, INCOME, IssuerAccount, platform)
  }

  /** The three accounts a settlement writes to: two of the platform's, one of the worker's. */
  ghost predicate SettlementAccountsExist(db: Db, worker: nat) {
    HasAccount(db, INCOME, AvailableAccount, worker) && exists platform: nat :: PlatformReady(db, platform)
  }

  /** Nobody has used the key, and the subject has no command of this kind. */
  ghost predicate Unseen(db: Db, r: Request) {
    forall c :: 0 <= c < |db.commands| && db.commands[c].kind == KindOf(r) ==>
      && !(db.commands[c].principal == r.actor && db.commands[c].key == r.key)
      && SubjectOf(r) != Some(db.commands[c].subject)
  }

  // ----- The look-ups of the program find exactly these rows -----

  lemma HolderFound(db: Db, binding: Binding)
    ensures FindHolder(db, binding).Some? <==> HasHolder(db, binding)
    ensures forall h: nat :: FindHolder(db, binding) == Some(h) <==> HolderIs(db, binding, h)
  {
    forall h: nat | HolderIs(db, binding, h) ensures FindHolder(db, binding) == Some(h) {
      FirstIs(db.holders, (x: Binding) => x == binding, h);
    }
  }

  lemma AccountFound(db: Db, currency: Currency, purpose: Purpose, holder: nat)
    ensures FindAccount(db, holder, currency, purpose).Some? <==> HasAccount(db, currency, purpose, holder)
    ensures forall a: nat :: FindAccount(db, holder, currency, purpose) == Some(a) <==> AccountIs(db, a, currency, purpose, holder)
  {
    forall a: nat | AccountIs(db, a, currency, purpose, holder) ensures FindAccount(db, holder, currency, purpose) == Some(a) {
      FirstIs(db.accounts, (x: Account) => x == Account(currency, purpose, HolderOwner(holder)), a);
    }
  }

  /** A settlement finds its accounts exactly when the three rows exist; it asks for no others. */
  lemma AccountsLoadIffTheyExist(db: Db, worker: nat)
    ensures LoadAccounts(db, worker).Some? <==> SettlementAccountsExist(db, worker)
    ensures LoadAccounts(db, worker).Some? ==>
              var accounts := LoadAccounts(db, worker).value;
              && AccountIs(db, accounts.available, INCOME, AvailableAccount, worker)
              && exists platform: nat ::
                   && PlatformReady(db, platform) && AccountIs(db, accounts.settled, POINT, SettledAccount, platform)
                   && AccountIs(db, accounts.issuer, INCOME, IssuerAccount, platform)
  {
    hide FindHolder, FindAccount, HolderIs, AccountIs, HasAccount, HasHolder;
    HolderFound(db, PlatformBinding);
    AccountFound(db, INCOME, AvailableAccount, worker);
    forall platform: nat
      ensures FindAccount(db, platform, POINT, SettledAccount).Some? <==> HasAccount(db, POINT, SettledAccount, platform)
      ensures FindAccount(db, platform, INCOME, IssuerAccount).Some? <==> HasAccount(db, INCOME, IssuerAccount, platform)
      ensures forall a: nat :: FindAccount(db, platform, POINT, SettledAccount) == Some(a) <==>
                AccountIs(db, a, POINT, SettledAccount, platform)
      ensures forall a: nat :: FindAccount(db, platform, INCOME, IssuerAccount) == Some(a) <==>
                AccountIs(db, a, INCOME, IssuerAccount, platform)
    {
      AccountFound(db, POINT, SettledAccount, platform);
      AccountFound(db, INCOME, IssuerAccount, platform);
    }
    if LoadAccounts(db, worker).Some? {
      var platform := FindHolder(db, PlatformBinding).value;
      assert HolderIs(db, PlatformBinding, platform);
      assert PlatformReady(db, platform);
    }
  }

  lemma UnseenIsNew(db: Db, r: Request)
    requires Unseen(db, r)
    ensures NewCommand(db, r)
  {
  }
}
