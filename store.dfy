/** The account store the service delegates to. Its implementation is not
    part of this model; it is stated abstractly as a map from account id to
    balance, with a trace of the calls the service makes on it. */
module Store {
  import opened Wrappers
  import opened Exceptions
  import opened Domain
  import opened Calls

  type Balances = map<AccountId, Money>

  /** The sum of all balances in `m`. */
  ghost function Total(m: Balances): Money
    decreases |m|
  {
    if m == map[] then 0.0
    else
      var k :| k in m;
      assert |m - {k}| < |m| by { assert m.Keys - {k} < m.Keys; }
      m[k] + Total(m - {k})
  }

  /** Every balance in `m` is non-negative. */
  predicate NonNegative(m: Balances) {
    forall id :: id in m ==> m[id] >= 0.0
  }

  /** Total does not depend on which key it takes out first. */
  lemma {:induction false} TotalRemove(m: Balances, k: AccountId)
    requires k in m
    ensures Total(m) == m[k] + Total(m - {k})
    decreases |m|
  {
    var j :| j in m && Total(m) == m[j] + Total(m - {j});
    if j != k {
      assert |m - {j}| < |m| by { assert m.Keys - {j} < m.Keys; }
      assert |m - {k}| < |m| by { assert m.Keys - {k} < m.Keys; }
      TotalRemove(m - {j}, k);
      TotalRemove(m - {k}, j);
      assert m - {j} - {k} == m - {k} - {j};
    }
  }

  /** Replacing one balance changes the total by exactly the difference. */
  lemma TotalUpdate(m: Balances, k: AccountId, v: Money)
    requires k in m
    ensures Total(m[k := v]) == Total(m) - m[k] + v
  {
    TotalRemove(m, k);
    TotalRemove(m[k := v], k);
    assert m[k := v] - {k} == m - {k};
  }

  /** Adding a new account adds its balance to the total. */
  lemma TotalInsert(m: Balances, k: AccountId, v: Money)
    requires k !in m
    ensures Total(m[k := v]) == Total(m) + v
  {
    TotalRemove(m[k := v], k);
    assert m[k := v] - {k} == m;
  }

  /** The store behind the service: balances keyed by id, plus the order of
      getAccount lookups and the saveAccounts calls, as a mock records them.
      Save calls also go to the call log the store shares with the notifier. */
  class AccountsRepository {
    var accounts: Balances
    var lookups: seq<AccountId>
    var saved: seq<(Account, Account)>
    const log: CallLog

    constructor (log: CallLog)
      ensures accounts == map[] && lookups == [] && saved == [] && this.log == log
    {
      accounts, lookups, saved := map[], [], [];
      this.log := log;
    }

    /** Inserts a new account; fails, changing nothing, if the id is present. */
    method CreateAccount(account: Account) returns (r: Outcome<Error>)
      modifies this`accounts
      ensures account.accountId in old(accounts) ==>
                r == Fail(DuplicateAccountId(AlreadyExistsMessage(account.accountId))) &&
                accounts == old(accounts)
      ensures account.accountId !in old(accounts) ==>
                r == Pass && accounts == old(accounts)[account.accountId := account.balance]
    {
      if account.accountId in accounts {
        r := Fail(DuplicateAccountId(AlreadyExistsMessage(account.accountId)));
      } else {
        accounts := accounts[account.accountId := account.balance];
        r := Pass;
      }
    }

    /** Looks an account up; None stands for the null returned for an absent id. */
    method GetAccount(id: AccountId) returns (a: Option<Account>)
      modifies this`lookups
      ensures id in accounts <==> a.Some?
      ensures a.Some? ==> a.value == Account(id, accounts[id])
      ensures lookups == old(lookups) + [id]
    {
      a := if id in accounts then Some(Account(id, accounts[id])) else None;
      lookups := lookups + [id];
    }

    /** Writes both accounts back and records the call, also in the shared call log. */
    method SaveAccounts(from: Account, to: Account)
      modifies this`accounts, this`saved, log
      ensures accounts == old(accounts)[from.accountId := from.balance][to.accountId := to.balance]
      ensures saved == old(saved) + [(from, to)]
      ensures log.calls == old(log.calls) + [Saved(from, to)]
    {
      accounts := accounts[from.accountId := from.balance][to.accountId := to.balance];
      saved := saved + [(from, to)];
      log.calls := log.calls + [Saved(from, to)];
    }
  }
}
