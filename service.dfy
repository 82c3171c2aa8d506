/** The accounts service: account creation and lookup, delegated to the
    store, and the transfer of an amount between two accounts. */
module Service {
  import opened Wrappers
  import opened Exceptions
  import opened Domain
  import opened Store
  import opened Calls

  /** The notification collaborator, reduced to the log of calls made on it.
      Each call is also appended to the call log it shares with the store. */
  class NotificationService {
    var sent: seq<Notification>
    const log: CallLog

    constructor (log: CallLog)
      ensures sent == [] && this.log == log
    {
      sent := [];
      this.log := log;
    }

    method NotifyAboutTransfer(account: Account, message: Message)
      modifies this`sent, log
      ensures sent == old(sent) + [Notification(account, message)]
      ensures log.calls == old(log.calls) + [Notified(Notification(account, message))]
    {
      sent := sent + [Notification(account, message)];
      log.calls := log.calls + [Notified(Notification(account, message))];
    }
  }

  /** A transfer of `req` against balances `m` passes every check: the ids
      differ, both accounts exist and the source balance covers the amount
      (a balance equal to the amount is enough). */
  predicate Succeeds(m: Balances, req: TransferRequest)
    requires req.Valid()
    ensures Succeeds(m, req) ==>
              req.FromId() in m && req.ToId() in m && m[req.FromId()] - req.Amount() >= 0.0
  {
    && req.FromId() != req.ToId()
    && req.FromId() in m && req.ToId() in m
    && m[req.FromId()] >= req.Amount()
  }

  /** The balances after debiting `from` and crediting `to` with `amount`. */
  function Moved(m: Balances, from: AccountId, to: AccountId, amount: Money): (r: Balances)
    requires from in m && to in m && from != to
    ensures r.Keys == m.Keys
    ensures r[from] == m[from] - amount && r[to] == m[to] + amount
    ensures forall id :: id in m && id != from && id != to ==> r[id] == m[id]
    ensures Total(r) == Total(m)
  {
    var debited := m[from := m[from] - amount];
    TotalUpdate(m, from, m[from] - amount);
    TotalUpdate(debited, to, m[to] + amount);
    debited[to := m[to] + amount]
  }

  /** The balances after a transfer of `req`: moved when it succeeds, untouched otherwise. */
  function Applied(m: Balances, req: TransferRequest): (r: Balances)
    requires req.Valid()
    ensures !Succeeds(m, req) ==> r == m
    ensures r.Keys == m.Keys
    ensures Total(r) == Total(m)
    ensures Succeeds(m, req) ==> r[req.FromId()] >= 0.0 && r[req.ToId()] > m[req.ToId()]
  {
    if Succeeds(m, req) then Moved(m, req.FromId(), req.ToId(), req.Amount()) else m
  }

  /** The balances after the transfers `reqs`, one after the other. */
  function Run(m: Balances, reqs: seq<TransferRequest>): (r: Balances)
    requires forall i :: 0 <= i < |reqs| ==> reqs[i].Valid()
    decreases |reqs|
  {
    if reqs == [] then m else Run(Applied(m, reqs[0]), reqs[1..])
  }

  /** A transfer never leaves a balance negative: the source covers the
      amount, and a valid amount is positive so the destination only grows. */
  lemma AppliedKeepsNonNegative(m: Balances, req: TransferRequest)
    requires req.Valid() && NonNegative(m)
    ensures NonNegative(Applied(m, req))
  {
  }

  /** A source balance exactly equal to the amount is sufficient, and ends at zero. */
  lemma ExactBalanceSuffices(m: Balances, req: TransferRequest)
    requires req.Valid() && req.FromId() != req.ToId()
    requires req.FromId() in m && req.ToId() in m && m[req.FromId()] == req.Amount()
    ensures Succeeds(m, req)
    ensures Applied(m, req)[req.FromId()] == 0.0
  {
  }

  /** Any sequence of transfers keeps the sum of all balances. */
  lemma {:induction false} RunConservesTotal(m: Balances, reqs: seq<TransferRequest>)
    requires forall i :: 0 <= i < |reqs| ==> reqs[i].Valid()
    ensures Total(Run(m, reqs)) == Total(m)
    decreases |reqs|
  {
    if reqs != [] {
      RunConservesTotal(Applied(m, reqs[0]), reqs[1..]);
    }
  }

  /** Any sequence of transfers keeps every balance non-negative and the set of accounts. */
  lemma {:induction false} RunKeepsNonNegative(m: Balances, reqs: seq<TransferRequest>)
    requires forall i :: 0 <= i < |reqs| ==> reqs[i].Valid()
    requires NonNegative(m)
    ensures NonNegative(Run(m, reqs))
    ensures Run(m, reqs).Keys == m.Keys
    decreases |reqs|
  {
    if reqs != [] {
      AppliedKeepsNonNegative(m, reqs[0]);
      RunKeepsNonNegative(Applied(m, reqs[0]), reqs[1..]);
    }
  }

  class AccountsService {
    const accountsRepository: AccountsRepository
    const notificationService: NotificationService

    /** Both collaborators record into the same call log, so the order of
        saves and notifications across them is observable. */
    ghost predicate Valid() {
      accountsRepository.log == notificationService.log
    }

    constructor (accountsRepository: AccountsRepository, notificationService: NotificationService)
      requires accountsRepository.log == notificationService.log
      ensures Valid()
      ensures this.accountsRepository == accountsRepository
      ensures this.notificationService == notificationService
    {
      this.accountsRepository := accountsRepository;
      this.notificationService := notificationService;
    }

    /** Delegates to the store: a new id is inserted with its balance, a present one is refused. */
    method CreateAccount(account: Account) returns (r: Outcome<Error>)
      modifies accountsRepository`accounts
      ensures account.accountId in old(accountsRepository.accounts) ==>
                r == Fail(DuplicateAccountId(AlreadyExistsMessage(account.accountId))) &&
                accountsRepository.accounts == old(accountsRepository.accounts)
      ensures account.accountId !in old(accountsRepository.accounts) ==>
                r == Pass &&
                accountsRepository.accounts ==
                  old(accountsRepository.accounts)[account.accountId := account.balance]
    {
      r := accountsRepository.CreateAccount(account);
    }

    /** Delegates to the store: the account's snapshot, or None for an absent id. */
    method GetAccount(id: AccountId) returns (a: Option<Account>)
      modifies accountsRepository`lookups
      ensures id in accountsRepository.accounts <==> a.Some?
      ensures a.Some? ==> a.value == Account(id, accountsRepository.accounts[id])
      ensures accountsRepository.lookups == old(accountsRepository.lookups) + [id]
    {
      a := accountsRepository.GetAccount(id);
    }

    /** Moves the request's amount from one account to the other. The checks
        run in a fixed order (same id, missing source, missing destination,
        insufficient balance) and the first that fails throws; on success the
        store is saved once and then both holders are notified, source first. */
    method TransferAmount(request: TransferRequest) returns (r: Outcome<Error>)
      requires Valid() && request.Valid()
      modifies accountsRepository, notificationService, accountsRepository.log
      ensures accountsRepository.accounts == Applied(old(accountsRepository.accounts), request)
      ensures r.Pass? <==> Succeeds(old(accountsRepository.accounts), request)
      // 1. same id: refused before any lookup
      ensures request.FromId() == request.ToId() ==>
                r == Fail(DuplicateAccountId(SameAccountsMessage)) &&
                accountsRepository.lookups == old(accountsRepository.lookups)
      // 2. missing source: reported even when the destination is missing too
      ensures request.FromId() != request.ToId() &&
              request.FromId() !in old(accountsRepository.accounts) ==>
                r == Fail(AccountNotFound(NotFoundMessage(request.FromId()))) &&
                accountsRepository.lookups == old(accountsRepository.lookups) + [request.FromId()]
      // 3. missing destination
      ensures request.FromId() != request.ToId() &&
              request.FromId() in old(accountsRepository.accounts) &&
              request.ToId() !in old(accountsRepository.accounts) ==>
                r == Fail(AccountNotFound(NotFoundMessage(request.ToId())))
      // 4. insufficient balance
      ensures request.FromId() != request.ToId() &&
              request.FromId() in old(accountsRepository.accounts) &&
              request.ToId() in old(accountsRepository.accounts) &&
              old(accountsRepository.accounts)[request.FromId()] < request.Amount() ==>
                r == Fail(InsufficientBalance(InsufficientMessage(request.FromId())))
      ensures request.FromId() != request.ToId() &&
              request.FromId() in old(accountsRepository.accounts) ==>
                accountsRepository.lookups ==
                  old(accountsRepository.lookups) + [request.FromId(), request.ToId()]
      // a failure saves nothing and notifies no one
      ensures r.Fail? ==>
                accountsRepository.saved == old(accountsRepository.saved) &&
                notificationService.sent == old(notificationService.sent) &&
                accountsRepository.log.calls == old(accountsRepository.log.calls)
      // a success saves both accounts once, then notifies the source and the destination
      ensures r.Pass? ==>
                var debited := Account(request.FromId(), accountsRepository.accounts[request.FromId()]);
                var credited := Account(request.ToId(), accountsRepository.accounts[request.ToId()]);
                && accountsRepository.saved == old(accountsRepository.saved) + [(debited, credited)]
                && notificationService.sent == old(notificationService.sent) + [
                     Notification(debited, Deducted(request.Amount(), request.FromId())),
                     Notification(credited, Credited(request.Amount(), request.ToId()))]
                // saveAccounts comes before both notifications
                && accountsRepository.log.calls == old(accountsRepository.log.calls) + [
                     Saved(debited, credited),
                     Notified(Notification(debited, Deducted(request.Amount(), request.FromId()))),
                     Notified(Notification(credited, Credited(request.Amount(), request.ToId())))]
    {
      var from, to, amount := request.FromId(), request.ToId(), request.Amount();
      if from == to {
        return Fail(DuplicateAccountId(SameAccountsMessage));
      }
      var accountFrom := accountsRepository.GetAccount(from);
      if accountFrom.None? {
        return Fail(AccountNotFound(NotFoundMessage(from)));
      }
      var accountTo := accountsRepository.GetAccount(to);
      if accountTo.None? {
        return Fail(AccountNotFound(NotFoundMessage(to)));
      }
      if accountFrom.value.balance >= amount {
        // setBalance acts on the stored objects themselves, so the store sees
        // both new balances before saveAccounts is called
        var debited := Account(from, accountFrom.value.balance - amount);
        var credited := Account(to, accountTo.value.balance + amount);
        accountsRepository.accounts :=
          accountsRepository.accounts[from := debited.balance][to := credited.balance];
        accountsRepository.SaveAccounts(debited, credited);
        notificationService.NotifyAboutTransfer(debited, Deducted(amount, from));
        notificationService.NotifyAboutTransfer(credited, Credited(amount, to));
        r := Pass;
      } else {
        r := Fail(InsufficientBalance(InsufficientMessage(from)));
      }
    }
  }
}
