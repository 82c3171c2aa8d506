/** Client code replaying the service's unit and controller scenarios; each
    outcome follows from the contracts of the store and the service alone. */
module Scenarios {
  import opened Wrappers
  import opened Exceptions
  import opened Domain
  import opened Store
  import opened Calls
  import opened Service

  method NewService() returns (s: AccountsService)
    ensures fresh(s) && fresh(s.accountsRepository) && fresh(s.notificationService)
    ensures s.accountsRepository.accounts == map[]
    ensures s.accountsRepository.lookups == [] && s.accountsRepository.saved == []
    ensures s.notificationService.sent == []
    ensures s.Valid() && fresh(s.accountsRepository.log) && s.accountsRepository.log.calls == []
  {
    var log := new CallLog();
    var repository := new AccountsRepository(log);
    var notifications := new NotificationService(log);
    s := new AccountsService(repository, notifications);
  }

  /** Create, read back, and create the same id a second time. */
  method CreateAndGetScenario() {
    var s := NewService();
    var r := s.CreateAccount(Account("Id-123", 1000.0));
    assert r == Pass;
    var a := s.GetAccount("Id-123");
    assert a == Some(Account("Id-123", 1000.0));
    r := s.CreateAccount(Account("Id-123", 1000.0));
    assert r.Fail? && r.error.DuplicateAccountId?;
  }

  /** A transfer between two ids that are the same is refused, nothing changes. */
  method SameAccountScenario() {
    var s := NewService();
    var r := s.CreateAccount(Account("Id-123", 1000.0));
    r := s.TransferAmount(TransferRequest(Some("Id-123"), Some("Id-123"), Some(100.0)));
    assert r == Fail(DuplicateAccountId(SameAccountsMessage));
    assert r.error.message == "accountfrom  and accountTo id's cannot be same.";
    assert s.accountsRepository.accounts == map["Id-123" := 1000.0];
  }

  /** When neither account exists the source is the one reported. */
  method NeitherExistsScenario() {
    var s := NewService();
    var r := s.TransferAmount(TransferRequest(Some("Id-999"), Some("Id-998"), Some(100.0)));
    assert r == Fail(AccountNotFound(NotFoundMessage("Id-999")));
    assert r.error.message == "Account id Id-999 not found.";
  }

  /** The source exists but the destination does not. */
  method DestinationMissingScenario() {
    var s := NewService();
    var r := s.CreateAccount(Account("Id-1234", 500.0));
    r := s.TransferAmount(TransferRequest(Some("Id-1234"), Some("Id-1235"), Some(100.0)));
    assert r == Fail(AccountNotFound(NotFoundMessage("Id-1235")));
    assert r.error.message == "Account id Id-1235 not found.";
    assert s.accountsRepository.accounts == map["Id-1234" := 500.0];
  }

  /** 1000.00 from an account holding 500.00: refused, nothing saved, no one notified. */
  method InsufficientBalanceScenario() {
    var s := NewService();
    var r := s.CreateAccount(Account("Id-1234", 500.0));
    r := s.CreateAccount(Account("Id-1235", 200.0));
    r := s.TransferAmount(TransferRequest(Some("Id-1234"), Some("Id-1235"), Some(1000.0)));
    assert r == Fail(InsufficientBalance(InsufficientMessage("Id-1234")));
    assert s.accountsRepository.accounts == map["Id-1234" := 500.0, "Id-1235" := 200.0];
    assert s.accountsRepository.saved == [];
    assert s.notificationService.sent == [];
    assert s.accountsRepository.log.calls == [];
  }

  /** 100.00 between two accounts holding 1000.00 each. */
  method TransferSuccessScenario() {
    var s := NewService();
    var r := s.CreateAccount(Account("Id-1234", 1000.0));
    r := s.CreateAccount(Account("Id-1235", 1000.0));
    r := s.TransferAmount(TransferRequest(Some("Id-1234"), Some("Id-1235"), Some(100.0)));
    assert r == Pass;
    var from := s.GetAccount("Id-1234");
    var to := s.GetAccount("Id-1235");
    assert from == Some(Account("Id-1234", 900.0));
    assert to == Some(Account("Id-1235", 1100.0));
    assert s.accountsRepository.saved == [(Account("Id-1234", 900.0), Account("Id-1235", 1100.0))];
    var sent := s.notificationService.sent;
    assert sent == [
      Notification(Account("Id-1234", 900.0), Deducted(100.0, "Id-1234")),
      Notification(Account("Id-1235", 1100.0), Credited(100.0, "Id-1235"))];
    assert s.accountsRepository.log.calls == [
      Saved(Account("Id-1234", 900.0), Account("Id-1235", 1100.0)),
      Notified(sent[0]), Notified(sent[1])];
  }

  /** The debit notification text the successful unit test expects. */
  method DeductedText() {
    assert Deducted(100.0, "Id-1234").Text("100.00") == "Amount 100.00 deducted from account id Id-1234";
  }

  /** The credit notification text the successful unit test expects. */
  method CreditedText() {
    assert Credited(100.0, "Id-1235").Text("100.00") == "Amount 100.00 credited to account id Id-1235";
  }
}
