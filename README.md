# Accounts service: transfers between accounts

This project models the core of a small account-keeping service: accounts
are created with an initial balance, read back by id, and an amount is
transferred from one account to another. The transfer is the one piece of
business logic. It checks, in a fixed order, that the two ids differ, that
the source exists, that the destination exists and that the source balance
covers the amount. The first check that fails throws. On success the
source is debited, the destination credited, the store is asked to save
both accounts, and each holder gets one notification, source first.

Files:

- `wrappers.dfy`: `Option` (a Java reference that may be null) and
  `Outcome` (a call that returns or throws).
- `domain.dfy`: the account id, the `Account` snapshot, the
  `TransferRequest` record, its validity predicate and the field errors its
  constraint annotations report.
- `exceptions.dfy`: the three exception kinds and their exact message texts.
- `calls.dfy`: the notification messages and one call log that the store and
  the notification service both append to. It records saves and
  notifications in the order they are made.
- `store.dfy`: the account store as a class over a map from id to balance,
  with the sum of all balances and its lemmas.
- `service.dfy`: the notification log, the service class and its transfer,
  the transfer as a function on balances, and the lemmas about it.
- `scenarios.dfy`: client methods that replay the unit and controller
  test scenarios from the contracts alone.

Money is a Dafny `real`, an exact rational like `BigDecimal`. A request's
amount of at least 0.01 is enforced only by the request's annotations,
before the service runs, so `TransferAmount` takes `request.Valid()` as its
precondition.

What the code does, and does not do:

- Equal ids throw `DuplicateAccountIdException`. There is no separate
  same-account error.
- The service has no amount check of its own.
- The notification sentences are "Amount A deducted from account id FROM"
  and "Amount A credited to account id TO".
- The service takes no lock around its check and update.

## Model

| member | source | states |
|---|---|---|
| `Domain.Violations` | src/main/java/com/dws/challenge/domain/TransferRequest.java:17-25 | a request reports no field error exactly when it is valid; every error names one of the three annotated fields |
| `Domain.TransferRequest.Valid` | src/main/java/com/dws/challenge/domain/TransferRequest.java:17-25 | both ids non-empty and the amount present and at least 0.01; a valid request's amount is strictly positive |
| `Domain.EmptyFromIdRejected` | src/main/java/com/dws/challenge/domain/TransferRequest.java:17-18 | an empty source id makes the request invalid and reports the source-id message |
| `Domain.EmptyToIdRejected` | src/main/java/com/dws/challenge/domain/TransferRequest.java:20-21 | an empty destination id makes the request invalid and reports the destination-id message |
| `Domain.NullAmountRejected` | src/main/java/com/dws/challenge/domain/TransferRequest.java:23-25 | a null amount makes the request invalid; @NotNull reports it, @DecimalMin does not |
| `Domain.ValidAmountIsPositive` | src/main/java/com/dws/challenge/domain/TransferRequest.java:24 | the amount of a valid request is strictly positive |
| `Domain.SameIdsPassValidation` | src/main/java/com/dws/challenge/domain/TransferRequest.java:15-25 | validity never compares the two ids: a same-id request with a valid amount is valid |
| `Store.TotalInsert` | src/main/java/com/dws/challenge/service/AccountsService.java:31-33 | creating an account raises the sum of all balances by exactly its initial balance |
| `Store.AccountsRepository.CreateAccount` | src/test/java/com/dws/challenge/AccountsServiceTest.java:52-57 | a present id is refused with DuplicateAccountIdException and nothing changes; a new id is stored with its balance |
| `Store.AccountsRepository.GetAccount` | src/test/java/com/dws/challenge/AccountsServiceTest.java:75 | returns the account's snapshot exactly when the id is present, None (null) otherwise; the lookup is recorded |
| `Store.AccountsRepository.SaveAccounts` | src/main/java/com/dws/challenge/service/AccountsService.java:57 | stores both accounts' balances and records one call with both accounts, in its own log and in the shared call log |
| `Service.NotificationService.NotifyAboutTransfer` | src/main/java/com/dws/challenge/service/AccountsService.java:58-59 | appends exactly one (account, message) entry to the notification log and to the shared call log |
| `Calls.Message.Text` | src/main/java/com/dws/challenge/service/AccountsService.java:58-59 | the sentence starts with "Amount " and the amount's rendering, and ends with the account id it names |
| `Service.Succeeds` | src/main/java/com/dws/challenge/service/AccountsService.java:41-54 | a transfer passes all four checks: different ids, both accounts present, source balance at least the amount; so the source can afford the debit |
| `Service.Moved` | src/main/java/com/dws/challenge/service/AccountsService.java:55-56 | the source loses the amount, the destination gains it, every other account and the set of accounts are unchanged, and the sum of all balances is unchanged |
| `Service.Applied` | src/main/java/com/dws/challenge/service/AccountsService.java:40-65 | a failed transfer leaves the balances as they were; any transfer keeps the set of accounts and the sum of all balances; a successful one leaves the source non-negative and raises the destination, whatever the other balances |
| `Service.AppliedKeepsNonNegative` | src/main/java/com/dws/challenge/service/AccountsService.java:54-56 | a transfer keeps an all-non-negative store all non-negative |
| `Service.ExactBalanceSuffices` | src/main/java/com/dws/challenge/service/AccountsService.java:54-55 | a source balance equal to the amount is sufficient, and the source ends at zero |
| `Service.RunConservesTotal` | src/main/java/com/dws/challenge/service/AccountsService.java:54-57 | any sequence of transfers keeps the sum of all balances |
| `Service.RunKeepsNonNegative` | src/main/java/com/dws/challenge/service/AccountsService.java:54-56 | any sequence of transfers keeps the set of accounts and keeps every balance non-negative |
| `Service.AccountsService.constructor` | src/main/java/com/dws/challenge/service/AccountsService.java:26-29 | the service holds the store and the notification service it is given, which share one call log |
| `Service.AccountsService.CreateAccount` | src/main/java/com/dws/challenge/service/AccountsService.java:31-33 | delegates to the store: a present id fails with DuplicateAccountIdException and changes nothing; a new id is stored with its balance |
| `Service.AccountsService.GetAccount` | src/main/java/com/dws/challenge/service/AccountsService.java:35-37 | delegates to the store: the snapshot of a present id, None for an absent one |
| `Service.AccountsService.TransferAmount` | src/main/java/com/dws/challenge/service/AccountsService.java:40-65 | equal ids fail first, before any lookup; then a missing source fails naming the source (even if the destination is missing too); then a missing destination fails naming it; then a short balance fails naming the source; it succeeds exactly when none applies; on failure no balance changes, nothing is saved and no one is notified; on success the balances are `Moved`, and the shared call log grows by exactly saveAccounts with both new accounts, then the source's "deducted" notification, then the destination's "credited" one |

## Left out

- Concurrency: the service takes no lock between its balance check and its
  update, and the model treats each call as one sequential step. Lock
  ordering and deadlock freedom are not modelled because the code has none.
- The store's implementation is not part of this model. It is stated as a
  map from id to balance. Its duplicate-id message is the text the unit
  test's mock throws. `clearAccounts`, a test reset, is not modelled.
- The setBalance calls change the stored account objects through an alias.
  The model writes the two new balances into the store's map directly, and
  does not model object identity.
- Notification delivery: each notification is an entry appended to a log,
  and delivery failure is not modelled.
- The decimal rendering of amounts in message texts: `Message.Text` takes
  the amount's rendering (for example "100.00") as a parameter.
- The mapping of exceptions to HTTP statuses and the generic 500 response
  in `GlobalExceptionHandler` are not modelled.
- The validation of `Account` on creation (non-empty id, non-negative
  balance) belongs to `Account`, which is not part of this model. So the
  service's `CreateAccount` accepts any balance. Non-negativity is proved
  for transfers starting from non-negative balances.
- Spring, Lombok, Jackson and Bean Validation machinery are not modelled.
  Only the constraint annotations are modelled, as a predicate and a set of
  field errors.
- The always-true null check before the balance comparison needs no
  separate branch in the model.
