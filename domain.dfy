/** The domain records: an account snapshot and the transfer request whose
    constraint annotations the HTTP layer checks before the service runs. */
module Domain {
  import opened Wrappers

  /** Account ids are compared by exact string equality. */
  type AccountId = string

  /** BigDecimal is exact; a Dafny real is an exact rational, so no rounding is modelled. */
  type Money = real

  /** A snapshot of one account: its id and its balance at the time it was read. */
  datatype Account = Account(accountId: AccountId, balance: Money)

  /** The inclusive lower bound of @DecimalMin("0.01") on the amount. */
  const MinAmount: Money := 0.01

  /** A field error as Bean Validation reports it: the field's name and the annotation's message. */
  datatype FieldError = FieldError(field: string, message: string)

  const FromIdMessage: string := "Account from must not be null or empty"
  const ToIdMessage: string := "Account to must not be null or empty"
  const AmountNullMessage: string := "Amount to transfer cannot be null"
  const AmountMinMessage: string := "Amount must be at least 0.01"

  /** @NotEmpty on a string: neither null nor the empty string. */
  predicate NotEmpty(s: Option<string>) {
    s.Some? && |s.value| > 0
  }

  /** A transfer request as deserialised from JSON; None stands for a null field. */
  datatype TransferRequest = TransferRequest(
    accountFromId: Option<AccountId>,
    accountToId: Option<AccountId>,
    amount: Option<Money>)
  {
    /** Every constraint annotation holds: both ids non-empty, the amount
        present and at least 0.01. Nothing relates the two ids. */
    predicate Valid()
      ensures Valid() ==> amount.Some? && amount.value > 0.0
    {
      && NotEmpty(accountFromId)
      && NotEmpty(accountToId)
      && amount.Some? && amount.value >= MinAmount
    }

    function FromId(): AccountId requires Valid() { accountFromId.value }
    function ToId(): AccountId requires Valid() { accountToId.value }
    function Amount(): Money requires Valid() { amount.value }
  }

  /** The field errors reported for `r`, one per violated annotation.
      @DecimalMin accepts a null value, so a null amount reports only @NotNull. */
  function Violations(r: TransferRequest): (errs: set<FieldError>)
    ensures errs == {} <==> r.Valid()
    ensures forall e :: e in errs ==> e.field in {"accountFromId", "accountToId", "amount"}
  {
    (if NotEmpty(r.accountFromId) then {} else {FieldError("accountFromId", FromIdMessage)})
    + (if NotEmpty(r.accountToId) then {} else {FieldError("accountToId", ToIdMessage)})
    + (if r.amount.None? then {FieldError("amount", AmountNullMessage)}
       else if r.amount.value < MinAmount then {FieldError("amount", AmountMinMessage)}
       else {})
  }

  /** An empty accountFromId is rejected with its own message. */
  lemma EmptyFromIdRejected(r: TransferRequest)
    requires r.accountFromId == Some("")
    ensures !r.Valid()
    ensures FieldError("accountFromId", FromIdMessage) in Violations(r)
  {
  }

  /** An empty accountToId is rejected with its own message. */
  lemma EmptyToIdRejected(r: TransferRequest)
    requires r.accountToId == Some("")
    ensures !r.Valid()
    ensures FieldError("accountToId", ToIdMessage) in Violations(r)
  {
  }

  /** A null amount is rejected by @NotNull alone, not by @DecimalMin. */
  lemma NullAmountRejected(r: TransferRequest)
    requires r.amount.None?
    ensures !r.Valid()
    ensures FieldError("amount", AmountNullMessage) in Violations(r)
    ensures FieldError("amount", AmountMinMessage) !in Violations(r)
  {
  }

  /** The amount of a valid request is strictly positive: 0.01 is the only
      place positivity is enforced. */
  lemma ValidAmountIsPositive(r: TransferRequest)
    requires r.Valid()
    ensures r.Amount() > 0.0
  {
  }

  /** Validation does not compare the two ids: a same-id request passes it. */
  lemma SameIdsPassValidation(id: AccountId, amount: Money)
    requires |id| > 0 && amount >= MinAmount
    ensures TransferRequest(Some(id), Some(id), Some(amount)).Valid()
  {
  }
}
