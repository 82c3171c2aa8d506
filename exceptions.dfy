/** The business-rule exceptions the accounts service throws, each with the
    message text it is constructed with. */
module Exceptions {
  import opened Domain

  datatype Error =
    | DuplicateAccountId(message: string)
    | AccountNotFound(message: string)
    | InsufficientBalance(message: string)

  /** Message of the DuplicateAccountIdException thrown for a transfer whose two ids are equal. */
  const SameAccountsMessage: string := "accountfrom  and accountTo id's cannot be same."

  /** Message of the AccountNotFoundException naming the absent account. */
  function NotFoundMessage(id: AccountId): string {
    "Account id " + id + " not found."
  }

  /** Message of the InsufficientBalanceException naming the source account. */
  function InsufficientMessage(id: AccountId): string {
    "Account id " + id + " does not have sufficient balance."
  }

  /** Message of the DuplicateAccountIdException the repository throws on a second creation. */
  function AlreadyExistsMessage(id: AccountId): string {
    "Account id " + id + " already exists!"
  }
}
