/** The calls the service makes on its collaborators, as they are observed:
    the notifications it sends and one log that orders the store's save
    calls and the notifications against each other. */
module Calls {
  import opened Domain

  /** What a transfer notification says. */
  datatype Message =
    | Deducted(amount: Money, accountId: AccountId)
    | Credited(amount: Money, accountId: AccountId)
  {
    /** The sentence sent to the account holder, given the decimal rendering of the amount. */
    function Text(amountText: string): (s: string)
      ensures |s| >= 7 + |amountText| + |accountId|
      ensures s[..7 + |amountText|] == "Amount " + amountText
      ensures s[|s| - |accountId|..] == accountId
    {
      match this
      case Deducted(_, id) => "Amount " + amountText + " deducted from account id " + id
      case Credited(_, id) => "Amount " + amountText + " credited to account id " + id
    }
  }

  /** One notifyAboutTransfer call: the account it was about and its message. */
  datatype Notification = Notification(account: Account, message: Message)

  /** A call on a collaborator that has an effect: a save of two accounts or a notification. */
  datatype Call = Saved(from: Account, to: Account) | Notified(notification: Notification)

  /** The calls made on the store and the notification service, in the order made. */
  class CallLog {
    ghost var calls: seq<Call>

    constructor ()
      ensures calls == []
    {
      calls := [];
    }
  }
}
