/**
 * The subscription payments the scheduler and the reconciliation job read
 * and write. Their model class lives in subscriptions/models.py, which is
 * not part of this model; only the fields those two jobs use are kept.
 */
module SubscriptionPayments {
  import opened Common

  /** PENDING until a provider settles it; the other terminal statuses are provider-specific. */
  datatype Status = Pending | Completed | OtherTerminal

  /** `SubscriptionPayment`: its subscription link is empty until activation. */
  datatype Payment = Payment(subscription: Option<nat>, provider: string, status: Status, created: int)

  /** What a provider reports for a payment it created. */
  datatype PaymentRecord = PaymentRecord(provider: string, status: Status)
}
