/** The shapes of the payment provider's objects that the handlers read. */
module Stripe {
  import opened Wrappers

  /**
   * A checkout session as listed with `expand: ['data.payment_intent']`:
   * `paymentIntentStatus` is the expanded intent's status, absent when the
   * session has no payment intent.
   */
  datatype Session = Session(
    id: string,
    status: string,
    clientReferenceId: Option<string>,
    paymentIntentStatus: Option<string>,
    metadata: Option<map<string, string>>)

  /** A verified webhook event; `session` is `event.data.object`. */
  datatype Event = Event(eventType: string, session: Session)
}
