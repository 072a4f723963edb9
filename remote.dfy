/** The Stripe API as the server sees it. Stripe is not modelled: each
    endpoint is an arbitrary function from its request to its response, and
    every operation returns the list of calls it made, so that which calls
    happen, in what order and with what arguments is part of its contract. */
module Remote {
  import opened Records

  datatype Call<T> = Returns(value: T) | Rejects(error: RemoteError)

  /** The body of `stripe.subscriptions.create`. */
  datatype SubscriptionRequest = SubscriptionRequest(
    customer: Option<string>,
    price: Option<string>,
    metadata: Metadata,
    trialFromPlan: bool)

  datatype RemoteCall =
    | AttachPaymentMethod(paymentMethod: Option<string>, customer: Option<string>)
    | SetDefaultPaymentMethod(customer: Option<string>, paymentMethod: Option<string>)
    | CreateCustomer(email: Option<string>)
    | CreateSubscription(request: SubscriptionRequest)
    | RetrieveSubscription(subscriptionId: Option<string>)
    | RetrieveInvoice(invoice: LatestInvoice)  // what was passed: an id, nothing, or an object
    | DeleteSubscription(deletedId: string)

  /** The answers Stripe gives. `None` from the first two means the call
      succeeded. */
  datatype Stripe = Stripe(
    attachPaymentMethod: (Option<string>, Option<string>) -> Option<RemoteError>,
    setDefaultPaymentMethod: (Option<string>, Option<string>) -> Option<RemoteError>,
    createCustomer: Option<string> -> Call<string>,
    createSubscription: SubscriptionRequest -> Call<StripeObject>,
    retrieveSubscription: Option<string> -> Call<StripeObject>,
    retrieveInvoice: LatestInvoice -> Call<Invoice>,
    deleteSubscription: string -> Call<StripeObject>)
}
