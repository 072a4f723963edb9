/** The values the subscription bookkeeping works on: the Stripe snapshots the
    server receives, the local charge records (the fields of the Charges
    collection schema that the server writes), users, the documents a charge
    can be associated with, and the ways an operation can fail. */
module Records {

  datatype Option<T> = None | Some(value: T)

  /** JavaScript truthiness of an optional string: `undefined`, `null` and
      the empty string are all falsy. */
  predicate Present(s: Option<string>)
  {
    s.Some? && s.value != ""
  }

  /** An error returned by a Stripe SDK call. Stripe's own errors carry a
      `raw` object whose message is kept here. */
  datatype RemoteError = RemoteError(raw: Option<string>, message: string)

  /** How an operation ends when it throws. */
  datatype Failure =
    | Thrown(message: string)     // `throw new Error(m)` or `throw 'm'`
    | Remote(error: RemoteError)  // a rejected Stripe call, propagated as is
    | Crash(reason: string)       // a TypeError or ReferenceError of the code itself

  datatype Result<T> = Ok(value: T) | Err(failure: Failure)

  // ---------------------------------------------------------------------
  // Stripe objects

  datatype Plan = Plan(id: string, amount: int)

  datatype Invoice = Invoice(id: Option<string>, invoicePdf: Option<string>)

  /** A subscription's `latest_invoice`: absent, an invoice id, or the
      expanded invoice object. */
  datatype LatestInvoice = NoInvoice | InvoiceId(id: string) | Expanded(invoice: Invoice)

  /** The metadata the server attaches to a subscription when creating it. */
  datatype Metadata = Metadata(
    userId: Option<string>,
    userName: Option<string>,
    userProfile: Option<string>,
    vulcanProductKey: Option<string>,
    associatedCollection: Option<string>,
    associatedDocument: Option<string>)

  /** A snapshot of a Stripe object as the SDK or an event delivers it. */
  datatype StripeObject = StripeObject(
    id: string,
    kind: string,                 // Stripe's `object` field: "subscription", "invoice", ...
    status: string,
    livemode: bool,
    currentPeriodStart: int,
    currentPeriodEnd: int,
    plan: Option<Plan>,
    latestInvoice: LatestInvoice,
    metadata: Option<Metadata>,
    canceledAt: Option<int>,
    subscription: Option<string>, // on an invoice: the subscription it bills
    objectType: Option<string>)   // the tag the server adds to a subscription it created

  // ---------------------------------------------------------------------
  // Local records

  /** A document of the Charges collection. */
  datatype Charge = Charge(
    localId: nat,                 // `_id`, assigned by the store on insert
    createdAt: int,
    userId: Option<string>,
    chargeType: string,           // `type`
    associatedCollection: Option<string>,
    associatedDocument: Option<string>,
    productKey: Option<string>,
    source: string,
    test: bool,
    data: StripeObject,
    amount: int,
    currentPeriodStart: int,
    currentPeriodEnd: int,
    latestInvoice: Option<string>,
    stripeId: string,
    stripeChargeUrl: string,
    status: string)

  /** The fields of a user the bookkeeping reads or writes. */
  datatype User = User(
    id: string,
    email: Option<string>,
    groups: Option<seq<string>>,
    stripeCustomerId: Option<string>,
    isAdmin: bool)

  /** A document a charge is associated with, named by collection and id. */
  datatype DocRef = DocRef(collection: string, id: string)

  datatype Document = Document(chargeIds: Option<seq<nat>>)

  /** The arguments of the `stripeCreateSubscription` mutation; the server
      builds objects of the same shape for the other callers, leaving
      unset fields `None`. */
  datatype Product = Product(apiId: Option<string>, vulcanProductKey: Option<string>)

  datatype Args = Args(
    customerId: Option<string>,
    paymentMethodId: Option<string>,
    product: Option<Product>,
    associatedCollection: Option<string>,
    associatedDocument: Option<string>,
    retry: Option<bool>,
    invoiceId: Option<string>,
    userId: Option<string>)

  function Last<T>(s: seq<T>): T
    requires s != []
  {
    s[|s| - 1]
  }
}
