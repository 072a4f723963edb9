/** The subscription commands behind the GraphQL mutations: create a
    subscription (attach the payment method, make it the default, create the
    subscription with the server's metadata, record it), retry a failed
    first payment, and cancel the user's current subscription. */
module SubscriptionCommands {
  import opened Records
  import opened Remote
  import opened Store
  import Reconciler

  const NotUpdated := "Subscription canceled, but database not updated."

  /** The metadata sent with a new subscription. The user's display name and
      profile URL come from the user library and are taken as given. */
  function BuildMetadata(args: Args, product: Product, userName: Option<string>,
                         userProfile: Option<string>): (md: Metadata)
    ensures md.userId == args.userId && md.userName == userName && md.userProfile == userProfile
    ensures md.vulcanProductKey == product.vulcanProductKey
    ensures Present(args.associatedCollection) && Present(args.associatedDocument) ==>
      md.associatedCollection == args.associatedCollection && md.associatedDocument == args.associatedDocument
    ensures !(Present(args.associatedCollection) && Present(args.associatedDocument)) ==>
      md.associatedCollection.None? && md.associatedDocument.None?
  {
    var metadata := Metadata(args.userId, userName, userProfile, product.vulcanProductKey, None, None);
    if Present(args.associatedCollection) && Present(args.associatedDocument) then
      metadata.(associatedCollection := args.associatedCollection, associatedDocument := args.associatedDocument)
    else metadata
  }

  function SubscriptionRequestFor(args: Args, product: Product, md: Metadata): SubscriptionRequest
  {
    SubscriptionRequest(args.customerId, product.apiId, md, true)
  }

  /** `createStripeSubscription`. */
  function CreateSpec(s: State, stripe: Stripe, args: Args, userName: Option<string>,
                      userProfile: Option<string>, now: int): (r: Reconciler.Outcome<StripeObject>)
    ensures r.result.Err? ==> r.state == s
    ensures r.calls != [] && r.calls[0] == AttachPaymentMethod(args.paymentMethodId, args.customerId)
    ensures stripe.attachPaymentMethod(args.paymentMethodId, args.customerId).Some? ==>
      r == Reconciler.Outcome(s, Err(Remote(stripe.attachPaymentMethod(args.paymentMethodId, args.customerId).value)),
                              [AttachPaymentMethod(args.paymentMethodId, args.customerId)])
    ensures r.result.Ok? ==>
      args.product.Some? && |r.calls| >= 3 &&
      r.calls[1] == SetDefaultPaymentMethod(args.customerId, args.paymentMethodId) &&
      r.calls[2] == CreateSubscription(SubscriptionRequestFor(args, args.product.value,
                                         BuildMetadata(args, args.product.value, userName, userProfile))) &&
      r.result.value.objectType == Some("subscription") &&
      r.state.charges != [] && Last(r.state.charges).data == r.result.value
    ensures stripe.attachPaymentMethod(args.paymentMethodId, args.customerId).None? &&
            stripe.setDefaultPaymentMethod(args.customerId, args.paymentMethodId).Some? ==>
      r == Reconciler.Outcome(s, Err(Remote(stripe.setDefaultPaymentMethod(args.customerId, args.paymentMethodId).value)),
                              [AttachPaymentMethod(args.paymentMethodId, args.customerId),
                               SetDefaultPaymentMethod(args.customerId, args.paymentMethodId)])
    ensures stripe.attachPaymentMethod(args.paymentMethodId, args.customerId).None? &&
            stripe.setDefaultPaymentMethod(args.customerId, args.paymentMethodId).None? && args.product.Some? ==>
      var request := SubscriptionRequestFor(args, args.product.value,
                       BuildMetadata(args, args.product.value, userName, userProfile));
      var sent := [AttachPaymentMethod(args.paymentMethodId, args.customerId),
                   SetDefaultPaymentMethod(args.customerId, args.paymentMethodId),
                   CreateSubscription(request)];
      match stripe.createSubscription(request)
      case Rejects(e) => r == Reconciler.Outcome(s, Err(Remote(e)), sent)
      case Returns(x) =>
        var t := x.(objectType := Some("subscription"));
        var inserted := Reconciler.InsertSpec(s, stripe, t, args.userId, args, now);
        r.state == inserted.state && r.calls == sent + inserted.calls &&
        (r.result.Ok? <==> inserted.result.Ok?) && (r.result.Ok? ==> r.result.value == t)
  {
    var attach := [AttachPaymentMethod(args.paymentMethodId, args.customerId)];
    var attachError := stripe.attachPaymentMethod(args.paymentMethodId, args.customerId);
    if attachError.Some? then Reconciler.Outcome(s, Err(Remote(attachError.value)), attach)
    else
      var setDefault := attach + [SetDefaultPaymentMethod(args.customerId, args.paymentMethodId)];
      var updateError := stripe.setDefaultPaymentMethod(args.customerId, args.paymentMethodId);
      if updateError.Some? then Reconciler.Outcome(s, Err(Remote(updateError.value)), setDefault)
      else if args.product.None? then
        Reconciler.Outcome(s, Err(Crash("Cannot read property 'vulcanProductKey' of undefined")), setDefault)
      else
        var request := SubscriptionRequestFor(args, args.product.value,
                         BuildMetadata(args, args.product.value, userName, userProfile));
        var created := setDefault + [CreateSubscription(request)];
        var answer := stripe.createSubscription(request);
        if answer.Rejects? then Reconciler.Outcome(s, Err(Remote(answer.error)), created)
        else
          var subscription := answer.value.(objectType := Some("subscription"));
          var inserted := Reconciler.InsertSpec(s, stripe, subscription, args.userId, args, now);
          Reconciler.Outcome(inserted.state,
            if inserted.result.Ok? then Ok(subscription) else Err(inserted.result.failure),
            created + inserted.calls)
  }

  /** A creation whose Stripe calls all succeed, for an associated
      document and a subscription with a plan that the store does not hold
      yet, answers with the subscription and records it: the new record is
      the last one, made from the subscription, and the document lists its
      id. */
  lemma {:induction false} CreateRecordsSubscription(s: State, stripe: Stripe, args: Args, userName: Option<string>,
                                                     userProfile: Option<string>, now: int)
    requires stripe.attachPaymentMethod(args.paymentMethodId, args.customerId).None?
    requires stripe.setDefaultPaymentMethod(args.customerId, args.paymentMethodId).None?
    requires args.product.Some?
    requires Present(args.associatedCollection) && Present(args.associatedDocument)
    requires var request := SubscriptionRequestFor(args, args.product.value,
                              BuildMetadata(args, args.product.value, userName, userProfile));
      var answer := stripe.createSubscription(request);
      answer.Returns? && answer.value.plan.Some? &&
      FindByDataId(s.charges, answer.value.id).None? &&
      Reconciler.FetchInvoice(stripe, answer.value.latestInvoice).0.Returns?
    ensures var r := CreateSpec(s, stripe, args, userName, userProfile, now);
      var request := SubscriptionRequestFor(args, args.product.value,
                       BuildMetadata(args, args.product.value, userName, userProfile));
      var t := stripe.createSubscription(request).value.(objectType := Some("subscription"));
      var ref := DocRef(args.associatedCollection.value, args.associatedDocument.value);
      r.result == Ok(t) &&
      |r.state.charges| == |s.charges| + 1 && r.state.charges[..|s.charges|] == s.charges &&
      Last(r.state.charges) == Reconciler.NewCharge(t, args.userId, args,
        Reconciler.FetchInvoice(stripe, t.latestInvoice).0.value.invoicePdf, now).(localId := |s.charges|) &&
      (ref in s.documents ==> |s.charges| in r.state.documents[ref].chargeIds.value)
  {
    var request := SubscriptionRequestFor(args, args.product.value,
                     BuildMetadata(args, args.product.value, userName, userProfile));
    var x := stripe.createSubscription(request).value;
    var t := x.(objectType := Some("subscription"));
    assert t.id == x.id && t.plan == x.plan && t.latestInvoice == x.latestInvoice;
    var inserted := Reconciler.InsertSpec(s, stripe, t, args.userId, args, now);
    assert inserted.result.Ok?;
  }

  method CreateStripeSubscription(db: Database, stripe: Stripe, args: Args, userName: Option<string>,
                                  userProfile: Option<string>, now: int)
    returns (result: Result<StripeObject>, calls: seq<RemoteCall>)
    requires db.Valid()
    modifies db
    ensures db.Valid()
    ensures Reconciler.Outcome(db.Snapshot(), result, calls) == CreateSpec(old(db.Snapshot()), stripe, args, userName, userProfile, now)
  {
    calls := [AttachPaymentMethod(args.paymentMethodId, args.customerId)];
    var attachError := stripe.attachPaymentMethod(args.paymentMethodId, args.customerId);
    if attachError.Some? {
      return Err(Remote(attachError.value)), calls;  // `catch (error) { throw error; }`
    }
    calls := calls + [SetDefaultPaymentMethod(args.customerId, args.paymentMethodId)];
    var updateError := stripe.setDefaultPaymentMethod(args.customerId, args.paymentMethodId);
    if updateError.Some? {
      return Err(Remote(updateError.value)), calls;
    }
    if args.product.None? {
      return Err(Crash("Cannot read property 'vulcanProductKey' of undefined")), calls;
    }
    var metadata := BuildMetadata(args, args.product.value, userName, userProfile);
    var request := SubscriptionRequestFor(args, args.product.value, metadata);
    calls := calls + [CreateSubscription(request)];
    var answer := stripe.createSubscription(request);
    if answer.Rejects? {
      return Err(Remote(answer.error)), calls;
    }
    var subscription := answer.value.(objectType := Some("subscription"));
    var inserted, insertCalls := Reconciler.InsertNewSubscription(db, stripe, subscription, args.userId, args, now);
    calls := calls + insertCalls;
    result := if inserted.Ok? then Ok(subscription) else Err(inserted.failure);
  }

  /** The invoice id as `invoices.retrieve` receives it. */
  function InvoiceArgument(invoiceId: Option<string>): LatestInvoice
  {
    if invoiceId.Some? then InvoiceId(invoiceId.value) else NoInvoice
  }

  /** `retryStripeSubscription`: no store write at all. A failed attach or
      default-method update lands in a `catch` that refers to an undefined
      `res`, which throws a ReferenceError instead of answering 402. */
  function RetrySpec(stripe: Stripe, args: Args): (r: (Result<Invoice>, seq<RemoteCall>))
    ensures r.1 != [] && r.1[0] == AttachPaymentMethod(args.paymentMethodId, args.customerId)
    ensures stripe.attachPaymentMethod(args.paymentMethodId, args.customerId).Some? ||
            stripe.setDefaultPaymentMethod(args.customerId, args.paymentMethodId).Some? ==>
      r.0 == Err(Crash("res is not defined"))
    ensures r.0.Ok? ==> r.1 == [AttachPaymentMethod(args.paymentMethodId, args.customerId),
                                SetDefaultPaymentMethod(args.customerId, args.paymentMethodId),
                                RetrieveInvoice(InvoiceArgument(args.invoiceId))]
    ensures stripe.attachPaymentMethod(args.paymentMethodId, args.customerId).None? &&
            stripe.setDefaultPaymentMethod(args.customerId, args.paymentMethodId).None? ==>
      r.1 == [AttachPaymentMethod(args.paymentMethodId, args.customerId),
              SetDefaultPaymentMethod(args.customerId, args.paymentMethodId),
              RetrieveInvoice(InvoiceArgument(args.invoiceId))] &&
      match stripe.retrieveInvoice(InvoiceArgument(args.invoiceId))
      case Returns(invoice) => r.0 == Ok(invoice)
      case Rejects(e) => r.0 == Err(Remote(e))
  {
    var attach := [AttachPaymentMethod(args.paymentMethodId, args.customerId)];
    if stripe.attachPaymentMethod(args.paymentMethodId, args.customerId).Some? then
      (Err(Crash("res is not defined")), attach)
    else
      var setDefault := attach + [SetDefaultPaymentMethod(args.customerId, args.paymentMethodId)];
      if stripe.setDefaultPaymentMethod(args.customerId, args.paymentMethodId).Some? then
        (Err(Crash("res is not defined")), setDefault)
      else
        var retrieve := setDefault + [RetrieveInvoice(InvoiceArgument(args.invoiceId))];
        match stripe.retrieveInvoice(InvoiceArgument(args.invoiceId))
        case Rejects(e) => (Err(Remote(e)), retrieve)
        case Returns(invoice) => (Ok(invoice), retrieve)
  }

  /** The `catch` of `cancelStripeSubscription`: a Stripe error with a
      `raw` part is rethrown as its message; anything else as it is. */
  function Rethrow(f: Failure): (g: Failure)
    ensures f.Remote? && f.error.raw.Some? ==> g == Thrown(f.error.raw.value)
    ensures !(f.Remote? && f.error.raw.Some?) ==> g == f
  {
    if f.Remote? && f.error.raw.Some? then Thrown(f.error.raw.value) else f
  }

  /** A truthy `canceled_at`. */
  predicate IsCanceled(deleted: StripeObject)
  {
    deleted.canceledAt.Some? && deleted.canceledAt.value != 0
  }

  /** `cancelStripeSubscription`; `Ok(None)` is its `undefined`. */
  function CancelCommandSpec(s: State, stripe: Stripe, currentUser: Option<User>): (r: Reconciler.Outcome<Option<StripeObject>>)
    requires IdsArePositions(s.charges)
    ensures r.result.Err? ==> r.state == s
    ensures |r.calls| <= 1
    ensures currentUser.Some? && currentUser.value.id in s.users && !Present(s.users[currentUser.value.id].stripeCustomerId) ==>
      r == Reconciler.Outcome(s, Ok(None), [])
    ensures r.calls != [] ==>
      currentUser.Some? &&
      var m := ActiveOr(s.charges, currentUser.value.id, "trialing");
      m != [] && r.calls == [DeleteSubscription(Last(m).data.id)]
    ensures r.state != s ==>
      currentUser.Some? &&
      var m := ActiveOr(s.charges, currentUser.value.id, "trialing");
      m != [] &&
      var deleted := stripe.deleteSubscription(Last(m).data.id);
      deleted.Returns? && IsCanceled(deleted.value) && r.result == Ok(Some(deleted.value)) &&
      var i := Last(m).localId;
      i < |s.charges| == |r.state.charges| && r.state.charges[i] == Reconciler.Canceled(s.charges[i], deleted.value)
    ensures currentUser.Some? && currentUser.value.id in s.users && Present(s.users[currentUser.value.id].stripeCustomerId) ==>
      var m := ActiveOr(s.charges, currentUser.value.id, "trialing");
      (m == [] ==> r.result.Err? && r.calls == []) &&
      (m != [] ==>
        var d := stripe.deleteSubscription(Last(m).data.id);
        r.calls == [DeleteSubscription(Last(m).data.id)] &&
        (d.Rejects? ==> r.result == Err(Rethrow(Remote(d.error))) && r.state == s) &&
        (d.Returns? && IsCanceled(d.value) ==>
          r.result == Ok(Some(d.value)) && r.state == Reconciler.CancelSpec(s, d.value, m).state) &&
        (d.Returns? && !IsCanceled(d.value) ==>
          r.result == Err(Thrown(NotUpdated)) && r.state == s))
    ensures currentUser.None? || currentUser.value.id !in s.users ==>
      r.result.Err? && r.calls == [] && r.state == s
  {
    if currentUser.None? then
      Reconciler.Outcome(s, Err(Crash("Cannot read property '_id' of undefined")), [])
    else if currentUser.value.id !in s.users then
      Reconciler.Outcome(s, Err(Crash("Cannot read property 'stripeCustomerId' of undefined")), [])
    else
      var user := s.users[currentUser.value.id];
      if !Present(user.stripeCustomerId) then Reconciler.Outcome(s, Ok(None), [])
      else
        var existingChargeDoc := ActiveOr(s.charges, currentUser.value.id, "trialing");
        if existingChargeDoc == [] then
          Reconciler.Outcome(s, Err(Crash("Cannot read property 'data' of undefined")), [])
        else
          var stripeItemId := Last(existingChargeDoc).data.id;
          var calls := [DeleteSubscription(stripeItemId)];
          match stripe.deleteSubscription(stripeItemId)
          case Rejects(e) => Reconciler.Outcome(s, Err(Rethrow(Remote(e))), calls)
          case Returns(deleted) =>
            if IsCanceled(deleted) then
              var canceled := Reconciler.CancelSpec(s, deleted, existingChargeDoc);
              Reconciler.Outcome(canceled.state, Ok(Some(deleted)), calls)
            else Reconciler.Outcome(s, Err(Rethrow(Thrown(NotUpdated))), calls)
  }

  /** With an active subscription record present, cancel deletes the last
      active one and never a trialing one. */
  lemma CancelPrefersActive(s: State, stripe: Stripe, u: User)
    requires IdsArePositions(s.charges)
    requires u.id in s.users && Present(s.users[u.id].stripeCustomerId)
    requires FindSubscriptions(s.charges, u.id, "active") != []
    ensures CancelCommandSpec(s, stripe, Some(u)).calls ==
      [DeleteSubscription(Last(FindSubscriptions(s.charges, u.id, "active")).data.id)]
    ensures Last(FindSubscriptions(s.charges, u.id, "active")).data.status == "active"
  {
    var m := FindSubscriptions(s.charges, u.id, "active");
    assert Last(m) in m;
  }

  method CancelStripeSubscription(db: Database, stripe: Stripe, currentUser: Option<User>)
    returns (result: Result<Option<StripeObject>>, calls: seq<RemoteCall>)
    requires db.Valid()
    modifies db
    ensures db.Valid()
    ensures Reconciler.Outcome(db.Snapshot(), result, calls) == CancelCommandSpec(old(db.Snapshot()), stripe, currentUser)
  {
    calls := [];
    if currentUser.None? {
      return Err(Crash("Cannot read property '_id' of undefined")), calls;
    }
    var user := LookupUser(db.users, Some(currentUser.value.id));
    if user.None? {
      return Err(Crash("Cannot read property 'stripeCustomerId' of undefined")), calls;
    }
    if !Present(user.value.stripeCustomerId) {
      return Ok(None), calls;
    }
    var existingChargeDoc := FindSubscriptions(db.charges, currentUser.value.id, "active");
    if existingChargeDoc == [] {
      existingChargeDoc := FindSubscriptions(db.charges, currentUser.value.id, "trialing");
    }
    if existingChargeDoc == [] {
      return Err(Crash("Cannot read property 'data' of undefined")), calls;
    }
    var stripeItemId := existingChargeDoc[|existingChargeDoc| - 1].data.id;
    calls := [DeleteSubscription(stripeItemId)];
    var answer := stripe.deleteSubscription(stripeItemId);
    if answer.Rejects? {
      return Err(Rethrow(Remote(answer.error))), calls;
    }
    var deletedSubscription := answer.value;
    if !IsCanceled(deletedSubscription) {
      return Err(Rethrow(Thrown(NotUpdated))), calls;
    }
    var _ := Reconciler.CancelSubscription(db, deletedSubscription, existingChargeDoc);
    return Ok(Some(deletedSubscription)), calls;
  }
}
