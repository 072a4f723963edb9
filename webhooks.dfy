/** The `/webhook` endpoint: the signature check, the dispatch of an event
    by its type, and the three handlers that feed Stripe's view of a
    subscription into the reconciler. */
module Webhooks {
  import opened Records
  import opened Remote
  import opened Store
  import Entitlement
  import Reconciler
  import ChargesCollection

  /** An event as `stripe.webhooks.constructEvent` parses it: its type and
      `data.object`. */
  datatype Event = Event(eventType: string, payload: StripeObject)

  datatype Handler = InvoicePaid | InvoiceFailed | SubscriptionDeleted

  /** What the client sees: a status code, or nothing at all when the
      handler's promise rejects before a response is sent. */
  datatype Reply = Status(code: int) | NoReply

  datatype Delivery = Delivery(reply: Reply, state: State, calls: seq<RemoteCall>)

  /** The `switch (event.type)`. */
  function Route(eventType: string): (h: Option<Handler>)
    ensures h == Some(InvoicePaid) <==>
      eventType == "invoice.paid" || eventType == "invoice.payment_succeeded"
    ensures h == Some(InvoiceFailed) <==> eventType == "invoice.payment_failed"
    ensures h == Some(SubscriptionDeleted) <==> eventType == "customer.subscription.deleted"
  {
    match eventType
    case "invoice.paid" => Some(InvoicePaid)
    case "invoice.payment_succeeded" => Some(InvoicePaid)
    case "invoice.payment_failed" => Some(InvoiceFailed)
    case "customer.subscription.deleted" => Some(SubscriptionDeleted)
    case _ => None
  }

  /** The document named by the subscription's metadata, when both parts
      are truthy and it exists. */
  function AssociatedDocument(s: State, md: Metadata): (ref: Option<DocRef>)
    ensures ref.Some? <==>
      Present(md.associatedCollection) && Present(md.associatedDocument) &&
      DocRef(md.associatedCollection.value, md.associatedDocument.value) in s.documents
    ensures ref.Some? ==> ref.value == DocRef(md.associatedCollection.value, md.associatedDocument.value)
  {
    if Present(md.associatedCollection) && Present(md.associatedDocument) then
      var ref := DocRef(md.associatedCollection.value, md.associatedDocument.value);
      if ref in s.documents then Some(ref) else None
    else None
  }

  /** The arguments the handlers pass on to the reconciler. */
  function ArgsFrom(md: Metadata): Args
  {
    Args(None, None, None, md.associatedCollection, md.associatedDocument, None, None, md.userId)
  }

  /** `handleInvoicePaid` and `handleInvoiceFailed`, which are the same
      code. A failure of the retrieval or a subscription without metadata
      escapes the handler; everything after is inside its `try`, so a
      missing document or a failed reconciliation is swallowed. */
  function InvoiceHandlerSpec(s: State, stripe: Stripe, invoice: StripeObject, now: int): (r: Reconciler.Outcome<()>)
    requires IdsArePositions(s.charges)
    ensures r.calls != [] && r.calls[0] == RetrieveSubscription(invoice.subscription)
    ensures r.result.Err? ==> r.state == s
    ensures r.state != s ==>
      var sub := stripe.retrieveSubscription(invoice.subscription);
      sub.Returns? && sub.value.metadata.Some? &&
      AssociatedDocument(s, sub.value.metadata.value).Some? &&
      Reconciler.HoldsSnapshot(r.state.charges, sub.value)
    ensures var sub := stripe.retrieveSubscription(invoice.subscription);
      sub.Rejects? || sub.value.metadata.None? <==> r.result.Err?
    ensures var sub := stripe.retrieveSubscription(invoice.subscription);
      sub.Returns? && sub.value.metadata.Some? && AssociatedDocument(s, sub.value.metadata.value).None? ==>
      r == Reconciler.Outcome(s, Ok(()), [RetrieveSubscription(invoice.subscription)])
    ensures var sub := stripe.retrieveSubscription(invoice.subscription);
      sub.Returns? && sub.value.metadata.Some? && AssociatedDocument(s, sub.value.metadata.value).Some? ==>
      var md := sub.value.metadata.value;
      var updated := Reconciler.UpdateSpec(s, stripe, sub.value, md.userId, ArgsFrom(md), now);
      r.state == updated.state && r.calls == [RetrieveSubscription(invoice.subscription)] + updated.calls
  {
    var calls := [RetrieveSubscription(invoice.subscription)];
    var sub := stripe.retrieveSubscription(invoice.subscription);
    if sub.Rejects? then Reconciler.Outcome(s, Err(Remote(sub.error)), calls)
    else if sub.value.metadata.None? then
      Reconciler.Outcome(s, Err(Crash("Cannot destructure property 'userId' of subscription.metadata")), calls)
    else
      var md := sub.value.metadata.value;
      if AssociatedDocument(s, md).None? then Reconciler.Outcome(s, Ok(()), calls)
      else
        var updated := Reconciler.UpdateSpec(s, stripe, sub.value, md.userId, ArgsFrom(md), now);
        Reconciler.Outcome(updated.state, Ok(()), calls + updated.calls)
  }

  /** `handleInvoiceCancelled`: the subscription is retrieved only for its
      metadata; the user's last active subscription record is canceled with
      the event's own object. There is no fallback to trialing records. */
  function CancelledHandlerSpec(s: State, stripe: Stripe, deleted: StripeObject): (r: Reconciler.Outcome<()>)
    requires IdsArePositions(s.charges)
    ensures r.calls == [RetrieveSubscription(Some(deleted.id))]
    ensures r.result.Err? ==> r.state == s
    ensures var sub := stripe.retrieveSubscription(Some(deleted.id));
      sub.Rejects? || sub.value.metadata.None? <==> r.result.Err?
    ensures var sub := stripe.retrieveSubscription(Some(deleted.id));
      sub.Returns? && sub.value.metadata.Some? ==>
      var ref := AssociatedDocument(s, sub.value.metadata.value);
      (ref.Some? && FindSubscriptions(s.charges, ref.value.id, "active") != [] ==>
        r.state == Reconciler.CancelSpec(s, deleted, FindSubscriptions(s.charges, ref.value.id, "active")).state &&
        r.result == Ok(())) &&
      (ref.None? || FindSubscriptions(s.charges, ref.value.id, "active") == [] ==>
        r.state == s && r.result == Ok(()))
    ensures r.state != s ==>
      var sub := stripe.retrieveSubscription(Some(deleted.id));
      sub.Returns? && sub.value.metadata.Some? &&
      var ref := AssociatedDocument(s, sub.value.metadata.value);
      ref.Some? && FindSubscriptions(s.charges, ref.value.id, "active") != [] &&
      var i := Last(FindSubscriptions(s.charges, ref.value.id, "active")).localId;
      i < |s.charges| == |r.state.charges| && r.state.charges[i] == Reconciler.Canceled(s.charges[i], deleted)
  {
    var calls := [RetrieveSubscription(Some(deleted.id))];
    var sub := stripe.retrieveSubscription(Some(deleted.id));
    if sub.Rejects? then Reconciler.Outcome(s, Err(Remote(sub.error)), calls)
    else if sub.value.metadata.None? then
      Reconciler.Outcome(s, Err(Crash("Cannot destructure property 'userId' of subscription.metadata")), calls)
    else
      var ref := AssociatedDocument(s, sub.value.metadata.value);
      if ref.None? then Reconciler.Outcome(s, Ok(()), calls)
      else
        var matches := FindSubscriptions(s.charges, ref.value.id, "active");
        if matches == [] then Reconciler.Outcome(s, Ok(()), calls)
        else
          var canceled := Reconciler.CancelSpec(s, deleted, matches);
          Reconciler.Outcome(canceled.state, Ok(()), calls)
  }

  function HandlerSpec(h: Handler, s: State, stripe: Stripe, payload: StripeObject, now: int): Reconciler.Outcome<()>
    requires IdsArePositions(s.charges)
  {
    if h == SubscriptionDeleted then CancelledHandlerSpec(s, stripe, payload)
    else InvoiceHandlerSpec(s, stripe, payload, now)
  }

  /** A POST to `/webhook`. */
  function ReceiveSpec(s: State, stripe: Stripe, signatureValid: bool, event: Event, now: int): (d: Delivery)
    requires IdsArePositions(s.charges)
    ensures !signatureValid || Route(event.eventType).None? ==> d == Delivery(Status(400), s, [])
    ensures signatureValid && Route(event.eventType).Some? ==>
      var r := HandlerSpec(Route(event.eventType).value, s, stripe, event.payload, now);
      d.state == r.state && d.calls == r.calls &&
      (r.result.Ok? ==> d.reply == Status(200)) && (r.result.Err? ==> d.reply == NoReply)
    ensures d.reply == NoReply ==> d.state == s
  {
    if !signatureValid then Delivery(Status(400), s, [])
    else match Route(event.eventType)
      case None => Delivery(Status(400), s, [])
      case Some(h) =>
        var r := HandlerSpec(h, s, stripe, event.payload, now);
        Delivery(if r.result.Ok? then Status(200) else NoReply, r.state, r.calls)
  }

  /** An event for a subscription that already has its record, delivered
      twice, leaves the store as delivering it once. */
  lemma {:induction false} InvoiceRedeliveryIsHarmless(s: State, stripe: Stripe, invoice: StripeObject, now: int)
    requires IdsArePositions(s.charges)
    requires forall id :: id in s.users ==> Entitlement.AtMostOnce(Entitlement.GroupsOf(s.users[id].groups))
    requires stripe.retrieveSubscription(invoice.subscription).Returns?
    requires Reconciler.HasSubscriptionRecord(s.charges, stripe.retrieveSubscription(invoice.subscription).value.id)
    ensures var once := InvoiceHandlerSpec(s, stripe, invoice, now).state;
      IdsArePositions(once.charges) &&
      InvoiceHandlerSpec(once, stripe, invoice, now).state == once
  {
    var sub := stripe.retrieveSubscription(invoice.subscription).value;
    if sub.metadata.Some? && AssociatedDocument(s, sub.metadata.value).Some? {
      var md := sub.metadata.value;
      Reconciler.UpdateIdempotent(s, stripe, sub, md.userId, ArgsFrom(md), now);
      var once := Reconciler.UpdateSpec(s, stripe, sub, md.userId, ArgsFrom(md), now).state;
      assert once.documents == s.documents by {
        var i := FindByDataId(s.charges, sub.id).value;
        assert s.charges[i].localId == i;
      }
      assert AssociatedDocument(once, md) == AssociatedDocument(s, md);
    }
  }

  /** A cancellation event for a user with at most one active subscription
      record, delivered twice, leaves the store as delivering it once: the
      canceled record no longer matches the active query. */
  lemma {:induction false} CancelledRedeliveryIsHarmless(s: State, stripe: Stripe, deleted: StripeObject, uid: string)
    requires IdsArePositions(s.charges)
    requires deleted.status != "active"
    requires var sub := stripe.retrieveSubscription(Some(deleted.id));
      sub.Returns? && sub.value.metadata.Some? &&
      AssociatedDocument(s, sub.value.metadata.value).Some? &&
      AssociatedDocument(s, sub.value.metadata.value).value.id == uid
    requires forall k, l ::
      0 <= k < |s.charges| && 0 <= l < |s.charges| &&
      IsSubscriptionOf(s.charges[k], uid, "active") && IsSubscriptionOf(s.charges[l], uid, "active")
      ==> k == l
    ensures var once := CancelledHandlerSpec(s, stripe, deleted).state;
      IdsArePositions(once.charges) &&
      CancelledHandlerSpec(once, stripe, deleted).state == once
  {
    var matches := FindSubscriptions(s.charges, uid, "active");
    if matches != [] {
      var c := Last(matches);
      assert c in matches;
      FetchedChargeIsStored(s.charges, c);
      var i := c.localId;
      var canceled := Reconciler.Canceled(c, deleted);
      var once := ChargesCollection.AfterUpdate(s, canceled);
      assert CancelledHandlerSpec(s, stripe, deleted).state == once;
      assert once.users == s.users;
      assert IdsArePositions(once.charges);
      forall k | 0 <= k < |once.charges|
        ensures !IsSubscriptionOf(once.charges[k], uid, "active")
      {
        if k != i {
          assert once.charges[k] == s.charges[k];
        }
      }
      NoMatches(once.charges, uid, "active");
    }
  }

  // ---------------------------------------------------------------------
  // The endpoint as it runs

  method HandleInvoice(db: Database, stripe: Stripe, invoice: StripeObject, now: int)
    returns (result: Result<()>, calls: seq<RemoteCall>)
    requires db.Valid()
    modifies db
    ensures db.Valid()
    ensures Reconciler.Outcome(db.Snapshot(), result, calls) == InvoiceHandlerSpec(old(db.Snapshot()), stripe, invoice, now)
  {
    calls := [RetrieveSubscription(invoice.subscription)];
    var subscription := stripe.retrieveSubscription(invoice.subscription);
    if subscription.Rejects? {
      return Err(Remote(subscription.error)), calls;
    }
    if subscription.value.metadata.None? {
      return Err(Crash("Cannot destructure property 'userId' of subscription.metadata")), calls;
    }
    var md := subscription.value.metadata.value;
    if AssociatedDocument(db.Snapshot(), md).None? {
      return Ok(()), calls;  // "Could not find ... document": caught and logged
    }
    var _, updateCalls := Reconciler.UpdateSubscription(db, stripe, subscription.value, md.userId, ArgsFrom(md), now);
    return Ok(()), calls + updateCalls;
  }

  method HandleCancelled(db: Database, stripe: Stripe, deleted: StripeObject)
    returns (result: Result<()>, calls: seq<RemoteCall>)
    requires db.Valid()
    modifies db
    ensures db.Valid()
    ensures Reconciler.Outcome(db.Snapshot(), result, calls) == CancelledHandlerSpec(old(db.Snapshot()), stripe, deleted)
  {
    calls := [RetrieveSubscription(Some(deleted.id))];
    var subscription := stripe.retrieveSubscription(Some(deleted.id));
    if subscription.Rejects? {
      return Err(Remote(subscription.error)), calls;
    }
    if subscription.value.metadata.None? {
      return Err(Crash("Cannot destructure property 'userId' of subscription.metadata")), calls;
    }
    var ref := AssociatedDocument(db.Snapshot(), subscription.value.metadata.value);
    if ref.None? {
      return Ok(()), calls;
    }
    var existingChargeDoc := FindSubscriptions(db.charges, ref.value.id, "active");
    if existingChargeDoc == [] {
      return Ok(()), calls;  // "no active subscription"
    }
    var _ := Reconciler.CancelSubscription(db, deleted, existingChargeDoc);
    return Ok(()), calls;
  }

  method Receive(db: Database, stripe: Stripe, signatureValid: bool, event: Event, now: int)
    returns (reply: Reply, calls: seq<RemoteCall>)
    requires db.Valid()
    modifies db
    ensures db.Valid()
    ensures Delivery(reply, db.Snapshot(), calls) == ReceiveSpec(old(db.Snapshot()), stripe, signatureValid, event, now)
  {
    if !signatureValid {
      return Status(400), [];  // "Webhook Error: ..."
    }
    var handler := Route(event.eventType);
    if handler.None? {
      return Status(400), [];
    }
    var result;
    if handler.value == SubscriptionDeleted {
      result, calls := HandleCancelled(db, stripe, event.payload);
    } else {
      result, calls := HandleInvoice(db, stripe, event.payload, now);
    }
    reply := if result.Ok? then Status(200) else NoReply;
  }
}
