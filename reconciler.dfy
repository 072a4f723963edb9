/** The reconciler: how a Stripe subscription snapshot becomes a charge
    record. An existing subscription record is updated in place, a new one is
    inserted (once per Stripe id) and linked to its associated document, and
    a cancellation rewrites the last of a list of fetched records. */
module Reconciler {
  import opened Records
  import opened Remote
  import opened Store
  import Entitlement
  import ChargesCollection

  /** The end of an operation: the new store, what it returned or threw,
      and the Stripe calls it made, in order. */
  datatype Outcome<T> = Outcome(state: State, result: Result<T>, calls: seq<RemoteCall>)

  const MissingAssociation := "assocatedCollection and associatedDocument are missing."

  function AlreadyExists(id: string): string
  {
    "Charge with Stripe id" + id + "already exists."
  }

  // ---------------------------------------------------------------------
  // Record fields

  /** The template `https://dashboard.stripe.com/${!livemode && 'test/'}subscriptions/${id}`:
      in live mode `!livemode && 'test/'` is `false`, which the template
      writes out as the text "false". */
  function DashboardUrl(livemode: bool, id: string): (url: string)
    ensures !livemode ==> url == "https://dashboard.stripe.com/test/subscriptions/" + id
    ensures livemode ==> url == "https://dashboard.stripe.com/falsesubscriptions/" + id
    ensures |url| >= |id| && url[|url| - |id|..] == id
  {
    "https://dashboard.stripe.com/" + (if livemode then "false" else "test/") + "subscriptions/" + id
  }

  /** Two URLs for the same mode are equal only for the same id. */
  lemma DashboardUrlNamesTheObject(livemode: bool, id1: string, id2: string)
    requires DashboardUrl(livemode, id1) == DashboardUrl(livemode, id2)
    ensures id1 == id2
  {
    var u := DashboardUrl(livemode, id1);
    assert |id1| == |id2|;
    assert id1 == u[|u| - |id1|..];
  }

  /** Equal except, possibly, in the five fields the update path writes. */
  predicate SameRecordBut5(a: Charge, b: Charge)
  {
    a.(status := b.status, data := b.data, stripeChargeUrl := b.stripeChargeUrl,
       currentPeriodEnd := b.currentPeriodEnd, currentPeriodStart := b.currentPeriodStart) == b
  }

  /** The fetched record with the snapshot's status, data, URL and period copied in. */
  function Synced(c: Charge, so: StripeObject): (r: Charge)
    ensures r.status == so.status && r.data == so
    ensures r.stripeChargeUrl == DashboardUrl(so.livemode, so.id)
    ensures r.currentPeriodEnd == so.currentPeriodEnd && r.currentPeriodStart == so.currentPeriodStart
    ensures SameRecordBut5(r, c)
  {
    c.(status := so.status, data := so, stripeChargeUrl := DashboardUrl(so.livemode, so.id),
       currentPeriodEnd := so.currentPeriodEnd, currentPeriodStart := so.currentPeriodStart)
  }

  /** Copying the same snapshot in again changes nothing. */
  lemma SyncedIdempotent(c: Charge, so: StripeObject)
    ensures Synced(Synced(c, so), so) == Synced(c, so)
  {
  }

  /** `vulcanCancelSubscription`'s edit: as `Synced`, but the status is
      `canceled` whatever the snapshot says. */
  function Canceled(c: Charge, so: StripeObject): (r: Charge)
    ensures r.status == "canceled" && r.data == so
    ensures r.stripeChargeUrl == DashboardUrl(so.livemode, so.id)
    ensures r.currentPeriodEnd == so.currentPeriodEnd && r.currentPeriodStart == so.currentPeriodStart
    ensures SameRecordBut5(r, c)
  {
    Synced(c, so).(status := "canceled")
  }

  /** `product.apiId` when truthy, else `plan.id` when truthy, else null. */
  function ProductKey(product: Option<Product>, plan: Option<Plan>): (k: Option<string>)
    ensures product.Some? && Present(product.value.apiId) ==> k == product.value.apiId
    ensures !(product.Some? && Present(product.value.apiId)) && plan.Some? && plan.value.id != "" ==>
      k == Some(plan.value.id)
    ensures k.None? <==>
      !(product.Some? && Present(product.value.apiId)) && !(plan.Some? && plan.value.id != "")
  {
    if product.Some? && Present(product.value.apiId) then product.value.apiId
    else if plan.Some? && plan.value.id != "" then Some(plan.value.id)
    else None
  }

  /** The record the insert path creates (the store assigns its id). */
  function NewCharge(so: StripeObject, userId: Option<string>, args: Args,
                     latestInvoice: Option<string>, now: int): (c: Charge)
    requires so.plan.Some?
    ensures c.stripeId == so.id && c.status == so.status && c.chargeType == so.kind
    ensures c.test == !so.livemode && c.amount == so.plan.value.amount && c.data == so
    ensures c.productKey == ProductKey(args.product, so.plan) && c.source == "stripe"
    ensures c.userId == userId && c.createdAt == now && c.latestInvoice == latestInvoice
    ensures c.associatedCollection == args.associatedCollection
    ensures c.associatedDocument == args.associatedDocument
  {
    Charge(
      localId := 0,
      createdAt := now,
      userId := userId,
      chargeType := so.kind,
      associatedCollection := args.associatedCollection,
      associatedDocument := args.associatedDocument,
      productKey := ProductKey(args.product, so.plan),
      source := "stripe",
      test := !so.livemode,
      data := so,
      amount := so.plan.value.amount,
      currentPeriodStart := so.currentPeriodStart,
      currentPeriodEnd := so.currentPeriodEnd,
      latestInvoice := latestInvoice,
      stripeId := so.id,
      stripeChargeUrl := DashboardUrl(so.livemode, so.id),
      status := so.status)
  }

  /** A new record is already in sync with the snapshot it was made from. */
  lemma NewChargeInSync(so: StripeObject, userId: Option<string>, args: Args,
                        latestInvoice: Option<string>, now: int, id: nat)
    requires so.plan.Some?
    ensures Synced(NewCharge(so, userId, args, latestInvoice, now).(localId := id), so)
         == NewCharge(so, userId, args, latestInvoice, now).(localId := id)
  {
  }

  // ---------------------------------------------------------------------
  // Insert

  /** The invoice the new record's `latest_invoice` is taken from: the
      embedded one when it carries an id, otherwise whatever
      `invoices.retrieve` answers for `latest_invoice`. */
  function FetchInvoice(stripe: Stripe, li: LatestInvoice): (r: (Call<Invoice>, seq<RemoteCall>))
    ensures li.Expanded? && Present(li.invoice.id) ==> r == (Returns(li.invoice), [])
    ensures !(li.Expanded? && Present(li.invoice.id)) ==> r.1 == [RetrieveInvoice(li)]
  {
    if li.Expanded? && Present(li.invoice.id) then (Returns(li.invoice), [])
    else (stripe.retrieveInvoice(li), [RetrieveInvoice(li)])
  }

  /** The associated document after charge `id` is linked to it: the id
      is appended to its `chargeIds`, or becomes the only one. A document
      that is not found is left alone. */
  function Associate(documents: map<DocRef, Document>, ref: DocRef, id: nat): (r: map<DocRef, Document>)
    ensures r.Keys == documents.Keys
    ensures ref in documents && documents[ref].chargeIds.Some? ==>
      r[ref].chargeIds == Some(documents[ref].chargeIds.value + [id])
    ensures ref in documents && documents[ref].chargeIds.None? ==> r[ref].chargeIds == Some([id])
    ensures forall k :: k in documents && k != ref ==> r[k] == documents[k]
  {
    if ref in documents then
      var doc := documents[ref];
      var chargeIds := if doc.chargeIds.Some? then doc.chargeIds.value + [id] else [id];
      documents[ref := doc.(chargeIds := Some(chargeIds))]
    else documents
  }

  function AssociationOf(args: Args): DocRef
    requires args.associatedCollection.Some? && args.associatedDocument.Some?
  {
    DocRef(args.associatedCollection.value, args.associatedDocument.value)
  }

  /** `vulcanInsertNewSubscription`. */
  function InsertSpec(s: State, stripe: Stripe, so: StripeObject, userId: Option<string>,
                      args: Args, now: int): (r: Outcome<()>)
    ensures r.result.Err? ==> r.state == s
    ensures !(Present(args.associatedCollection) && Present(args.associatedDocument)) ==>
      r == Outcome(s, Err(Thrown(MissingAssociation)), [])
    ensures FindByDataId(s.charges, so.id).Some? ==> r.result.Err? && r.calls == []
    ensures r.result.Ok? ==>
      FindByDataId(s.charges, so.id).None? && so.plan.Some? &&
      |r.state.charges| == |s.charges| + 1 && r.state.charges[..|s.charges|] == s.charges &&
      Last(r.state.charges).data == so && Last(r.state.charges).localId == |s.charges|
    ensures Present(args.associatedCollection) && Present(args.associatedDocument) &&
            FindByDataId(s.charges, so.id).None? ==>
      var fetched := FetchInvoice(stripe, so.latestInvoice);
      r.calls == fetched.1 &&
      (r.result.Ok? <==> fetched.0.Returns? && so.plan.Some?)
    ensures r.result.Ok? ==>
      Present(args.associatedCollection) && Present(args.associatedDocument) && so.plan.Some? &&
      FetchInvoice(stripe, so.latestInvoice).0.Returns? &&
      var c := NewCharge(so, userId, args, FetchInvoice(stripe, so.latestInvoice).0.value.invoicePdf, now)
                 .(localId := |s.charges|);
      r.state == State(s.charges + [c], Entitlement.Apply(s.users, c),
                       Associate(s.documents, AssociationOf(args), |s.charges|))
  {
    if !(Present(args.associatedCollection) && Present(args.associatedDocument)) then
      Outcome(s, Err(Thrown(MissingAssociation)), [])
    else if FindByDataId(s.charges, so.id).Some? then
      Outcome(s, Err(Thrown(AlreadyExists(so.id))), [])
    else
      var fetched := FetchInvoice(stripe, so.latestInvoice);
      if fetched.0.Rejects? then Outcome(s, Err(Remote(fetched.0.error)), fetched.1)
      else if so.plan.None? then Outcome(s, Err(Crash("stripeObject.plan is undefined")), fetched.1)
      else
        var doc := NewCharge(so, userId, args, fetched.0.value.invoicePdf, now);
        var created := ChargesCollection.AfterCreate(s, doc);
        var documents := Associate(created.documents, AssociationOf(args), |s.charges|);
        Outcome(created.(documents := documents), Ok(()), fetched.1)
  }

  /** An insert never stores a second record for a Stripe id. */
  lemma {:induction false} InsertKeepsIdsUnique(s: State, stripe: Stripe, so: StripeObject,
                                                userId: Option<string>, args: Args, now: int)
    requires UniqueDataIds(s.charges)
    ensures UniqueDataIds(InsertSpec(s, stripe, so, userId, args, now).state.charges)
  {
    var r := InsertSpec(s, stripe, so, userId, args, now);
    if r.result.Ok? {
      var n := |s.charges|;
      forall i, j | 0 <= i < j < |r.state.charges|
        ensures r.state.charges[i].data.id != r.state.charges[j].data.id
      {
        if j == n {
          assert r.state.charges[i] == s.charges[i];
          assert r.state.charges[j].data.id == so.id;
        } else {
          assert r.state.charges[i] == s.charges[i] && r.state.charges[j] == s.charges[j];
        }
      }
    }
  }

  /** The insert's store writes: the charge, then the associated document. */
  method InsertNewSubscription(db: Database, stripe: Stripe, so: StripeObject, userId: Option<string>,
                               args: Args, now: int) returns (result: Result<()>, calls: seq<RemoteCall>)
    requires db.Valid()
    modifies db
    ensures db.Valid()
    ensures Outcome(db.Snapshot(), result, calls) == InsertSpec(old(db.Snapshot()), stripe, so, userId, args, now)
  {
    calls := [];
    if !(Present(args.associatedCollection) && Present(args.associatedDocument)) {
      return Err(Thrown(MissingAssociation)), calls;
    }
    var ref := AssociationOf(args);
    var document := if ref in db.documents then Some(db.documents[ref]) else None;
    if FindByDataId(db.charges, so.id).Some? {
      return Err(Thrown(AlreadyExists(so.id))), calls;
    }
    var invoice: Invoice;
    if so.latestInvoice.Expanded? && Present(so.latestInvoice.invoice.id) {
      invoice := so.latestInvoice.invoice;
    } else {
      calls := calls + [RetrieveInvoice(so.latestInvoice)];
      var answer := stripe.retrieveInvoice(so.latestInvoice);
      if answer.Rejects? {
        return Err(Remote(answer.error)), calls;
      }
      invoice := answer.value;
    }
    if so.plan.None? {
      return Err(Crash("stripeObject.plan is undefined")), calls;
    }
    var chargeDoc := NewCharge(so, userId, args, invoice.invoicePdf, now);
    var saved := ChargesCollection.Create(db, chargeDoc);
    if document.Some? {
      var chargeIds := if document.value.chargeIds.Some? then document.value.chargeIds.value + [saved.localId]
                       else [saved.localId];
      db.documents := db.documents[ref := document.value.(chargeIds := Some(chargeIds))];
    }
    return Ok(()), calls;
  }

  // ---------------------------------------------------------------------
  // Update

  /** `vulcanUpdateSubscription`: a subscription record with the
      snapshot's id is synced in place; otherwise the snapshot is inserted. */
  function UpdateSpec(s: State, stripe: Stripe, so: StripeObject, userId: Option<string>,
                      args: Args, now: int): (r: Outcome<StripeObject>)
    requires IdsArePositions(s.charges)
    ensures r.result.Ok? ==> r.result.value == so && HoldsSnapshot(r.state.charges, so)
    ensures r.result.Err? ==> r.state == s
    ensures |r.state.charges| >= |s.charges|
    ensures !HasSubscriptionRecord(s.charges, so.id) ==>
      var inserted := InsertSpec(s, stripe, so, userId, args, now);
      r.state == inserted.state && r.calls == inserted.calls &&
      (r.result.Ok? <==> inserted.result.Ok?)
  {
    var found := FindByDataId(s.charges, so.id);
    if found.Some? && s.charges[found.value].chargeType == "subscription" then
      Outcome(ChargesCollection.AfterUpdate(s, Synced(s.charges[found.value], so)), Ok(so), [])
    else
      var inserted := InsertSpec(s, stripe, so, userId, args, now);
      Outcome(inserted.state, if inserted.result.Ok? then Ok(so) else Err(inserted.result.failure), inserted.calls)
  }

  /** Some stored record holds the snapshot `so`. */
  predicate HoldsSnapshot(charges: seq<Charge>, so: StripeObject)
  {
    exists i :: 0 <= i < |charges| && charges[i].data == so
  }

  /** Whether the update path, not the insert path, is taken. */
  predicate HasSubscriptionRecord(charges: seq<Charge>, id: string)
  {
    var found := FindByDataId(charges, id);
    found.Some? && charges[found.value].chargeType == "subscription"
  }

  /** On the update path only the found record changes, and in it only the
      five synced fields; no Stripe call is made. */
  lemma UpdateChangesFiveFields(s: State, stripe: Stripe, so: StripeObject, userId: Option<string>,
                                args: Args, now: int)
    requires IdsArePositions(s.charges)
    requires HasSubscriptionRecord(s.charges, so.id)
    ensures var r := UpdateSpec(s, stripe, so, userId, args, now);
      var i := FindByDataId(s.charges, so.id).value;
      |r.state.charges| == |s.charges| && r.calls == [] &&
      r.state.charges[i].status == so.status && r.state.charges[i].data == so &&
      SameRecordBut5(r.state.charges[i], s.charges[i]) &&
      (forall j :: 0 <= j < |s.charges| && j != i ==> r.state.charges[j] == s.charges[j]) &&
      r.result == Ok(so) &&
      r.state.users == Entitlement.Apply(s.users, r.state.charges[i]) &&
      r.state.documents == s.documents
  {
    var i := FindByDataId(s.charges, so.id).value;
    assert s.charges[i].localId == i;
  }

  /** Updates never store a second record for a Stripe id. */
  lemma UpdateKeepsIdsUnique(s: State, stripe: Stripe, so: StripeObject, userId: Option<string>,
                             args: Args, now: int)
    requires IdsArePositions(s.charges) && UniqueDataIds(s.charges)
    ensures UniqueDataIds(UpdateSpec(s, stripe, so, userId, args, now).state.charges)
  {
    if HasSubscriptionRecord(s.charges, so.id) {
      var i := FindByDataId(s.charges, so.id).value;
      assert s.charges[i].localId == i;
    } else {
      InsertKeepsIdsUnique(s, stripe, so, userId, args, now);
    }
  }

  /** Delivering the same snapshot twice to an existing subscription
      record leaves the store as delivering it once. */
  lemma {:induction false} UpdateIdempotent(s: State, stripe: Stripe, so: StripeObject,
                                            userId: Option<string>, args: Args, now: int)
    requires IdsArePositions(s.charges)
    requires HasSubscriptionRecord(s.charges, so.id)
    requires forall id :: id in s.users ==> Entitlement.AtMostOnce(Entitlement.GroupsOf(s.users[id].groups))
    ensures var once := UpdateSpec(s, stripe, so, userId, args, now).state;
      IdsArePositions(once.charges) &&
      UpdateSpec(once, stripe, so, userId, args, now).state == once
  {
    var i := FindByDataId(s.charges, so.id).value;
    assert s.charges[i].localId == i;
    var c := Synced(s.charges[i], so);
    var once := UpdateSpec(s, stripe, so, userId, args, now).state;
    assert once == ChargesCollection.AfterUpdate(s, c);
    ChargesCollection.AfterUpdateKeepsIds(s, c);
    FindAfterUpdate(s.charges, i, c);
    assert FindByDataId(once.charges, so.id) == Some(i);
    SyncedIdempotent(s.charges[i], so);
    Entitlement.ApplyIdempotent(s.users, c);
    assert once.charges[i := c] == once.charges;
  }

  /** Replacing a record by one with the same Stripe id keeps where the
      first record with that id is. */
  lemma {:induction false} FindAfterUpdate(charges: seq<Charge>, i: nat, c: Charge)
    requires i < |charges| && c.data.id == charges[i].data.id
    requires FindByDataId(charges, c.data.id) == Some(i)
    ensures FindByDataId(charges[i := c], c.data.id) == Some(i)
  {
    var t := charges[i := c];
    var r := FindByDataId(t, c.data.id);
    assert t[i].data.id == c.data.id;
    forall j | 0 <= j < i ensures t[j].data.id != c.data.id {
      assert t[j] == charges[j];
    }
  }

  /** The webhook that follows the creation of a subscription record
      carries the subscription as Stripe returns it, `later`, with the same
      id: the update finds the new record rather than inserting a second
      one, makes no call, and syncs that record with `later`. When `later`
      is the inserted snapshot itself the record is written back unchanged. */
  lemma InsertThenUpdateKeepsRecord(s: State, stripe: Stripe, so: StripeObject,
                                    userId: Option<string>, args: Args, now: int,
                                    later: StripeObject, laterUserId: Option<string>, laterArgs: Args, laterNow: int)
    requires IdsArePositions(s.charges)
    requires InsertSpec(s, stripe, so, userId, args, now).result.Ok?
    requires so.kind == "subscription"
    requires later.id == so.id
    ensures var t := InsertSpec(s, stripe, so, userId, args, now).state;
      var n := |s.charges|;
      IdsArePositions(t.charges) && n < |t.charges| &&
      var u := UpdateSpec(t, stripe, later, laterUserId, laterArgs, laterNow);
      u.result == Ok(later) && u.calls == [] && |u.state.charges| == |t.charges| &&
      u.state.charges[n] == Synced(t.charges[n], later) &&
      (forall j :: 0 <= j < |t.charges| && j != n ==> u.state.charges[j] == t.charges[j]) &&
      u.state.users == Entitlement.Apply(t.users, u.state.charges[n]) &&
      u.state.documents == t.documents &&
      (later == so ==> u.state.charges == t.charges) &&
      (later == so && (forall id :: id in s.users ==> Entitlement.AtMostOnce(Entitlement.GroupsOf(s.users[id].groups))) ==>
        u.state == t)
  {
    var t := InsertSpec(s, stripe, so, userId, args, now).state;
    var n := |s.charges|;
    assert IdsArePositions(t.charges) by {
      forall k | 0 <= k < |t.charges| ensures t.charges[k].localId == k {
        if k < n { assert t.charges[k] == s.charges[k]; }
      }
    }
    assert FindByDataId(t.charges, so.id) == Some(n) by {
      forall j | 0 <= j < n ensures t.charges[j].data.id != so.id {
        assert t.charges[j] == s.charges[j];
      }
    }
    assert t.charges[n].chargeType == "subscription";
    if later == so {
      assert Synced(t.charges[n], so) == t.charges[n];
      assert t.charges[n := t.charges[n]] == t.charges;
      if forall id :: id in s.users ==> Entitlement.AtMostOnce(Entitlement.GroupsOf(s.users[id].groups)) {
        assert t.users == Entitlement.Apply(s.users, t.charges[n]);
        Entitlement.ApplyIdempotent(s.users, t.charges[n]);
      }
    }
  }

  /** A webhook update that finds a subscription record and carries status
      `active` leaves the metadata user in `paidMembers`; a user who was in
      at most one of the two groups is then no longer in `trialMembers`. */
  lemma ActiveUpdateGrantsPaid(s: State, stripe: Stripe, so: StripeObject, userId: Option<string>,
                               args: Args, now: int, uid: string)
    requires IdsArePositions(s.charges)
    requires HasSubscriptionRecord(s.charges, so.id)
    requires so.status == "active"
    requires so.metadata.Some? && so.metadata.value.userId == Some(uid) && uid in s.users
    ensures var users := UpdateSpec(s, stripe, so, userId, args, now).state.users;
      uid in users && users[uid].groups.Some? && Entitlement.PaidMembers in users[uid].groups.value
    ensures Entitlement.Exclusive(Entitlement.GroupsOf(s.users[uid].groups)) ==>
      var users := UpdateSpec(s, stripe, so, userId, args, now).state.users;
      Entitlement.TrialMembers !in Entitlement.GroupsOf(users[uid].groups)
  {
    var i := FindByDataId(s.charges, so.id).value;
    assert s.charges[i].localId == i;
    var c := Synced(s.charges[i], so);
    var groups := s.users[uid].groups;
    Entitlement.ApplyTouchesOnlyGroups(s.users, c, uid);
    var e := Entitlement.GroupsEdit(groups, "active");
    if e.Write? {
      Entitlement.GrantCounts(groups, Entitlement.PaidMembers, Entitlement.TrialMembers);
      assert multiset(e.groups)[Entitlement.PaidMembers] > 0;
      if Entitlement.Exclusive(Entitlement.GroupsOf(groups)) {
        Entitlement.ActivationSwitchesTag(groups, "active");
      }
    } else {
      if Entitlement.Exclusive(Entitlement.GroupsOf(groups)) {
        assert multiset(groups.value)[Entitlement.PaidMembers] > 0;
        assert multiset(groups.value)[Entitlement.TrialMembers] == 0;
      }
    }
  }

  // ---------------------------------------------------------------------
  // Creation order

  /** An insert at a time no earlier than every stored record keeps the
      store in creation order, so its reversal stays the default view. */
  lemma InsertKeepsOldestFirst(s: State, stripe: Stripe, so: StripeObject,
                               userId: Option<string>, args: Args, now: int)
    requires ChargesCollection.OldestFirst(s.charges)
    requires forall i :: 0 <= i < |s.charges| ==> s.charges[i].createdAt <= now
    ensures ChargesCollection.OldestFirst(InsertSpec(s, stripe, so, userId, args, now).state.charges)
  {
    var r := InsertSpec(s, stripe, so, userId, args, now);
    if r.result.Ok? {
      var fetched := FetchInvoice(stripe, so.latestInvoice);
      var doc := NewCharge(so, userId, args, fetched.0.value.invoicePdf, now);
      ChargesCollection.AfterCreateKeepsOldestFirst(s, doc);
    }
  }

  /** The update path never changes `createdAt`, and the insert path adds
      the newest record; either way creation order is kept. */
  lemma UpdateKeepsOldestFirst(s: State, stripe: Stripe, so: StripeObject,
                               userId: Option<string>, args: Args, now: int)
    requires IdsArePositions(s.charges)
    requires ChargesCollection.OldestFirst(s.charges)
    requires forall i :: 0 <= i < |s.charges| ==> s.charges[i].createdAt <= now
    ensures ChargesCollection.OldestFirst(UpdateSpec(s, stripe, so, userId, args, now).state.charges)
  {
    if HasSubscriptionRecord(s.charges, so.id) {
      var i := FindByDataId(s.charges, so.id).value;
      assert s.charges[i].localId == i;
      ChargesCollection.AfterUpdateKeepsOldestFirst(s, Synced(s.charges[i], so));
    } else {
      InsertKeepsOldestFirst(s, stripe, so, userId, args, now);
    }
  }

  /** A cancellation never changes `createdAt`, so creation order is kept. */
  lemma CancelKeepsOldestFirst(s: State, so: StripeObject, matches: seq<Charge>)
    requires IdsArePositions(s.charges)
    requires forall c :: c in matches ==> c in s.charges
    requires ChargesCollection.OldestFirst(s.charges)
    ensures ChargesCollection.OldestFirst(CancelSpec(s, so, matches).state.charges)
  {
    if matches != [] {
      var c := Last(matches);
      FetchedChargeIsStored(s.charges, c);
      ChargesCollection.AfterUpdateKeepsOldestFirst(s, Canceled(c, so));
    }
  }

  method UpdateSubscription(db: Database, stripe: Stripe, so: StripeObject, userId: Option<string>,
                            args: Args, now: int) returns (result: Result<StripeObject>, calls: seq<RemoteCall>)
    requires db.Valid()
    modifies db
    ensures db.Valid()
    ensures Outcome(db.Snapshot(), result, calls) == UpdateSpec(old(db.Snapshot()), stripe, so, userId, args, now)
  {
    var found := FindByDataId(db.charges, so.id);
    if found.Some? && db.charges[found.value].chargeType == "subscription" {
      var existing := db.charges[found.value];
      assert existing.localId == found.value;
      ChargesCollection.Update(db, Synced(existing, so));
      return Ok(so), [];
    }
    var inserted;
    inserted, calls := InsertNewSubscription(db, stripe, so, userId, args, now);
    result := if inserted.Ok? then Ok(so) else Err(inserted.failure);
  }

  // ---------------------------------------------------------------------
  // Cancel

  /** `vulcanCancelSubscription(so, matches)`: the last of the fetched
      records is canceled; an empty list fails on element -1. */
  function CancelSpec(s: State, so: StripeObject, matches: seq<Charge>): (r: Outcome<()>)
    requires IdsArePositions(s.charges)
    requires forall c :: c in matches ==> c in s.charges
    ensures r.calls == []
    ensures matches == [] <==> r.result.Err?
    ensures r.result.Err? ==> r.state == s
    ensures matches != [] ==>
      var i := Last(matches).localId;
      i < |s.charges| && |r.state.charges| == |s.charges| &&
      r.state.charges[i] == Canceled(s.charges[i], so) &&
      (forall j :: 0 <= j < |s.charges| && j != i ==> r.state.charges[j] == s.charges[j])
    ensures r.state.users == s.users && r.state.documents == s.documents
  {
    if matches == [] then Outcome(s, Err(Crash("existingChargeDoc[-1] is undefined")), [])
    else
      var c := Last(matches);
      FetchedChargeIsStored(s.charges, c);
      Outcome(ChargesCollection.AfterUpdate(s, Canceled(c, so)), Ok(()), [])
  }

  method CancelSubscription(db: Database, so: StripeObject, matches: seq<Charge>) returns (result: Result<()>)
    requires db.Valid()
    requires forall c :: c in matches ==> c in db.charges
    modifies db
    ensures db.Valid()
    ensures Outcome(db.Snapshot(), result, []) == CancelSpec(old(db.Snapshot()), so, matches)
  {
    if matches == [] {
      return Err(Crash("existingChargeDoc[-1] is undefined"));
    }
    var newChargeDoc := matches[|matches| - 1];
    FetchedChargeIsStored(db.charges, newChargeDoc);
    ChargesCollection.Update(db, Canceled(newChargeDoc, so));
    return Ok(());
  }
}
