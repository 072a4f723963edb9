/** The GraphQL mutations of the server: get-or-create a Stripe customer,
    create or retry a subscription, cancel it, and decide whether the
    current user's subscription still entitles them to the paid content. */
module Resolvers {
  import opened Records
  import opened Remote
  import opened Store
  import Entitlement
  import Reconciler
  import StripeCustomer
  import SubscriptionCommands

  // ---------------------------------------------------------------------
  // stripeCreateCustomer

  function StripeCreateCustomerSpec(s: State, stripe: Stripe, settings: bool, currentUser: Option<User>): (r: Reconciler.Outcome<string>)
    ensures StripeCustomer.GetStripeCustomerId(currentUser).Some? ==>
      r == Reconciler.Outcome(s, Ok(currentUser.value.stripeCustomerId.value), [])
    ensures StripeCustomer.GetStripeCustomerId(currentUser).None? ==>
      r == StripeCustomer.CreateCustomerSpec(s, stripe, settings, currentUser)
    ensures r.result.Ok? ==> r.result.value != ""
    ensures r.result != Err(Thrown("No Customer ID"))
  {
    var existingCustomerId := StripeCustomer.GetStripeCustomerId(currentUser);
    if existingCustomerId.Some? then Reconciler.Outcome(s, Ok(existingCustomerId.value), [])
    else
      var created := StripeCustomer.CreateCustomerSpec(s, stripe, settings, currentUser);
      match created.result
      case Err(f) => created
      case Ok(newCustomerId) =>
        if newCustomerId != "" then created
        else Reconciler.Outcome(created.state, Err(Thrown("No Customer ID")), created.calls)
  }

  /** Asking twice creates at most one customer: the second request finds
      the id the first one stored. */
  lemma {:induction false} CreateCustomerOnce(s: State, stripe: Stripe, settings: bool, u: User)
    requires u.id in s.users && s.users[u.id] == u
    requires StripeCreateCustomerSpec(s, stripe, settings, Some(u)).result.Ok?
    ensures var first := StripeCreateCustomerSpec(s, stripe, settings, Some(u));
      u.id in first.state.users &&
      var second := StripeCreateCustomerSpec(first.state, stripe, settings, Some(first.state.users[u.id]));
      second == Reconciler.Outcome(first.state, first.result, [])
  {
    var first := StripeCreateCustomerSpec(s, stripe, settings, Some(u));
    if !Present(u.stripeCustomerId) {
      var created := StripeCustomer.CreateCustomerSpec(s, stripe, settings, Some(u));
      assert first == created;
      assert first.state.users[u.id].stripeCustomerId == Some(first.result.value);
    }
  }

  method StripeCreateCustomer(db: Database, stripe: Stripe, settings: bool, currentUser: Option<User>)
    returns (result: Result<string>, calls: seq<RemoteCall>)
    modifies db
    ensures db.Valid() == old(db.Valid())
    ensures Reconciler.Outcome(db.Snapshot(), result, calls) == StripeCreateCustomerSpec(old(db.Snapshot()), stripe, settings, currentUser)
  {
    var existingCustomerId := StripeCustomer.GetStripeCustomerId(currentUser);
    if existingCustomerId.Some? {
      return Ok(existingCustomerId.value), [];
    }
    var newCustomerId;
    newCustomerId, calls := StripeCustomer.CreateStripeCustomer(db, stripe, settings, currentUser);
    if newCustomerId.Err? {
      return newCustomerId, calls;
    }
    if newCustomerId.value == "" {
      return Err(Thrown("No Customer ID")), calls;
    }
    return newCustomerId, calls;
  }

  // ---------------------------------------------------------------------
  // stripeCreateSubscription

  /** The two shapes of the mutation's answer: `{invoice}` and `{subscription}`. */
  datatype Payment = PaidInvoice(invoice: Invoice) | NewSubscription(subscription: StripeObject)

  function StripeCreateSubscriptionSpec(s: State, stripe: Stripe, args: Args, userName: Option<string>,
                                        userProfile: Option<string>, now: int): (r: Reconciler.Outcome<Payment>)
    ensures args.retry == Some(true) ==>
      r.state == s && r.calls == SubscriptionCommands.RetrySpec(stripe, args).1 &&
      (r.result.Ok? <==> SubscriptionCommands.RetrySpec(stripe, args).0.Ok?) &&
      (r.result.Ok? ==> r.result.value == PaidInvoice(SubscriptionCommands.RetrySpec(stripe, args).0.value))
    ensures args.retry != Some(true) ==>
      var created := SubscriptionCommands.CreateSpec(s, stripe, args, userName, userProfile, now);
      r.state == created.state && r.calls == created.calls &&
      (r.result.Ok? <==> created.result.Ok?) &&
      (r.result.Ok? ==> r.result.value == NewSubscription(created.result.value))
    ensures r.result != Err(Thrown("Error processing payment"))
  {
    if args.retry == Some(true) then
      var (invoiceObject, calls) := SubscriptionCommands.RetrySpec(stripe, args);
      Reconciler.Outcome(s, if invoiceObject.Ok? then Ok(PaidInvoice(invoiceObject.value)) else Err(invoiceObject.failure), calls)
    else
      var created := SubscriptionCommands.CreateSpec(s, stripe, args, userName, userProfile, now);
      Reconciler.Outcome(created.state,
        if created.result.Ok? then Ok(NewSubscription(created.result.value)) else Err(created.result.failure),
        created.calls)
  }

  method StripeCreateSubscription(db: Database, stripe: Stripe, args: Args, userName: Option<string>,
                                  userProfile: Option<string>, now: int)
    returns (result: Result<Payment>, calls: seq<RemoteCall>)
    requires db.Valid()
    modifies db
    ensures db.Valid()
    ensures Reconciler.Outcome(db.Snapshot(), result, calls) ==
      StripeCreateSubscriptionSpec(old(db.Snapshot()), stripe, args, userName, userProfile, now)
  {
    if args.retry == Some(true) {
      var invoiceObject;
      invoiceObject, calls := SubscriptionCommands.RetrySpec(stripe, args).0, SubscriptionCommands.RetrySpec(stripe, args).1;
      result := if invoiceObject.Ok? then Ok(PaidInvoice(invoiceObject.value)) else Err(invoiceObject.failure);
    } else {
      var stripeSubscriptionObject;
      stripeSubscriptionObject, calls := SubscriptionCommands.CreateStripeSubscription(db, stripe, args, userName, userProfile, now);
      result := if stripeSubscriptionObject.Ok? then Ok(NewSubscription(stripeSubscriptionObject.value))
                else Err(stripeSubscriptionObject.failure);
    }
  }

  // ---------------------------------------------------------------------
  // stripeCancelSubscription

  function StripeCancelSubscriptionSpec(s: State, stripe: Stripe, currentUser: Option<User>): (r: Reconciler.Outcome<StripeObject>)
    requires IdsArePositions(s.charges)
    ensures var c := SubscriptionCommands.CancelCommandSpec(s, stripe, currentUser);
      r.state == c.state && r.calls == c.calls &&
      (c.result == Ok(None) ==> r.result == Err(Thrown("Error processing cancellation"))) &&
      (r.result.Ok? <==> c.result.Ok? && c.result.value.Some?) &&
      (r.result.Ok? ==> c.result.value == Some(r.result.value))
  {
    var deleted := SubscriptionCommands.CancelCommandSpec(s, stripe, currentUser);
    match deleted.result
    case Err(f) => Reconciler.Outcome(deleted.state, Err(f), deleted.calls)
    case Ok(None) => Reconciler.Outcome(deleted.state, Err(Thrown("Error processing cancellation")), deleted.calls)
    case Ok(Some(d)) => Reconciler.Outcome(deleted.state, Ok(d), deleted.calls)
  }

  /** A user without a Stripe customer id is told the cancellation failed,
      and nothing is called or written. */
  lemma CancelWithoutCustomer(s: State, stripe: Stripe, u: User)
    requires IdsArePositions(s.charges)
    requires u.id in s.users && !Present(s.users[u.id].stripeCustomerId)
    ensures StripeCancelSubscriptionSpec(s, stripe, Some(u)) ==
      Reconciler.Outcome(s, Err(Thrown("Error processing cancellation")), [])
  {
  }

  method StripeCancelSubscription(db: Database, stripe: Stripe, currentUser: Option<User>)
    returns (result: Result<StripeObject>, calls: seq<RemoteCall>)
    requires db.Valid()
    modifies db
    ensures db.Valid()
    ensures Reconciler.Outcome(db.Snapshot(), result, calls) == StripeCancelSubscriptionSpec(old(db.Snapshot()), stripe, currentUser)
  {
    var deletedSubscription;
    deletedSubscription, calls := SubscriptionCommands.CancelStripeSubscription(db, stripe, currentUser);
    if deletedSubscription.Err? {
      return Err(deletedSubscription.failure), calls;
    }
    if deletedSubscription.value.None? {
      return Err(Thrown("Error processing cancellation")), calls;
    }
    return Ok(deletedSubscription.value.value), calls;
  }

  // ---------------------------------------------------------------------
  // isSubscriptionActive

  const DayMs := 86400000
  const Two31 := 0x8000_0000
  const Two32 := 0x1_0000_0000

  /** JavaScript's `ToInt32`, which `x | 0` applies: wrap to 32 bits, signed. */
  function ToInt32(x: int): (r: int)
    ensures -Two31 <= r < Two31
    ensures (r - x) % Two32 == 0
    ensures -Two31 <= x < Two31 ==> r == x
  {
    var m := x % Two32;
    if m >= Two31 then m - Two32 else m
  }

  /** Division truncated toward zero, as the double division followed by
      `| 0` rounds. */
  function TruncDiv(a: int, b: int): int
    requires b > 0
  {
    if a >= 0 then a / b else -((-a) / b)
  }

  /** `date / 1000 | 0` for `date` one day before `nowMs` (milliseconds
      since the epoch). */
  function GraceTimestamp(nowMs: int): int
  {
    ToInt32(TruncDiv(nowMs - DayMs, 1000))
  }

  /** Until 2038 the grace timestamp is the whole number of seconds one day ago. */
  lemma GraceBefore2038(nowMs: int)
    requires DayMs <= nowMs < DayMs + Two31 * 1000
    ensures GraceTimestamp(nowMs) == (nowMs - DayMs) / 1000
    ensures GraceTimestamp(nowMs) * 1000 <= nowMs - DayMs < (GraceTimestamp(nowMs) + 1) * 1000
  {
  }

  /** From January 2038 for the next 68 years the 32-bit wrap makes the grace
      timestamp negative, so no record with a period end at or after 1970 is
      ever seen as expired. */
  lemma GraceWrapsAfter2038(nowMs: int)
    requires DayMs + Two31 * 1000 <= nowMs < DayMs + Two32 * 1000
    ensures GraceTimestamp(nowMs) < 0
  {
    var t := TruncDiv(nowMs - DayMs, 1000);
    assert Two31 <= t < Two32;
    assert t % Two32 == t;
  }

  /** The checked status is the record's own `status`, not the snapshot's. */
  predicate Checkable(c: Charge)
  {
    c.status == "active" || c.status == "trialing" || c.status == "canceled"
  }

  predicate IsMember(users: map<string, User>, userId: Option<string>)
  {
    var user := LookupUser(users, userId);
    user.Some? &&
      (Entitlement.PaidMembers in Entitlement.GroupsOf(user.value.groups) ||
       Entitlement.TrialMembers in Entitlement.GroupsOf(user.value.groups))
  }

  function ExpiryArgs(md: Metadata): Args
  {
    Args(None, None, None, md.associatedCollection, md.associatedDocument, None, None, md.userId)
  }

  /** The expiry branch: the record's snapshot is saved again with status
      `expired`, and the answer is false. */
  function ExpireSpec(s: State, stripe: Stripe, chargeDoc: Charge, userId: string, nowMs: int): (r: Reconciler.Outcome<Option<bool>>)
    requires IdsArePositions(s.charges)
    ensures chargeDoc.data.metadata.None? ==> r.result.Err? && r.state == s && r.calls == []
    ensures r.result.Err? ==> r.state == s
    ensures r.result.Ok? ==>
      r.result.value == Some(false) && Reconciler.HoldsSnapshot(r.state.charges, chargeDoc.data.(status := "expired"))
  {
    if chargeDoc.data.metadata.None? then
      Reconciler.Outcome(s, Err(Crash("Cannot read property 'userId' of undefined")), [])
    else
      var expiredStripeObject := chargeDoc.data.(status := "expired");
      var saved := Reconciler.UpdateSpec(s, stripe, expiredStripeObject, Some(userId),
                                         ExpiryArgs(chargeDoc.data.metadata.value), nowMs);
      Reconciler.Outcome(saved.state, if saved.result.Ok? then Ok(Some(false)) else Err(saved.result.failure), saved.calls)
  }

  /** What `isSubscriptionActive` does with the last record it found. */
  function CheckSpec(s: State, stripe: Stripe, chargeDoc: Charge, userId: string, nowMs: int): (r: Reconciler.Outcome<Option<bool>>)
    requires IdsArePositions(s.charges)
    ensures !Checkable(chargeDoc) ==> r == Reconciler.Outcome(s, Ok(None), [])
    ensures Checkable(chargeDoc) && GraceTimestamp(nowMs) > chargeDoc.currentPeriodEnd ==>
      r.result.Err? || r.result == Ok(Some(false))
    ensures Checkable(chargeDoc) && GraceTimestamp(nowMs) <= chargeDoc.currentPeriodEnd && chargeDoc.data.metadata.Some? ==>
      r == Reconciler.Outcome(s, Ok(Some(IsMember(s.users, chargeDoc.data.metadata.value.userId))), [])
    ensures Checkable(chargeDoc) && GraceTimestamp(nowMs) <= chargeDoc.currentPeriodEnd && chargeDoc.data.metadata.None? ==>
      r.result.Err? && r.state == s && r.calls == []
  {
    if !Checkable(chargeDoc) then Reconciler.Outcome(s, Ok(None), [])
    else if GraceTimestamp(nowMs) > chargeDoc.currentPeriodEnd then
      ExpireSpec(s, stripe, chargeDoc, userId, nowMs)
    else if chargeDoc.data.metadata.Some? then
      Reconciler.Outcome(s, Ok(Some(IsMember(s.users, chargeDoc.data.metadata.value.userId))), [])
    else
      Reconciler.Outcome(s, Err(Crash("isValid is not defined")), [])
  }

  /** `isSubscriptionActive`; `Ok(None)` is the `undefined` it returns for a
      record whose status is none of the three it checks. */
  function IsActiveSpec(s: State, stripe: Stripe, currentUser: Option<User>, nowMs: int): (r: Reconciler.Outcome<Option<bool>>)
    requires IdsArePositions(s.charges)
    ensures r.result.Err? ==> r.state == s
    ensures r.result == Ok(Some(true)) ==>
      currentUser.Some? && ActiveOr(s.charges, currentUser.value.id, "canceled") != [] &&
      var c := Last(ActiveOr(s.charges, currentUser.value.id, "canceled"));
      Checkable(c) && GraceTimestamp(nowMs) <= c.currentPeriodEnd && c.data.metadata.Some? &&
      IsMember(s.users, c.data.metadata.value.userId) && r.state == s
    ensures r.state != s ==> r.result == Ok(Some(false))
    ensures currentUser.None? || ActiveOr(s.charges, currentUser.value.id, "canceled") == [] ==>
      r == Reconciler.Outcome(s, Ok(Some(false)), [])
    ensures currentUser.Some? && ActiveOr(s.charges, currentUser.value.id, "canceled") != [] ==>
      var c := Last(ActiveOr(s.charges, currentUser.value.id, "canceled"));
      (!Checkable(c) ==> r == Reconciler.Outcome(s, Ok(None), [])) &&
      (Checkable(c) && GraceTimestamp(nowMs) <= c.currentPeriodEnd && c.data.metadata.Some? ==>
        r == Reconciler.Outcome(s, Ok(Some(IsMember(s.users, c.data.metadata.value.userId))), []))
  {
    if currentUser.None? then Reconciler.Outcome(s, Ok(Some(false)), [])
    else
      var userId := currentUser.value.id;
      var chargeDocs := ActiveOr(s.charges, userId, "canceled");
      if chargeDocs == [] then Reconciler.Outcome(s, Ok(Some(false)), [])
      else
        CheckSpec(s, stripe, Last(chargeDocs), userId, nowMs)
  }

  /** An expired record: its subscription record is rewritten with status
      `expired` in both the record and its snapshot, the answer is false,
      and the entitlement callback sees the `expired` status. */
  lemma {:induction false} ExpiryMarksRecord(s: State, stripe: Stripe, u: User, nowMs: int)
    requires IdsArePositions(s.charges) && UniqueDataIds(s.charges)
    requires ActiveOr(s.charges, u.id, "canceled") != []
    requires var c := Last(ActiveOr(s.charges, u.id, "canceled"));
      Checkable(c) && GraceTimestamp(nowMs) > c.currentPeriodEnd && c.data.metadata.Some? &&
      c.chargeType == "subscription"
    ensures var c := Last(ActiveOr(s.charges, u.id, "canceled"));
      var r := IsActiveSpec(s, stripe, Some(u), nowMs);
      c.localId < |s.charges| && |r.state.charges| == |s.charges| &&
      r.result == Ok(Some(false)) && r.calls == [] &&
      r.state.charges[c.localId].status == "expired" &&
      r.state.charges[c.localId].data == c.data.(status := "expired") &&
      r.state.users == Entitlement.Apply(s.users, r.state.charges[c.localId])
  {
    var m := ActiveOr(s.charges, u.id, "canceled");
    var c := Last(m);
    assert c in m;
    FetchedChargeIsStored(s.charges, c);
    var i := c.localId;
    assert FindByDataId(s.charges, c.data.id) == Some(i) by {
      var k := FindByDataId(s.charges, c.data.id).value;
      assert s.charges[k].data.id == s.charges[i].data.id;
    }
  }

  method Expire(db: Database, stripe: Stripe, chargeDoc: Charge, userId: string, nowMs: int)
    returns (result: Result<Option<bool>>, calls: seq<RemoteCall>)
    requires db.Valid()
    modifies db
    ensures db.Valid()
    ensures Reconciler.Outcome(db.Snapshot(), result, calls) == ExpireSpec(old(db.Snapshot()), stripe, chargeDoc, userId, nowMs)
  {
    calls := [];
    if chargeDoc.data.metadata.None? {
      return Err(Crash("Cannot read property 'userId' of undefined")), calls;
    }
    var args := ExpiryArgs(chargeDoc.data.metadata.value);
    var expiredStripeObject := chargeDoc.data.(status := "expired");
    var saved;
    saved, calls := Reconciler.UpdateSubscription(db, stripe, expiredStripeObject, Some(userId), args, nowMs);
    if saved.Err? {
      return Err(saved.failure), calls;
    }
    return Ok(Some(false)), calls;
  }

  method Check(db: Database, stripe: Stripe, chargeDoc: Charge, userId: string, nowMs: int)
    returns (result: Result<Option<bool>>, calls: seq<RemoteCall>)
    requires db.Valid()
    modifies db
    ensures db.Valid()
    ensures Reconciler.Outcome(db.Snapshot(), result, calls) == CheckSpec(old(db.Snapshot()), stripe, chargeDoc, userId, nowMs)
  {
    calls := [];
    if !Checkable(chargeDoc) {
      return Ok(None), calls;
    }
    var periodEndDateTimeStamp := chargeDoc.currentPeriodEnd;
    var currentTimeStamp := GraceTimestamp(nowMs);
    if currentTimeStamp > periodEndDateTimeStamp {
      result, calls := Expire(db, stripe, chargeDoc, userId, nowMs);
      return;
    }
    if chargeDoc.data.metadata.Some? {
      return Ok(Some(IsMember(db.users, chargeDoc.data.metadata.value.userId))), calls;
    }
    return Err(Crash("isValid is not defined")), calls;
  }

  method IsSubscriptionActive(db: Database, stripe: Stripe, currentUser: Option<User>, nowMs: int)
    returns (result: Result<Option<bool>>, calls: seq<RemoteCall>)
    requires db.Valid()
    modifies db
    ensures db.Valid()
    ensures Reconciler.Outcome(db.Snapshot(), result, calls) == IsActiveSpec(old(db.Snapshot()), stripe, currentUser, nowMs)
  {
    calls := [];
    if currentUser.None? {
      return Ok(Some(false)), calls;
    }
    var userId := currentUser.value.id;
    var chargeDocs := FindSubscriptions(db.charges, userId, "active");
    if chargeDocs == [] {
      chargeDocs := FindSubscriptions(db.charges, userId, "canceled");
      if chargeDocs == [] {
        return Ok(Some(false)), calls;
      }
    }
    ghost var s := db.Snapshot();
    assert chargeDocs == ActiveOr(s.charges, userId, "canceled");
    result, calls := Check(db, stripe, chargeDocs[|chargeDocs| - 1], userId, nowMs);
    assert Reconciler.Outcome(db.Snapshot(), result, calls) == CheckSpec(s, stripe, Last(chargeDocs), userId, nowMs);
  }
}
