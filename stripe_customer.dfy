/** The Stripe customer of a user: reading the id the user already has,
    and creating a customer and storing its id on the user. */
module StripeCustomer {
  import opened Records
  import opened Remote
  import opened Store
  import Reconciler

  /** `getStripeCustomerId`: the current user's customer id when truthy;
      `None` stands for the `false` it returns otherwise. */
  function GetStripeCustomerId(currentUser: Option<User>): (id: Option<string>)
    ensures id.Some? <==> currentUser.Some? && Present(currentUser.value.stripeCustomerId)
    ensures id.Some? ==> id == currentUser.value.stripeCustomerId && id.value != ""
  {
    if currentUser.Some? && Present(currentUser.value.stripeCustomerId) then currentUser.value.stripeCustomerId
    else None
  }

  /** `createStripeCustomer`. `settings` says whether the `stripe` setting
      is defined. The customer is created with the email of the current
      user as the context knows it; the id is then written to the stored
      user and read back from the store. */
  function CreateCustomerSpec(s: State, stripe: Stripe, settings: bool, currentUser: Option<User>): (r: Reconciler.Outcome<string>)
    ensures !settings ==> r == Reconciler.Outcome(s, Err(Thrown("Stripe settings not valid")), [])
    ensures settings && currentUser.Some? ==> r.calls == [CreateCustomer(currentUser.value.email)]
    ensures r.state.charges == s.charges && r.state.documents == s.documents && r.state.users.Keys == s.users.Keys
    ensures r.state != s ==>
      currentUser.Some? && stripe.createCustomer(currentUser.value.email).Returns? &&
      currentUser.value.id in s.users &&
      r.state.users == s.users[currentUser.value.id :=
        s.users[currentUser.value.id].(stripeCustomerId := Some(stripe.createCustomer(currentUser.value.email).value))]
    ensures r.result.Ok? ==>
      r.result.value != "" && currentUser.Some? && currentUser.value.id in r.state.users &&
      r.state.users[currentUser.value.id].stripeCustomerId == Some(r.result.value) &&
      stripe.createCustomer(currentUser.value.email) == Returns(r.result.value)
    ensures settings && currentUser.None? ==> r.result.Err? && r.state == s && r.calls == []
    ensures settings && currentUser.Some? && stripe.createCustomer(currentUser.value.email).Rejects? ==>
      r.result == Err(Remote(stripe.createCustomer(currentUser.value.email).error)) && r.state == s
    ensures settings && currentUser.Some? && currentUser.value.id !in s.users ==>
      r.result.Err? && r.state == s
    ensures settings && currentUser.Some? && currentUser.value.id in s.users &&
            stripe.createCustomer(currentUser.value.email).Returns? ==>
      var uid := currentUser.value.id;
      var id := stripe.createCustomer(currentUser.value.email).value;
      r.state == s.(users := s.users[uid := s.users[uid].(stripeCustomerId := Some(id))]) &&
      r.result == (if id != "" then Ok(id) else Err(Thrown("Failed to create a new customer.")))
  {
    if !settings then Reconciler.Outcome(s, Err(Thrown("Stripe settings not valid")), [])
    else if currentUser.None? then
      Reconciler.Outcome(s, Err(Crash("Cannot read property 'email' of undefined")), [])
    else
      var calls := [CreateCustomer(currentUser.value.email)];
      match stripe.createCustomer(currentUser.value.email)
      case Rejects(e) => Reconciler.Outcome(s, Err(Remote(e)), calls)
      case Returns(customerId) =>
        var id := currentUser.value.id;
        if id !in s.users then
          Reconciler.Outcome(s, Err(Crash("Cannot read property 'stripeCustomerId' of undefined")), calls)
        else
          var users := s.users[id := s.users[id].(stripeCustomerId := Some(customerId))];
          var stored := users[id].stripeCustomerId;
          if Present(stored) then Reconciler.Outcome(s.(users := users), Ok(stored.value), calls)
          else Reconciler.Outcome(s.(users := users), Err(Thrown("Failed to create a new customer.")), calls)
  }

  method CreateStripeCustomer(db: Database, stripe: Stripe, settings: bool, currentUser: Option<User>)
    returns (result: Result<string>, calls: seq<RemoteCall>)
    modifies db
    ensures db.Valid() == old(db.Valid())
    ensures Reconciler.Outcome(db.Snapshot(), result, calls) == CreateCustomerSpec(old(db.Snapshot()), stripe, settings, currentUser)
  {
    calls := [];
    if !settings {
      return Err(Thrown("Stripe settings not valid")), calls;
    }
    if currentUser.None? {
      return Err(Crash("Cannot read property 'email' of undefined")), calls;
    }
    calls := [CreateCustomer(currentUser.value.email)];
    var customer := stripe.createCustomer(currentUser.value.email);
    if customer.Rejects? {
      return Err(Remote(customer.error)), calls;
    }
    var id := currentUser.value.id;
    if id !in db.users {
      return Err(Crash("Cannot read property 'stripeCustomerId' of undefined")), calls;
    }
    db.users := db.users[id := db.users[id].(stripeCustomerId := Some(customer.value))];
    var updatedUser := LookupUser(db.users, Some(id));
    var stripeCustomerId := updatedUser.value.stripeCustomerId;
    if Present(stripeCustomerId) {
      return Ok(stripeCustomerId.value), calls;
    }
    return Err(Thrown("Failed to create a new customer.")), calls;
  }
}
