/** The Charges collection: who may read a charge, the order its default
    view lists charges in, and the two writes the server makes to it, each
    followed by the entitlement callback the collection registers for it. */
module ChargesCollection {
  import opened Records
  import opened Store
  import Entitlement

  /** `Charges.checkAccess`: admins read every charge; a user reads the
      charges associated with the user's own id; nobody else reads it. An
      anonymous request fails on `currentUser._id` before any of that. */
  function CheckAccess(currentUser: Option<User>, charge: Charge): (allowed: Result<bool>)
    ensures currentUser.None? <==> allowed.Err?
    ensures currentUser.Some? && currentUser.value.isAdmin ==> allowed == Ok(true)
    ensures currentUser.Some? && charge.associatedDocument == Some(currentUser.value.id) ==> allowed == Ok(true)
    ensures allowed == Ok(true) ==>
      currentUser.value.isAdmin || charge.associatedDocument == Some(currentUser.value.id)
  {
    if currentUser.None? then Err(Crash("Cannot read property '_id' of null"))
    else
      var canReadField := charge.associatedDocument == Some(currentUser.value.id);
      Ok(currentUser.value.isAdmin || canReadField)
  }

  // ---------------------------------------------------------------------
  // The default view: `createdAt` descending

  predicate NewestFirst(v: seq<Charge>)
  {
    forall i, j :: 0 <= i < j < |v| ==> v[i].createdAt >= v[j].createdAt
  }

  predicate OldestFirst(v: seq<Charge>)
  {
    forall i, j :: 0 <= i < j < |v| ==> v[i].createdAt <= v[j].createdAt
  }

  function Reversed(v: seq<Charge>): (r: seq<Charge>)
    ensures |r| == |v|
    ensures forall i :: 0 <= i < |v| ==> r[i] == v[|v| - 1 - i]
  {
    if v == [] then [] else Reversed(v[1..]) + [v[0]]
  }

  /** A listing the default view may give: every stored charge, each as
      often as stored, sorted by `createdAt` descending. Charges created at
      the same time may come in any order. */
  predicate IsDefaultView(store: seq<Charge>, view: seq<Charge>)
  {
    NewestFirst(view) && multiset(view) == multiset(store)
  }

  /** The store keeps charges in insertion order; while creation times do
      not go back, that order reversed is a default view. */
  lemma {:induction false} DefaultViewIsNewestFirst(charges: seq<Charge>)
    requires OldestFirst(charges)
    ensures IsDefaultView(charges, Reversed(charges))
  {
    var r := Reversed(charges);
    forall i, j | 0 <= i < j < |r|
      ensures r[i].createdAt >= r[j].createdAt
    {
      assert r[i] == charges[|charges| - 1 - i] && r[j] == charges[|charges| - 1 - j];
    }
    ReversedMultiset(charges);
  }

  lemma {:induction false} ReversedMultiset(v: seq<Charge>)
    ensures multiset(Reversed(v)) == multiset(v)
  {
    if v != [] {
      ReversedMultiset(v[1..]);
      assert v == [v[0]] + v[1..];
    }
  }

  /** The queries take the last match as the most recent one: while
      creation times do not go back, no match is newer. */
  lemma {:induction false} LastMatchIsNewest(charges: seq<Charge>, userId: string, status: string)
    requires OldestFirst(charges)
    requires FindSubscriptions(charges, userId, status) != []
    ensures forall c :: c in FindSubscriptions(charges, userId, status) ==>
      c.createdAt <= Last(FindSubscriptions(charges, userId, status)).createdAt
  {
    var m := FindSubscriptions(charges, userId, status);
    if IsSubscriptionOf(charges[0], userId, status) && FindSubscriptions(charges[1..], userId, status) == [] {
      assert m == [charges[0]];
    } else if IsSubscriptionOf(charges[0], userId, status) {
      var rest := FindSubscriptions(charges[1..], userId, status);
      LastMatchIsNewest(charges[1..], userId, status);
      assert m == [charges[0]] + rest;
      assert Last(m) == Last(rest);
      assert Last(rest) in charges[1..];
      var k :| 0 <= k < |charges[1..]| && charges[1..][k] == Last(rest);
      assert charges[0].createdAt <= charges[k + 1].createdAt;
    } else {
      assert m == FindSubscriptions(charges[1..], userId, status);
      LastMatchIsNewest(charges[1..], userId, status);
    }
  }

  // ---------------------------------------------------------------------
  // Writes: `createMutator` and `updateMutator` on Charges, each followed by
  // `updateSubscriptionStatus`

  /** The store after a charge is created: the charge is appended under the
      next id and the callback runs on it. */
  function AfterCreate(s: State, doc: Charge): (r: State)
    ensures r.charges == s.charges + [doc.(localId := |s.charges|)]
    ensures r.users == Entitlement.Apply(s.users, doc.(localId := |s.charges|))
    ensures r.documents == s.documents
  {
    var saved := doc.(localId := |s.charges|);
    State(s.charges + [saved], Entitlement.Apply(s.users, saved), s.documents)
  }

  /** The store after the charge with `c`'s id is replaced by `c`. */
  function AfterUpdate(s: State, c: Charge): (r: State)
    requires c.localId < |s.charges|
    ensures |r.charges| == |s.charges| && r.charges[c.localId] == c
    ensures forall i :: 0 <= i < |s.charges| && i != c.localId ==> r.charges[i] == s.charges[i]
    ensures r.users == Entitlement.Apply(s.users, c)
    ensures r.documents == s.documents
  {
    State(s.charges[c.localId := c], Entitlement.Apply(s.users, c), s.documents)
  }

  /** Both writes keep ids equal to positions. */
  lemma AfterCreateKeepsIds(s: State, doc: Charge)
    requires IdsArePositions(s.charges)
    ensures IdsArePositions(AfterCreate(s, doc).charges)
  {
  }

  lemma AfterUpdateKeepsIds(s: State, c: Charge)
    requires IdsArePositions(s.charges)
    requires c.localId < |s.charges|
    ensures IdsArePositions(AfterUpdate(s, c).charges)
  {
  }

  /** A create keeps the store in creation order when the new charge is
      no older than any stored one. */
  lemma AfterCreateKeepsOldestFirst(s: State, doc: Charge)
    requires OldestFirst(s.charges)
    requires forall i :: 0 <= i < |s.charges| ==> s.charges[i].createdAt <= doc.createdAt
    ensures OldestFirst(AfterCreate(s, doc).charges)
  {
  }

  /** An update that leaves `createdAt` alone keeps the store in creation order. */
  lemma AfterUpdateKeepsOldestFirst(s: State, c: Charge)
    requires OldestFirst(s.charges)
    requires c.localId < |s.charges| && c.createdAt == s.charges[c.localId].createdAt
    ensures OldestFirst(AfterUpdate(s, c).charges)
  {
  }

  method Create(db: Database, doc: Charge) returns (saved: Charge)
    requires db.Valid()
    modifies db
    ensures db.Valid()
    ensures saved == doc.(localId := |old(db.charges)|)
    ensures db.Snapshot() == AfterCreate(old(db.Snapshot()), doc)
  {
    saved := doc.(localId := |db.charges|);
    db.charges := db.charges + [saved];
    Entitlement.UpdateSubscriptionStatus(db, saved);
  }

  method Update(db: Database, c: Charge)
    requires db.Valid()
    requires c.localId < |db.charges|
    modifies db
    ensures db.Valid()
    ensures db.Snapshot() == AfterUpdate(old(db.Snapshot()), c)
  {
    db.charges := db.charges[c.localId := c];
    Entitlement.UpdateSubscriptionStatus(db, c);
  }
}
