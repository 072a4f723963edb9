/** The database the server shares between requests and webhook events: the
    Charges collection in retrieval order, the Users collection and the
    documents charges are associated with, with the two store queries the
    bookkeeping uses. */
module Store {
  import opened Records

  datatype State = State(
    charges: seq<Charge>,
    users: map<string, User>,
    documents: map<DocRef, Document>)

  /** Charges are never deleted, so the store can hand out positions as ids. */
  predicate IdsArePositions(charges: seq<Charge>)
  {
    forall i :: 0 <= i < |charges| ==> charges[i].localId == i
  }

  /** At most one charge per Stripe object: the key the reconciler looks
      charges up by. */
  predicate UniqueDataIds(charges: seq<Charge>)
  {
    forall i, j :: 0 <= i < j < |charges| ==> charges[i].data.id != charges[j].data.id
  }

  class Database {
    var charges: seq<Charge>
    var users: map<string, User>
    var documents: map<DocRef, Document>

    function Snapshot(): State
      reads this
    {
      State(charges, users, documents)
    }

    predicate Valid()
      reads this
    {
      IdsArePositions(charges)
    }

    constructor (users: map<string, User>, documents: map<DocRef, Document>)
      ensures Valid()
      ensures Snapshot() == State([], users, documents)
    {
      this.charges := [];
      this.users := users;
      this.documents := documents;
    }
  }

  /** A charge fetched by id still sits at the position its id names. */
  lemma {:induction false} FetchedChargeIsStored(charges: seq<Charge>, c: Charge)
    requires IdsArePositions(charges)
    requires c in charges
    ensures c.localId < |charges| && charges[c.localId] == c
  {
    var i :| 0 <= i < |charges| && charges[i] == c;
    assert charges[i].localId == i;
  }

  /** `Connectors.get(Charges, {'data.id': id})`: the position of the first
      charge, in store order, whose snapshot has that id. */
  function FindByDataId(charges: seq<Charge>, id: string): (r: Option<nat>)
    ensures r.Some? ==> r.value < |charges| && charges[r.value].data.id == id
    ensures r.Some? ==> forall j :: 0 <= j < r.value ==> charges[j].data.id != id
    ensures r.None? <==> forall j :: 0 <= j < |charges| ==> charges[j].data.id != id
  {
    if charges == [] then None
    else if charges[0].data.id == id then Some(0)
    else
      match FindByDataId(charges[1..], id)
      case None => None
      case Some(k) => Some(k + 1)
  }

  /** The selector `{userId, 'data.status': status, 'data.object': 'subscription'}`. */
  predicate IsSubscriptionOf(c: Charge, userId: string, status: string)
  {
    c.userId == Some(userId) && c.data.status == status && c.data.kind == "subscription"
  }

  /** `Connectors.find` with that selector: the matching charges, in store order. */
  function FindSubscriptions(charges: seq<Charge>, userId: string, status: string): (r: seq<Charge>)
    ensures forall c :: c in r ==> c in charges && IsSubscriptionOf(c, userId, status)
    ensures forall i :: 0 <= i < |charges| && IsSubscriptionOf(charges[i], userId, status) ==> charges[i] in r
    ensures |r| <= |charges|
  {
    if charges == [] then []
    else
      (if IsSubscriptionOf(charges[0], userId, status) then [charges[0]] else [])
      + FindSubscriptions(charges[1..], userId, status)
  }

  /** The query keeps store order: the matches in a store made of two parts
      are the matches in the first part followed by those in the second. */
  lemma {:induction false} FindSubscriptionsAppend(a: seq<Charge>, b: seq<Charge>, userId: string, status: string)
    ensures FindSubscriptions(a + b, userId, status) ==
      FindSubscriptions(a, userId, status) + FindSubscriptions(b, userId, status)
  {
    if a == [] {
      assert a + b == b;
    } else {
      assert (a + b)[0] == a[0];
      assert (a + b)[1..] == a[1..] + b;
      FindSubscriptionsAppend(a[1..], b, userId, status);
    }
  }

  lemma {:induction false} NoMatches(charges: seq<Charge>, userId: string, status: string)
    requires forall k :: 0 <= k < |charges| ==> !IsSubscriptionOf(charges[k], userId, status)
    ensures FindSubscriptions(charges, userId, status) == []
  {
    if charges != [] {
      assert forall k :: 0 <= k < |charges| - 1 ==> charges[1..][k] == charges[k + 1];
      NoMatches(charges[1..], userId, status);
    }
  }

  /** What every caller taking the last element relies on: the last match
      is the matching charge that comes last in the store. */
  lemma {:induction false} LastMatchIsLastInStore(charges: seq<Charge>, userId: string, status: string, j: nat)
    requires j < |charges| && IsSubscriptionOf(charges[j], userId, status)
    requires forall k :: j < k < |charges| ==> !IsSubscriptionOf(charges[k], userId, status)
    ensures FindSubscriptions(charges, userId, status) != []
    ensures Last(FindSubscriptions(charges, userId, status)) == charges[j]
  {
    var front, back := charges[..j], charges[j + 1..];
    assert charges == front + ([charges[j]] + back);
    FindSubscriptionsAppend(front, [charges[j]] + back, userId, status);
    FindSubscriptionsAppend([charges[j]], back, userId, status);
    assert forall k :: 0 <= k < |back| ==> back[k] == charges[j + 1 + k];
    NoMatches(back, userId, status);
    assert FindSubscriptions([charges[j]], userId, status) == [charges[j]] by {
      assert [charges[j]][1..] == [];
    }
  }

  /** The search for a user's current subscription: the active
      subscription records, or the ones with status `fallback` when there
      are none. Both queries filter on the Stripe snapshot's status. */
  function ActiveOr(charges: seq<Charge>, userId: string, fallback: string): (m: seq<Charge>)
    ensures FindSubscriptions(charges, userId, "active") != [] ==> m == FindSubscriptions(charges, userId, "active")
    ensures FindSubscriptions(charges, userId, "active") == [] ==> m == FindSubscriptions(charges, userId, fallback)
    ensures forall c :: c in m ==>
      c in charges && (IsSubscriptionOf(c, userId, "active") || IsSubscriptionOf(c, userId, fallback))
  {
    var active := FindSubscriptions(charges, userId, "active");
    if active != [] then active else FindSubscriptions(charges, userId, fallback)
  }

  function LookupUser(users: map<string, User>, id: Option<string>): (r: Option<User>)
    ensures r.Some? <==> id.Some? && id.value in users
    ensures r.Some? ==> r.value == users[id.value]
  {
    if id.Some? && id.value in users then Some(users[id.value]) else None
  }
}
