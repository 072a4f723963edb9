/** The entitlement resolver: after a charge is written, the status of the
    charge decides which of the two entitlement groups its user is put in.
    `paidMembers` and `trialMembers` are the only groups it adds or removes. */
module Entitlement {
  import opened Records
  import opened Store

  const PaidMembers := "paidMembers"
  const TrialMembers := "trialMembers"

  predicate IsTag(g: string)
  {
    g == PaidMembers || g == TrialMembers
  }

  // ---------------------------------------------------------------------
  // The array primitives the resolver uses

  /** `indexOf`: the first position of `x`, or -1 when there is none. */
  function IndexOf(s: seq<string>, x: string): (i: int)
    ensures -1 <= i < |s|
    ensures i == -1 <==> x !in s
    ensures i >= 0 ==> s[i] == x && x !in s[..i]
  {
    if s == [] then -1
    else if s[0] == x then 0
    else
      var j := IndexOf(s[1..], x);
      assert s[1..][..j + 1] == s[1..j + 2] by {
        if j >= 0 { assert s[1..][..j + 1] == s[1..][..j] + [s[j + 1]]; }
      }
      if j == -1 then -1 else j + 1
  }

  /** `splice(i, 1)`: the sequence without its element at position `i`. */
  function Splice(s: seq<string>, i: nat): seq<string>
    requires i < |s|
  {
    s[..i] + s[i + 1..]
  }

  /** The effect of finding `x` with `indexOf` and splicing it out. */
  function RemoveFirst(s: seq<string>, x: string): (r: seq<string>)
    ensures multiset(r) == multiset(s) - multiset{x}
  {
    var i := IndexOf(s, x);
    if i > -1 then
      assert s == s[..i] + [x] + s[i + 1..];
      Splice(s, i)
    else s
  }

  /** The groups of a user other than the two entitlement tags, in order. */
  function Others(s: seq<string>): seq<string>
  {
    if s == [] then []
    else (if IsTag(s[0]) then [] else [s[0]]) + Others(s[1..])
  }

  lemma {:induction false} OthersAppend(a: seq<string>, b: seq<string>)
    ensures Others(a + b) == Others(a) + Others(b)
  {
    if a == [] {
      assert a + b == b;
    } else {
      assert (a + b)[1..] == a[1..] + b;
      OthersAppend(a[1..], b);
    }
  }

  /** Splicing out an entitlement tag leaves every other group, in order. */
  lemma {:induction false} RemoveFirstKeepsOthers(s: seq<string>, x: string)
    requires IsTag(x)
    ensures Others(RemoveFirst(s, x)) == Others(s)
  {
    var i := IndexOf(s, x);
    if i > -1 {
      assert s == s[..i] + ([x] + s[i + 1..]);
      OthersAppend(s[..i], [x] + s[i + 1..]);
      OthersAppend([x], s[i + 1..]);
      OthersAppend(s[..i], s[i + 1..]);
      assert Others([x]) == [] by { assert [x][1..] == []; }
    }
  }

  // ---------------------------------------------------------------------
  // The status -> groups edit

  /** What `updateSubscriptionStatus` does to a user's groups: leave them,
      write a new list, or throw because the list is undefined. */
  datatype Edit = Keep | Write(groups: seq<string>) | Fail

  function GroupsOf(groups: Option<seq<string>>): seq<string>
  {
    if groups.Some? then groups.value else []
  }

  /** Each entitlement tag at most once. */
  predicate AtMostOnce(g: seq<string>)
  {
    multiset(g)[PaidMembers] <= 1 && multiset(g)[TrialMembers] <= 1
  }

  /** At most one entitlement tag in all: the user is in at most one of the
      two groups. */
  predicate Exclusive(g: seq<string>)
  {
    multiset(g)[PaidMembers] + multiset(g)[TrialMembers] <= 1
  }

  /** The list an `active` or `trialing` write stores: the old groups with
      `tag` appended and the first `other` spliced out. */
  function Grant(groups: Option<seq<string>>, tag: string, other: string): seq<string>
  {
    var updated := if groups.None? then [tag] else groups.value + [tag];
    RemoveFirst(updated, other)
  }

  /** The list any other status writes: the first of each tag spliced out. */
  function Revoke(groups: seq<string>): seq<string>
  {
    RemoveFirst(RemoveFirst(groups, PaidMembers), TrialMembers)
  }

  function GroupsEdit(groups: Option<seq<string>>, status: string): (e: Edit)
    ensures status == "canceled" ==> e == Keep
    ensures status == "active" ==> (e == Keep <==> groups.Some? && PaidMembers in groups.value)
    ensures status == "trialing" ==> (e == Fail <==> groups.None?)
    ensures status == "trialing" ==> (e == Keep <==> groups.Some? && TrialMembers in groups.value)
    ensures status !in {"active", "trialing", "canceled"} ==> (e == Keep <==> GroupsOf(groups) == [])
    ensures e == Fail ==> status == "trialing"
  {
    if status == "active" then
      if groups.None? || IndexOf(groups.value, PaidMembers) == -1 then
        Write(Grant(groups, PaidMembers, TrialMembers))
      else Keep
    else if status == "trialing" then
      if groups.None? then Fail
      else if IndexOf(groups.value, TrialMembers) == -1 then
        Write(Grant(groups, TrialMembers, PaidMembers))
      else Keep
    else if status != "canceled" then
      if groups.Some? && |groups.value| > 0 then
        Write(Revoke(groups.value))
      else Keep
    else Keep
  }

  /** A grant keeps every group other than the two tags, in order. */
  lemma GrantKeepsOthers(groups: Option<seq<string>>, tag: string, other: string)
    requires IsTag(tag) && IsTag(other)
    ensures Others(Grant(groups, tag, other)) == Others(GroupsOf(groups))
  {
    var updated := GroupsOf(groups) + [tag];
    assert Grant(groups, tag, other) == RemoveFirst(updated, other);
    RemoveFirstKeepsOthers(updated, other);
    OthersAppend(GroupsOf(groups), [tag]);
    assert Others([tag]) == [] by { assert [tag][1..] == []; }
  }

  /** Groups other than the two tags are never removed, and keep their order. */
  lemma EditKeepsOthers(groups: Option<seq<string>>, status: string)
    requires GroupsEdit(groups, status).Write?
    ensures Others(GroupsEdit(groups, status).groups) == Others(GroupsOf(groups))
  {
    if status == "active" {
      GrantKeepsOthers(groups, PaidMembers, TrialMembers);
    } else if status == "trialing" {
      GrantKeepsOthers(groups, TrialMembers, PaidMembers);
    } else {
      RemoveFirstKeepsOthers(groups.value, PaidMembers);
      RemoveFirstKeepsOthers(RemoveFirst(groups.value, PaidMembers), TrialMembers);
    }
  }

  /** How many times each tag occurs after a grant. */
  lemma {:induction false} GrantCounts(groups: Option<seq<string>>, tag: string, other: string)
    requires tag != other
    ensures multiset(Grant(groups, tag, other))[tag] == multiset(GroupsOf(groups))[tag] + 1
    ensures multiset(Grant(groups, tag, other))[other] ==
      if multiset(GroupsOf(groups))[other] > 0 then multiset(GroupsOf(groups))[other] - 1 else 0
  {
    var updated := if groups.None? then [tag] else groups.value + [tag];
    assert updated == GroupsOf(groups) + [tag];
    assert multiset(updated) == multiset(GroupsOf(groups)) + multiset{tag};
  }

  /** Revoking removes both tags from a list holding each at most once. */
  lemma {:induction false} RevokeCounts(g: seq<string>)
    requires AtMostOnce(g)
    ensures PaidMembers !in Revoke(g) && TrialMembers !in Revoke(g)
  {
    var r := Revoke(g);
    assert multiset(r)[PaidMembers] == 0;
    assert multiset(r)[TrialMembers] == 0;
  }

  /** The groups a user has after the edit. */
  function EditedGroups(groups: Option<seq<string>>, status: string): Option<seq<string>>
  {
    match GroupsEdit(groups, status)
    case Write(g) => Some(g)
    case _ => groups
  }

  /** With each tag held at most once, an `active` write leaves the user in
      `paidMembers` only, a `trialing` write in `trialMembers` only, and any
      other write in neither. */
  lemma ActivationSwitchesTag(groups: Option<seq<string>>, status: string)
    requires AtMostOnce(GroupsOf(groups))
    requires GroupsEdit(groups, status).Write?
    ensures status == "active" ==>
      var g := GroupsEdit(groups, status).groups;
      multiset(g)[PaidMembers] == 1 && TrialMembers !in g
    ensures status == "trialing" ==>
      var g := GroupsEdit(groups, status).groups;
      multiset(g)[TrialMembers] == 1 && PaidMembers !in g
    ensures status != "active" && status != "trialing" ==>
      var g := GroupsEdit(groups, status).groups;
      PaidMembers !in g && TrialMembers !in g
  {
    var g := GroupsEdit(groups, status).groups;
    if status == "active" {
      assert PaidMembers !in GroupsOf(groups);
      GrantCounts(groups, PaidMembers, TrialMembers);
      assert multiset(g)[TrialMembers] == 0;
    } else if status == "trialing" {
      assert TrialMembers !in GroupsOf(groups);
      GrantCounts(groups, TrialMembers, PaidMembers);
      assert multiset(g)[PaidMembers] == 0;
    } else {
      RevokeCounts(groups.value);
    }
  }

  /** A user in at most one entitlement group stays so after any edit. */
  lemma EditKeepsExclusive(groups: Option<seq<string>>, status: string)
    requires Exclusive(GroupsOf(groups))
    ensures Exclusive(GroupsOf(EditedGroups(groups, status)))
  {
    if GroupsEdit(groups, status).Write? {
      ActivationSwitchesTag(groups, status);
      var g := GroupsEdit(groups, status).groups;
      assert TrialMembers !in g ==> multiset(g)[TrialMembers] == 0;
      assert PaidMembers !in g ==> multiset(g)[PaidMembers] == 0;
    }
  }

  /** A list holding neither tag is left as it is by a revoke. */
  lemma RevokeWithoutTags(g: seq<string>)
    requires PaidMembers !in g && TrialMembers !in g
    ensures Revoke(g) == g
  {
    assert IndexOf(g, PaidMembers) == -1;
    assert IndexOf(g, TrialMembers) == -1;
  }

  /** Once written, the groups of an edit are a fixed point of the same
      status. */
  lemma WrittenIsFixed(groups: Option<seq<string>>, status: string)
    requires AtMostOnce(GroupsOf(groups))
    requires GroupsEdit(groups, status).Write?
    ensures var g := GroupsEdit(groups, status).groups;
      GroupsEdit(Some(g), status) == Keep || GroupsEdit(Some(g), status) == Write(g)
  {
    ActivationSwitchesTag(groups, status);
    var g := GroupsEdit(groups, status).groups;
    if status != "active" && status != "trialing" && status != "canceled" && g != [] {
      RevokeWithoutTags(g);
    }
  }

  /** Applying the same status twice gives the groups applying it once gives. */
  lemma EditIdempotent(groups: Option<seq<string>>, status: string)
    requires AtMostOnce(GroupsOf(groups))
    ensures EditedGroups(EditedGroups(groups, status), status) == EditedGroups(groups, status)
  {
    if GroupsEdit(groups, status).Write? {
      WrittenIsFixed(groups, status);
    }
  }

  // ---------------------------------------------------------------------
  // The callback

  /** The users after `updateSubscriptionStatus` runs on a written charge.
      A TypeError inside the callback (no such user, or `trialing` with
      undefined groups) leaves every user as it was. */
  function Apply(users: map<string, User>, charge: Charge): (r: map<string, User>)
    ensures r.Keys == users.Keys
  {
    if charge.data.metadata.Some? && charge.status != "" then
      var uid := charge.data.metadata.value.userId;
      if uid.Some? && uid.value in users then
        match GroupsEdit(users[uid.value].groups, charge.status)
        case Write(g) => users[uid.value := users[uid.value].(groups := Some(g))]
        case _ => users
      else users
    else users
  }

  /** The callback writes nothing but the `groups` of the charge's metadata
      user, and nothing at all unless that user exists. */
  lemma ApplyTouchesOnlyGroups(users: map<string, User>, charge: Charge, id: string)
    requires id in users
    ensures Apply(users, charge)[id] == users[id].(groups := Apply(users, charge)[id].groups)
    ensures charge.data.metadata.None? || charge.data.metadata.value.userId != Some(id) ==>
      Apply(users, charge)[id] == users[id]
    ensures Apply(users, charge)[id].groups ==
      if charge.data.metadata.Some? && charge.status != "" && charge.data.metadata.value.userId == Some(id)
      then EditedGroups(users[id].groups, charge.status)
      else users[id].groups
  {
  }

  lemma ApplyWrites(users: map<string, User>, charge: Charge, uid: string, g: seq<string>)
    requires charge.data.metadata.Some? && charge.status != ""
    requires charge.data.metadata.value.userId == Some(uid) && uid in users
    requires GroupsEdit(users[uid].groups, charge.status) == Write(g)
    ensures Apply(users, charge) == users[uid := users[uid].(groups := Some(g))]
  {
  }

  /** Applying the callback twice for the same charge is applying it once. */
  lemma ApplyIdempotent(users: map<string, User>, charge: Charge)
    requires forall id :: id in users ==> AtMostOnce(GroupsOf(users[id].groups))
    ensures Apply(Apply(users, charge), charge) == Apply(users, charge)
  {
    if charge.data.metadata.Some? && charge.status != "" {
      var uid := charge.data.metadata.value.userId;
      if uid.Some? && uid.value in users {
        var u := users[uid.value];
        EditIdempotent(u.groups, charge.status);
      }
    }
  }

  /** `updateSubscriptionStatus(item)` with `item.data` the charge just written. */
  method UpdateSubscriptionStatus(db: Database, charge: Charge)
    modifies db
    ensures db.users == Apply(old(db.users), charge)
    ensures db.charges == old(db.charges) && db.documents == old(db.documents)
  {
    if charge.data.metadata.Some? && charge.status != "" {
      var metadata := charge.data.metadata.value;
      var user := LookupUser(db.users, metadata.userId);
      if user.None? {
        return;  // `user.groups` throws; the async callback's error is dropped
      }
      var uid := metadata.userId.value;
      var edit := GroupsEdit(user.value.groups, charge.status);
      if edit.Write? {
        ApplyWrites(db.users, charge, uid, edit.groups);
        db.users := db.users[uid := user.value.(groups := Some(edit.groups))];
      }
    }
  }
}
