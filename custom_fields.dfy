/** The `subscription` field added to users: the plan id of the charge
    associated with the user. */
module CustomFields {
  import opened Records

  /** `Charges.findOne({associatedDocument: id})`: the first charge, in
      store order, associated with the document `id`. */
  function FindAssociated(charges: seq<Charge>, id: string): (r: Option<nat>)
    ensures r.Some? ==> r.value < |charges| && charges[r.value].associatedDocument == Some(id)
    ensures r.Some? ==> forall j :: 0 <= j < r.value ==> charges[j].associatedDocument != Some(id)
    ensures r.None? <==> forall j :: 0 <= j < |charges| ==> charges[j].associatedDocument != Some(id)
  {
    if charges == [] then None
    else if charges[0].associatedDocument == Some(id) then Some(0)
    else
      match FindAssociated(charges[1..], id)
      case None => None
      case Some(k) => Some(k + 1)
  }

  predicate FirstAssociated(charges: seq<Charge>, id: string, i: int)
  {
    0 <= i < |charges| && charges[i].associatedDocument == Some(id) &&
    forall j :: 0 <= j < i ==> charges[j].associatedDocument != Some(id)
  }

  /** The resolver: the found charge's `data.plan.id`, or the empty string
      when no charge is found or its snapshot has no plan. */
  function SubscriptionField(charges: seq<Charge>, user: User): (planId: string)
    ensures (forall j :: 0 <= j < |charges| ==> charges[j].associatedDocument != Some(user.id)) ==> planId == ""
    ensures forall i :: FirstAssociated(charges, user.id, i) ==>
      planId == (if charges[i].data.plan.Some? then charges[i].data.plan.value.id else "")
  {
    var found := FindAssociated(charges, user.id);
    if found.Some? && charges[found.value].data.plan.Some? then charges[found.value].data.plan.value.id
    else ""
  }
}
