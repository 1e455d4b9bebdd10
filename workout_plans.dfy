/** Workout-plan moderation: approve, reject and make-default, each a `plans.map`
    that rebuilds the matching plans by spread and keeps all others. */
module WorkoutPlans {

  datatype Status = Pending | Approved | Rejected

  /** A plan. The source's optional `isDefault` is only ever read for its
      truthiness, so an absent flag is `false` here. */
  datatype Plan = Plan(id: string, name: string, trainer: string, days: int, focus: string,
                       status: Status, isDefault: bool)

  const InitialPlans: seq<Plan> := [
    Plan("1", "Full Body Beginner", "Aarav Singh", 3, "Strength", Approved, true),
    Plan("2", "Lean Cut", "Neha Verma", 4, "Fat Loss", Pending, false),
    Plan("3", "Push Pull Legs", "Rahul Mehta", 6, "Hypertrophy", Approved, false),
    Plan("4", "Mobility Reset", "Sara Khan", 2, "Mobility", Rejected, false)
  ]

  /** Name, trainer, days and focus, which no operation touches. */
  predicate SameDescription(p: Plan, q: Plan)
  {
    p.id == q.id && p.name == q.name && p.trainer == q.trainer && p.days == q.days && p.focus == q.focus
  }

  predicate UniqueIds(plans: seq<Plan>)
  {
    forall i, j :: 0 <= i < j < |plans| ==> plans[i].id != plans[j].id
  }

  predicate AtMostOneDefault(plans: seq<Plan>)
  {
    forall i, j :: 0 <= i < |plans| && 0 <= j < |plans| && plans[i].isDefault && plans[j].isDefault ==> i == j
  }

  /** `approve(id)`: matching plans become approved; nothing else changes. */
  function Approve(plans: seq<Plan>, id: string): (r: seq<Plan>)
    ensures |r| == |plans|
    ensures forall i :: 0 <= i < |plans| ==>
      if plans[i].id == id then r[i] == plans[i].(status := Approved) else r[i] == plans[i]
  {
    if plans == [] then []
    else [if plans[0].id == id then plans[0].(status := Approved) else plans[0]] + Approve(plans[1..], id)
  }

  /** `reject(id)`: matching plans become rejected and lose the default flag. */
  function Reject(plans: seq<Plan>, id: string): (r: seq<Plan>)
    ensures |r| == |plans|
    ensures forall i :: 0 <= i < |plans| ==>
      if plans[i].id == id then r[i] == plans[i].(status := Rejected, isDefault := false) else r[i] == plans[i]
  {
    if plans == [] then []
    else [if plans[0].id == id then plans[0].(status := Rejected, isDefault := false) else plans[0]]
         + Reject(plans[1..], id)
  }

  /** `setDefault(id)`: the default flag is set exactly on the plans with this id,
      so an unknown id clears every default. Statuses stay as they were. */
  function SetDefault(plans: seq<Plan>, id: string): (r: seq<Plan>)
    ensures |r| == |plans|
    ensures forall i :: 0 <= i < |plans| ==> r[i] == plans[i].(isDefault := plans[i].id == id)
  {
    if plans == [] then []
    else [plans[0].(isDefault := plans[0].id == id)] + SetDefault(plans[1..], id)
  }

  /** All three operations keep length, order and every plan's description. */
  lemma DescriptionsKept(plans: seq<Plan>, id: string, i: nat)
    requires i < |plans|
    ensures SameDescription(Approve(plans, id)[i], plans[i])
    ensures SameDescription(Reject(plans, id)[i], plans[i])
    ensures SameDescription(SetDefault(plans, id)[i], plans[i])
  {
  }

  /** With unique ids, making a plan the default leaves at most one default. */
  lemma SetDefaultKeepsOneDefault(plans: seq<Plan>, id: string)
    requires UniqueIds(plans)
    ensures AtMostOneDefault(SetDefault(plans, id))
  {
  }

  /** Approving never creates a default; rejecting only removes them. */
  lemma ApproveRejectKeepOneDefault(plans: seq<Plan>, id: string)
    requires AtMostOneDefault(plans)
    ensures AtMostOneDefault(Approve(plans, id))
    ensures AtMostOneDefault(Reject(plans, id))
  {
    var a, r := Approve(plans, id), Reject(plans, id);
    forall i, j | 0 <= i < |a| && 0 <= j < |a| && a[i].isDefault && a[j].isDefault
      ensures i == j
    {
      assert plans[i].isDefault && plans[j].isDefault;
    }
    forall i, j | 0 <= i < |r| && 0 <= j < |r| && r[i].isDefault && r[j].isDefault
      ensures i == j
    {
      assert plans[i].isDefault && plans[j].isDefault;
    }
  }

  /** The initial list has unique ids and exactly one default, plan "1". */
  lemma InitialPlansWellFormed()
    ensures UniqueIds(InitialPlans) && AtMostOneDefault(InitialPlans)
    ensures InitialPlans[0].isDefault
  {
  }

  /** Approve and Reject buttons are offered for a pending plan only. */
  predicate OffersApproveReject(p: Plan)
  {
    p.status == Pending
  }

  /** The Set Default button is offered for an approved plan that is not the default. */
  predicate OffersSetDefault(p: Plan)
  {
    p.status == Approved && !p.isDefault
  }

  /** Using an offered button takes the plan out of the pending state for good:
      after Approve it offers Set Default, after Reject it offers nothing. */
  lemma OfferedActionsProgress(plans: seq<Plan>, i: nat)
    requires i < |plans| && OffersApproveReject(plans[i]) && !plans[i].isDefault
    ensures OffersSetDefault(Approve(plans, plans[i].id)[i])
    ensures !OffersApproveReject(Reject(plans, plans[i].id)[i])
    ensures !OffersSetDefault(Reject(plans, plans[i].id)[i])
  {
  }
}
