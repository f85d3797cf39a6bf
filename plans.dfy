/** The practitioner's diet plans page (src/app/doctor/plans/page.tsx): the search and
    status filters, the patient name shown on each plan, the summary cards, the meal
    preview and the actions a plan offers. */
module PlanList {
  import opened Wrappers
  import opened Seqs
  import opened Text
  import opened Records

  const UnknownPatient: string := "Unknown Patient"

  /** `mockUsers.find(u => u.id === id)`. */
  function UserById(users: seq<Patient>, id: string): (r: Option<Patient>)
    ensures r.Some? ==> r.value in users && r.value.id == id
    ensures r.None? <==> forall u :: u in users ==> u.id != id
    ensures forall k :: 0 <= k < |users| && users[k].id == id &&
                        (forall j :: 0 <= j < k ==> users[j].id != id) ==>
                          r == Some(users[k])
  {
    Find(users, (u: Patient) => u.id == id)
  }

  /** The search box: the term occurs, ignoring case, in the plan's name or in the name
      of the plan's patient when there is one. */
  predicate MatchesSearch(users: seq<Patient>, plan: DietPlan, searchTerm: string) {
    var patient := UserById(users, plan.userId);
    ContainsIgnoringCase(plan.name, searchTerm) ||
    (patient.Some? && ContainsIgnoringCase(patient.value.name, searchTerm))
  }

  /** The status filter: "all", or exactly the plan's status. */
  predicate MatchesStatus(plan: DietPlan, filterStatus: string) {
    filterStatus == "all" || plan.status == filterStatus
  }

  /** `filteredPlans`. */
  function FilteredPlans(plans: seq<DietPlan>, users: seq<Patient>, doctorId: string,
                         searchTerm: string, filterStatus: string): seq<DietPlan> {
    Filter(PlansOf(plans, doctorId), (p: DietPlan) => MatchesSearch(users, p, searchTerm) && MatchesStatus(p, filterStatus))
  }

  /** The list is exactly the practitioner's plans passing both filters, in list order;
      a plan whose patient is missing can match on its own name only. */
  lemma FilteredPlansSpec(plans: seq<DietPlan>, users: seq<Patient>, doctorId: string,
                          searchTerm: string, filterStatus: string)
    ensures var r := FilteredPlans(plans, users, doctorId, searchTerm, filterStatus);
            IsSubsequence(r, plans) &&
            (forall p :: p in r <==> p in plans && p.doctorId == doctorId &&
                                     MatchesSearch(users, p, searchTerm) && MatchesStatus(p, filterStatus)) &&
            (forall p :: multiset(r)[p] ==
                           if p.doctorId == doctorId && MatchesSearch(users, p, searchTerm) && MatchesStatus(p, filterStatus)
                           then multiset(plans)[p] else 0) &&
            (forall p :: p in r && (forall u :: u in users ==> u.id != p.userId) ==>
                           ContainsIgnoringCase(p.name, searchTerm))
  {
    var own := PlansOf(plans, doctorId);
    var q := (p: DietPlan) => MatchesSearch(users, p, searchTerm) && MatchesStatus(p, filterStatus);
    FilterIsSubsequence(plans, (p: DietPlan) => p.doctorId == doctorId);
    FilterIsSubsequence(own, q);
    SubsequenceTransitive(FilteredPlans(plans, users, doctorId, searchTerm, filterStatus), own, plans);
    FilterMultiplicity(plans, (p: DietPlan) => p.doctorId == doctorId);
    FilterMultiplicity(own, q);
  }

  /** `getPatientName`: the name of the first user with that id, or "Unknown Patient"
      when there is no such user or that name is empty. */
  function PatientName(users: seq<Patient>, userId: string): (name: string)
    ensures name != ""
    ensures name == UnknownPatient || exists u :: u in users && u.id == userId && u.name == name
    ensures (forall u :: u in users ==> u.id != userId) ==> name == UnknownPatient
    ensures (exists u :: u in users && u.id == userId) &&
            (forall u :: u in users && u.id == userId ==> u.name != "") ==>
              exists u :: u in users && u.id == userId && u.name == name
    ensures forall k :: 0 <= k < |users| && users[k].id == userId &&
                        (forall j :: 0 <= j < k ==> users[j].id != userId) ==>
                          name == if users[k].name != "" then users[k].name else UnknownPatient
  {
    var patient := UserById(users, userId);
    if patient.Some? && patient.value.name != "" then patient.value.name else UnknownPatient
  }

  function StatusCount(plans: seq<DietPlan>, doctorId: string, status: string): nat {
    Count(PlansOf(plans, doctorId), (p: DietPlan) => p.status == status)
  }

  /** The "Active" and "Pending Approval" cards together never exceed the "Total Plans"
      card. */
  lemma StatusCountsBounded(plans: seq<DietPlan>, doctorId: string)
    ensures StatusCount(plans, doctorId, "active") + StatusCount(plans, doctorId, "pending")
            <= |PlansOf(plans, doctorId)|
  {
    CountDisjoint(PlansOf(plans, doctorId), (p: DietPlan) => p.status == "active", (p: DietPlan) => p.status == "pending");
  }

  /** `plans.map(p => p.userId)`. */
  function UserIds(plans: seq<DietPlan>): (r: seq<string>)
    ensures |r| == |plans| && forall i :: 0 <= i < |plans| ==> r[i] == plans[i].userId
  {
    if plans == [] then [] else [plans[0].userId] + UserIds(plans[1..])
  }

  /** "Patients Covered": `new Set(plans.map(p => p.userId)).size`. */
  function PatientsCovered(plans: seq<DietPlan>, doctorId: string): nat {
    |Elements(UserIds(PlansOf(plans, doctorId)))|
  }

  /** The figure is the length of the de-duplicated id list, so it counts every patient
      once, and it never exceeds the number of plans. */
  lemma {:induction false} PatientsCoveredSpec(plans: seq<DietPlan>, doctorId: string)
    ensures var ids := UserIds(PlansOf(plans, doctorId));
            PatientsCovered(plans, doctorId) == |Dedup(ids)| &&
            PatientsCovered(plans, doctorId) <= |PlansOf(plans, doctorId)|
  {
    var ids := UserIds(PlansOf(plans, doctorId));
    DistinctCardinality(Dedup(ids));
    SubsequenceLength(Dedup(ids), ids);
  }

  /** The meal preview: the first three meals, and the number of further meals when
      there are more than three. */
  datatype MealPreview = MealPreview(shown: seq<Meal>, more: Option<nat>)

  function Preview(meals: seq<Meal>): (r: MealPreview)
  {
    MealPreview(Take(meals, 3), if |meals| > 3 then Some(|meals| - 3) else None)
  }

  /** The preview shows the first meals in order, the "+n more" note appears exactly
      when there are more than three meals, and shown plus more is every meal. */
  lemma PreviewSpec(meals: seq<Meal>)
    ensures var r := Preview(meals);
            |r.shown| <= 3 && r.shown == meals[..|r.shown|] &&
            (r.more.Some? <==> |meals| > 3) &&
            |r.shown| + r.more.GetOr(0) == |meals|
  {
  }

  /** The Approve and Reject buttons. */
  predicate OffersReview(plan: DietPlan) {
    plan.status == "pending"
  }

  /** The Contact Patient button. */
  predicate OffersContact(plan: DietPlan) {
    plan.status == "active"
  }

  /** A plan offers review only while pending, contact only while active, never both. */
  lemma ActionsExclusive(plan: DietPlan)
    ensures !(OffersReview(plan) && OffersContact(plan))
    ensures OffersReview(plan) ==> plan.status == "pending"
  {
  }
}
