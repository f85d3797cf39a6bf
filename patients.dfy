/** The practitioner's patient list (src/app/doctor/patients/page.tsx): the search,
    constitution and status filters, each patient's active plan and latest session,
    and the summary cards. */
module PatientList {
  import opened Wrappers
  import opened Seqs
  import opened Text
  import opened Records

  /** The search box: the term occurs in the name or the e-mail, ignoring case. */
  predicate MatchesSearch(p: Patient, searchTerm: string) {
    ContainsIgnoringCase(p.name, searchTerm) || ContainsIgnoringCase(p.email, searchTerm)
  }

  /** The constitution filter: "all", or the chosen dosha occurs in the prakriti
      (case-sensitively). */
  predicate MatchesDosha(p: Patient, filterDosha: string) {
    filterDosha == "all" || Contains(p.prakriti, filterDosha)
  }

  /** The status filter: "needs_attention" keeps the patients whose vikriti is not
      "Balanced"; "active" and every other value keep everybody. */
  function MatchesStatus(p: Patient, filterStatus: string): bool {
    var matchesStatus := true;
    if filterStatus == "active" then matchesStatus
    else if filterStatus == "needs_attention" then p.vikriti != "Balanced"
    else matchesStatus
  }

  lemma MatchesStatusSpec(p: Patient, filterStatus: string)
    ensures MatchesStatus(p, filterStatus) <==> filterStatus != "needs_attention" || p.vikriti != "Balanced"
  {
  }

  /** A combined constitution such as "Vata-Pitta" passes the filter of each dosha it
      starts with. */
  lemma {:induction false} DoshaPrefixMatches(p: Patient, dosha: string, rest: string)
    requires p.prakriti == dosha + rest
    ensures MatchesDosha(p, dosha)
  {
    assert OccursAt(p.prakriti, dosha, 0);
  }

  predicate PatientMatches(p: Patient, searchTerm: string, filterDosha: string, filterStatus: string) {
    MatchesSearch(p, searchTerm) && MatchesDosha(p, filterDosha) && MatchesStatus(p, filterStatus)
  }

  /** `filteredPatients`. */
  function FilteredPatients(users: seq<Patient>, doctorId: string, searchTerm: string,
                            filterDosha: string, filterStatus: string): seq<Patient> {
    Filter(PatientsOf(users, doctorId), (p: Patient) => PatientMatches(p, searchTerm, filterDosha, filterStatus))
  }

  /** The list is exactly the practitioner's patients that pass the three filters, in
      list order. */
  lemma FilteredPatientsSpec(users: seq<Patient>, doctorId: string, searchTerm: string,
                             filterDosha: string, filterStatus: string)
    ensures var r := FilteredPatients(users, doctorId, searchTerm, filterDosha, filterStatus);
            IsSubsequence(r, users) &&
            (forall p :: p in r <==> p in users && p.doctorId == doctorId &&
                                     PatientMatches(p, searchTerm, filterDosha, filterStatus)) &&
            forall p :: multiset(r)[p] == if p.doctorId == doctorId && PatientMatches(p, searchTerm, filterDosha, filterStatus)
                                          then multiset(users)[p] else 0
  {
    var own := PatientsOf(users, doctorId);
    PatientsOfSpec(users, doctorId);
    FilterIsSubsequence(own, (p: Patient) => PatientMatches(p, searchTerm, filterDosha, filterStatus));
    SubsequenceTransitive(FilteredPatients(users, doctorId, searchTerm, filterDosha, filterStatus), own, users);
    FilterMultiplicity(own, (p: Patient) => PatientMatches(p, searchTerm, filterDosha, filterStatus));
  }

  /** `getPatientDietPlan`: the first plan of the patient that is active, whoever wrote
      it. */
  function PatientDietPlan(plans: seq<DietPlan>, patientId: string): (r: Option<DietPlan>)
    ensures r.None? <==> forall pl :: pl in plans ==> !(pl.userId == patientId && pl.status == "active")
    ensures r.Some? ==> r.value in plans && r.value.userId == patientId && r.value.status == "active"
    ensures forall k :: 0 <= k < |plans| && plans[k].userId == patientId && plans[k].status == "active" &&
                        (forall j :: 0 <= j < k ==> !(plans[j].userId == patientId && plans[j].status == "active")) ==>
                          r == Some(plans[k])
  {
    Find(plans, (pl: DietPlan) => pl.userId == patientId && pl.status == "active")
  }

  /** The position of the first session with the greatest `scheduledAt`: every
      earlier session is strictly earlier in time, no later one is later. */
  function LatestIndex(sessions: seq<Session>): (k: nat)
    requires sessions != []
    ensures k < |sessions|
    ensures forall j :: 0 <= j < k ==> sessions[j].scheduledAt < sessions[k].scheduledAt
    ensures forall j :: k <= j < |sessions| ==> sessions[j].scheduledAt <= sessions[k].scheduledAt
  {
    if |sessions| == 1 then 0
    else
      var rest := sessions[1..];
      var k := LatestIndex(rest);
      assert forall j :: 1 <= j < |sessions| ==> sessions[j] == rest[j - 1];
      if sessions[0].scheduledAt >= rest[k].scheduledAt then 0 else k + 1
  }

  /** The first element after a stable sort by descending `scheduledAt`: the first
      session with the greatest time, `undefined` for no sessions. */
  function Latest(sessions: seq<Session>): (r: Option<Session>)
    ensures r.None? <==> sessions == []
    ensures r.Some? ==> exists k :: 0 <= k < |sessions| && sessions[k] == r.value &&
                          (forall j :: 0 <= j < k ==> sessions[j].scheduledAt < r.value.scheduledAt) &&
                          (forall j :: k <= j < |sessions| ==> sessions[j].scheduledAt <= r.value.scheduledAt)
  {
    if sessions == [] then None else Some(sessions[LatestIndex(sessions)])
  }

  /** `getLastSession`: the latest of the practitioner's sessions with that patient. */
  function LastSession(sessions: seq<Session>, patientId: string, doctorId: string): Option<Session> {
    Latest(Filter(sessions, (s: Session) => s.userId == patientId && s.doctorId == doctorId))
  }

  /** The last session is one between the two, and none between them is later. */
  lemma LastSessionSpec(sessions: seq<Session>, patientId: string, doctorId: string)
    ensures var r := LastSession(sessions, patientId, doctorId);
            (r.None? <==> forall s :: s in sessions ==> !(s.userId == patientId && s.doctorId == doctorId)) &&
            (r.Some? ==> r.value in sessions && r.value.userId == patientId && r.value.doctorId == doctorId &&
                         forall s :: s in sessions && s.userId == patientId && s.doctorId == doctorId ==>
                                     s.scheduledAt <= r.value.scheduledAt)
  {
    var f := Filter(sessions, (s: Session) => s.userId == patientId && s.doctorId == doctorId);
    var r := LastSession(sessions, patientId, doctorId);
    if r.Some? {
      forall s | s in sessions && s.userId == patientId && s.doctorId == doctorId
        ensures s.scheduledAt <= r.value.scheduledAt
      {
        assert s in f;
        var i :| 0 <= i < |f| && f[i] == s;
      }
      assert r.value in f;
    } else {
      forall s | s in sessions ensures !(s.userId == patientId && s.doctorId == doctorId) {
        assert s !in f;
      }
    }
  }

  /** The "Active Diet Plans" card: the practitioner's patients that have an active plan. */
  function WithPlanCount(users: seq<Patient>, plans: seq<DietPlan>, doctorId: string): nat {
    Count(PatientsOf(users, doctorId), (p: Patient) => PatientDietPlan(plans, p.id).Some?)
  }

  /** The "Need Attention" card: the practitioner's patients whose vikriti is not
      "Balanced". */
  function NeedAttentionCount(users: seq<Patient>, doctorId: string): nat {
    Count(PatientsOf(users, doctorId), (p: Patient) => p.vikriti != "Balanced")
  }

  /** The two cards never exceed the practitioner's patient count, and the "Need
      Attention" card is the length of the list shown with an empty search, every
      dosha and the "needs_attention" status. */
  lemma {:induction false} SummaryCards(users: seq<Patient>, plans: seq<DietPlan>, doctorId: string)
    ensures WithPlanCount(users, plans, doctorId) <= |PatientsOf(users, doctorId)|
    ensures NeedAttentionCount(users, doctorId) <= |PatientsOf(users, doctorId)|
    ensures NeedAttentionCount(users, doctorId) == |FilteredPatients(users, doctorId, "", "all", "needs_attention")|
  {
    var own := PatientsOf(users, doctorId);
    forall i | 0 <= i < |own|
      ensures PatientMatches(own[i], "", "all", "needs_attention") == (own[i].vikriti != "Balanced")
    {
      EmptyTermMatches(own[i].name);
    }
    FilterExt(own, (p: Patient) => PatientMatches(p, "", "all", "needs_attention"),
              (p: Patient) => p.vikriti != "Balanced");
  }
}
