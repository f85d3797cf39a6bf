/** The administrator's practitioner list (src/app/admin/doctors/page.tsx): the search
    and specialization filters, each practitioner's patient count and badges, and the
    "Total Patients" card. */
module AdminDoctors {
  import opened Seqs
  import opened Text
  import opened Records

  /** The search box (name or e-mail, ignoring case) and the specialization filter
      ("all", or a substring of the specialization, case-sensitively). */
  predicate DoctorMatches(d: Doctor, searchTerm: string, filterSpecialization: string) {
    (ContainsIgnoringCase(d.name, searchTerm) || ContainsIgnoringCase(d.email, searchTerm)) &&
    (filterSpecialization == "all" || Contains(d.specialization, filterSpecialization))
  }

  /** `filteredDoctors`. */
  function FilteredDoctors(doctors: seq<Doctor>, searchTerm: string, filterSpecialization: string): seq<Doctor> {
    Filter(doctors, (d: Doctor) => DoctorMatches(d, searchTerm, filterSpecialization))
  }

  /** The list is exactly the matching practitioners, in list order; choosing a listed
      specialization never hides a practitioner who has exactly it. */
  lemma FilteredDoctorsSpec(doctors: seq<Doctor>, searchTerm: string, filterSpecialization: string)
    ensures IsSubsequence(FilteredDoctors(doctors, searchTerm, filterSpecialization), doctors)
    ensures forall d :: d in FilteredDoctors(doctors, searchTerm, filterSpecialization) <==>
                        d in doctors && DoctorMatches(d, searchTerm, filterSpecialization)
    ensures forall d :: multiset(FilteredDoctors(doctors, searchTerm, filterSpecialization))[d] ==
                        if DoctorMatches(d, searchTerm, filterSpecialization) then multiset(doctors)[d] else 0
    ensures forall d :: d in doctors && d.specialization == filterSpecialization ==>
                        (d in FilteredDoctors(doctors, searchTerm, filterSpecialization) <==>
                         ContainsIgnoringCase(d.name, searchTerm) || ContainsIgnoringCase(d.email, searchTerm))
  {
    FilterIsSubsequence(doctors, (d: Doctor) => DoctorMatches(d, searchTerm, filterSpecialization));
    FilterMultiplicity(doctors, (d: Doctor) => DoctorMatches(d, searchTerm, filterSpecialization));
    forall d | d in doctors && d.specialization == filterSpecialization
      ensures Contains(d.specialization, filterSpecialization)
    {
      assert OccursAt(d.specialization, filterSpecialization, 0);
    }
  }

  /** `getPatientCount`: the users assigned to the practitioner. */
  function PatientCount(users: seq<Patient>, doctorId: string): (n: nat)
    ensures n == |PatientsOf(users, doctorId)|
    ensures n <= |users|
  {
    |PatientsOf(users, doctorId)|
  }

  /** The second badge: "Active" with at least one patient, "Available" otherwise. */
  function ActivityBadge(users: seq<Patient>, doctorId: string): (badge: string)
    ensures badge == "Active" <==> exists u :: u in users && u.doctorId == doctorId
    ensures badge == "Available" <==> forall u :: u in users ==> u.doctorId != doctorId
  {
    PatientsOfSpec(users, doctorId);
    var own := PatientsOf(users, doctorId);
    if PatientCount(users, doctorId) > 0 then
      assert own[0] in own;
      "Active"
    else
      "Available"
  }

  /** The "Total Patients" card: the sum of the practitioners' `patientsCount` fields
      (the stored figure, not the assignment count). */
  function TotalPatients(doctors: seq<Doctor>): int {
    Sum(doctors, (d: Doctor) => d.patientsCount)
  }

  /** The total adds up over any split of the list, and is at least any single
      practitioner's figure when no figure is negative. */
  lemma {:induction false} TotalPatientsSpec(doctors: seq<Doctor>, more: seq<Doctor>, k: nat)
    ensures TotalPatients(doctors + more) == TotalPatients(doctors) + TotalPatients(more)
    ensures k < |doctors| && (forall i :: 0 <= i < |doctors| ==> doctors[i].patientsCount >= 0) ==>
              doctors[k].patientsCount <= TotalPatients(doctors)
  {
    SumAppend(doctors, more, (d: Doctor) => d.patientsCount);
    if k < |doctors| && (forall i :: 0 <= i < |doctors| ==> doctors[i].patientsCount >= 0) {
      SumBoundsTerm(doctors, (d: Doctor) => d.patientsCount, k);
    }
  }

  /** The rating tiers, for a rating in tenths (4.5 is 45). */
  datatype Tier = TopRated | HighlyRated | GoodRating

  function RatingTier(ratingTenths: int): Tier {
    if ratingTenths >= 45 then TopRated
    else if ratingTenths >= 40 then HighlyRated
    else GoodRating
  }

  function TierRank(t: Tier): nat {
    match t
    case GoodRating => 0
    case HighlyRated => 1
    case TopRated => 2
  }

  /** The tier thresholds, and a higher rating never gets a lower tier. */
  lemma RatingTierSpec(a: int, b: int)
    ensures RatingTier(a) == TopRated <==> a >= 45
    ensures RatingTier(a) == HighlyRated <==> 40 <= a < 45
    ensures RatingTier(a) == GoodRating <==> a < 40
    ensures a <= b ==> TierRank(RatingTier(a)) <= TierRank(RatingTier(b))
  {
  }
}
