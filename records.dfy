/** The records the pages list and filter (the interfaces of src/types/index.ts),
    with only the fields the pages read. Timestamps are integers (milliseconds, as
    `new Date(...).getTime()` gives them), ratings are in tenths, and statuses are the
    strings the records carry. */
module Records {
  import opened Seqs

  /** A patient (`User`). */
  datatype Patient = Patient(
    id: string, name: string, email: string, abhaId: string,
    prakriti: string, vikriti: string, doctorId: string, medicalHistory: seq<string>)

  /** A practitioner (`Doctor`); `rating` is the rating times ten. */
  datatype Doctor = Doctor(
    id: string, name: string, email: string, specialization: string,
    rating: int, patientsCount: int)

  datatype Session = Session(id: string, userId: string, doctorId: string, status: string, scheduledAt: int)

  datatype Appointment = Appointment(id: string, patientId: string, doctorId: string, status: string)

  /** A meal of a plan; `foods` is how many food items it lists. */
  datatype Meal = Meal(id: string, name: string, time: string, foods: nat)

  datatype DietPlan = DietPlan(id: string, userId: string, doctorId: string, name: string, status: string, meals: seq<Meal>)

  datatype ChatMessage = ChatMessage(id: string, senderId: string, receiverId: string, message: string, timestamp: int, read: bool)

  /** The patients assigned to a practitioner (`users.filter(u => u.doctorId === id)`). */
  function PatientsOf(users: seq<Patient>, doctorId: string): seq<Patient> {
    Filter(users, (u: Patient) => u.doctorId == doctorId)
  }

  /** A practitioner's patients are exactly the users assigned to them, in list order. */
  lemma PatientsOfSpec(users: seq<Patient>, doctorId: string)
    ensures IsSubsequence(PatientsOf(users, doctorId), users)
    ensures forall u :: u in PatientsOf(users, doctorId) <==> u in users && u.doctorId == doctorId
    ensures forall u :: multiset(PatientsOf(users, doctorId))[u] == if u.doctorId == doctorId then multiset(users)[u] else 0
  {
    FilterIsSubsequence(users, (u: Patient) => u.doctorId == doctorId);
    FilterMultiplicity(users, (u: Patient) => u.doctorId == doctorId);
  }

  /** A practitioner's sessions. */
  function SessionsOf(sessions: seq<Session>, doctorId: string): seq<Session> {
    Filter(sessions, (s: Session) => s.doctorId == doctorId)
  }

  /** A practitioner's diet plans. */
  function PlansOf(plans: seq<DietPlan>, doctorId: string): seq<DietPlan> {
    Filter(plans, (p: DietPlan) => p.doctorId == doctorId)
  }

  /** `doctors.map(d => d.specialization)`. */
  function SpecializationOf(doctors: seq<Doctor>): (r: seq<string>)
    ensures |r| == |doctors| && forall i :: 0 <= i < |doctors| ==> r[i] == doctors[i].specialization
  {
    if doctors == [] then [] else [doctors[0].specialization] + SpecializationOf(doctors[1..])
  }

  /** `Array.from(new Set(doctors.map(d => d.specialization)))`: each specialization
      once, in order of first appearance. The administrator's page writes `flatMap`,
      which is the same here since a string is not an array. */
  function Specializations(doctors: seq<Doctor>): seq<string> {
    Dedup(SpecializationOf(doctors))
  }

  /** The specialization list has no repeats and names exactly the practitioners'
      specializations. */
  lemma SpecializationsSpec(doctors: seq<Doctor>)
    ensures Distinct(Specializations(doctors))
    ensures forall s :: s in Specializations(doctors) <==>
                        exists i :: 0 <= i < |doctors| && doctors[i].specialization == s
  {
    var all := SpecializationOf(doctors);
    forall s ensures s in Specializations(doctors) <==> s in all {
      assert s in Elements(Specializations(doctors)) <==> s in Specializations(doctors);
      assert s in Elements(all) <==> s in all;
    }
  }
}
