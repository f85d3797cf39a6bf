/** The administrator's patient list (src/app/admin/users/page.tsx): the search and
    constitution filters, the practitioner shown for each patient, the "Vata Dominant"
    card, and the medical-history, ABHA and assignment details of each entry. */
module AdminUsers {
  import opened Wrappers
  import opened Seqs
  import opened Text
  import opened Records

  const NotAssigned: string := "Not Assigned"

  /** The search box and the constitution filter ("all", or a substring of the
      prakriti). */
  predicate UserMatches(u: Patient, searchTerm: string, filterDosha: string) {
    (ContainsIgnoringCase(u.name, searchTerm) || ContainsIgnoringCase(u.email, searchTerm)) &&
    (filterDosha == "all" || Contains(u.prakriti, filterDosha))
  }

  /** `filteredUsers`. */
  function FilteredUsers(users: seq<Patient>, searchTerm: string, filterDosha: string): seq<Patient> {
    Filter(users, (u: Patient) => UserMatches(u, searchTerm, filterDosha))
  }

  /** The list is exactly the matching users, in list order; with an empty search and
      "all" it is every user. */
  lemma FilteredUsersSpec(users: seq<Patient>, searchTerm: string, filterDosha: string)
    ensures IsSubsequence(FilteredUsers(users, searchTerm, filterDosha), users)
    ensures forall u :: u in FilteredUsers(users, searchTerm, filterDosha) <==>
                        u in users && UserMatches(u, searchTerm, filterDosha)
    ensures forall u :: multiset(FilteredUsers(users, searchTerm, filterDosha))[u] ==
                        if UserMatches(u, searchTerm, filterDosha) then multiset(users)[u] else 0
    ensures FilteredUsers(users, "", "all") == users
  {
    FilterIsSubsequence(users, (u: Patient) => UserMatches(u, searchTerm, filterDosha));
    FilterMultiplicity(users, (u: Patient) => UserMatches(u, searchTerm, filterDosha));
    forall i | 0 <= i < |users| ensures UserMatches(users[i], "", "all") {
      EmptyTermMatches(users[i].name);
    }
    FilterAll(users, (u: Patient) => UserMatches(u, "", "all"));
  }

  /** `getDoctorName`: the name of the first practitioner with that id, or "Not
      Assigned" when there is none or that name is empty. */
  function DoctorName(doctors: seq<Doctor>, doctorId: string): (name: string)
    ensures name != ""
    ensures name == NotAssigned || exists d :: d in doctors && d.id == doctorId && d.name == name
    ensures (forall d :: d in doctors ==> d.id != doctorId) ==> name == NotAssigned
    ensures (exists d :: d in doctors && d.id == doctorId) &&
            (forall d :: d in doctors && d.id == doctorId ==> d.name != "") ==>
              exists d :: d in doctors && d.id == doctorId && d.name == name
    ensures forall k :: 0 <= k < |doctors| && doctors[k].id == doctorId &&
                        (forall j :: 0 <= j < k ==> doctors[j].id != doctorId) ==>
                          name == if doctors[k].name != "" then doctors[k].name else NotAssigned
  {
    var doctor := Find(doctors, (d: Doctor) => d.id == doctorId);
    if doctor.Some? && doctor.value.name != "" then doctor.value.name else NotAssigned
  }

  /** The "Vata Dominant" card: users whose prakriti mentions Vata, single or combined. */
  function VataCount(users: seq<Patient>): (n: nat)
    ensures n <= |users|
  {
    Count(users, (u: Patient) => Contains(u.prakriti, "Vata"))
  }

  /** The card equals the length of the list filtered by "Vata" with an empty search. */
  lemma {:induction false} VataCountIsFilter(users: seq<Patient>)
    ensures VataCount(users) == |FilteredUsers(users, "", "Vata")|
  {
    forall i | 0 <= i < |users|
      ensures UserMatches(users[i], "", "Vata") == Contains(users[i].prakriti, "Vata")
    {
      EmptyTermMatches(users[i].name);
    }
    FilterExt(users, (u: Patient) => UserMatches(u, "", "Vata"), (u: Patient) => Contains(u.prakriti, "Vata"));
  }

  /** The medical-history line: nothing for an empty history; otherwise the first two
      entries joined by ", ", followed by "..." when there are more. */
  function HistoryPreview(history: seq<string>): (r: Option<string>)
  {
    if |history| == 0 then None
    else Some(Join(Take(history, 2), ", ") + (if |history| > 2 then "..." else ""))
  }

  /** The line is absent exactly for an empty history and starts with the first entry;
      it is that entry alone for one entry, the two entries joined for two, and the
      first two joined followed by "..." for more. */
  lemma HistoryPreviewSpec(history: seq<string>)
    ensures HistoryPreview(history).None? <==> history == []
    ensures history != [] ==> StartsWith(HistoryPreview(history).value, history[0])
    ensures |history| > 2 ==> HistoryPreview(history).value == history[0] + ", " + history[1] + "..."
    ensures |history| == 1 ==> HistoryPreview(history).value == history[0]
    ensures |history| == 2 ==> HistoryPreview(history).value == history[0] + ", " + history[1]
  {
    if history != [] {
      var line := HistoryPreview(history).value;
      var shown := Take(history, 2);
      if |shown| == 2 {
        assert shown == [history[0], history[1]];
        assert shown[1..] == [history[1]];
        assert Join(shown, ", ") == history[0] + ", " + history[1];
      }
      assert line[..|history[0]|] == history[0];
    }
  }

  /** The ABHA detail: `abhaId.slice(-4)`. */
  function AbhaSuffix(u: Patient): (r: string)
    ensures |r| == if |u.abhaId| < 4 then |u.abhaId| else 4
    ensures u.abhaId == u.abhaId[..|u.abhaId| - |r|] + r
  {
    LastChars(u.abhaId, 4)
  }

  /** The badge: "Assigned" when the user has a practitioner id, "Unassigned" for the
      empty id. */
  function AssignmentBadge(u: Patient): (badge: string)
    ensures badge == "Assigned" <==> u.doctorId != ""
    ensures badge == "Unassigned" <==> u.doctorId == ""
  {
    if u.doctorId != "" then "Assigned" else "Unassigned"
  }
}
