/** The two messaging pages (src/app/user/chat/page.tsx and
    src/app/doctor/chat/page.tsx): the conversation between the signed-in party and
    a counterpart, its last message, the unread count, the contact lists, and the
    draft box with its send button. */
module Chat {
  import opened Wrappers
  import opened Seqs
  import opened Text
  import opened Records

  /** The message goes between `a` and `b`, in either direction. */
  predicate Between(m: ChatMessage, a: string, b: string) {
    (m.senderId == a && m.receiverId == b) || (m.senderId == b && m.receiverId == a)
  }

  /** Ascending by timestamp. */
  predicate SortedByTime(s: seq<ChatMessage>) {
    forall i, j :: 0 <= i < j < |s| ==> s[i].timestamp <= s[j].timestamp
  }

  /** Puts `m` into a sorted list after every message that is not later than it. */
  function Insert(m: ChatMessage, s: seq<ChatMessage>): (r: seq<ChatMessage>)
    requires SortedByTime(s)
    ensures SortedByTime(r)
    ensures multiset(r) == multiset(s) + multiset{m}
  {
    if s == [] then [m]
    else if m.timestamp < s[0].timestamp then [m] + s
    else
      var rest := Insert(m, s[1..]);
      assert s == [s[0]] + s[1..];
      NotBefore(s[0], rest, s[1..], m);
      [s[0]] + rest
  }

  /** A message no later than every element of `s` and than `m` is no later than any
      element of a rearrangement of `s` with `m` added. */
  lemma NotBefore(first: ChatMessage, r: seq<ChatMessage>, s: seq<ChatMessage>, m: ChatMessage)
    requires multiset(r) == multiset(s) + multiset{m}
    requires first.timestamp <= m.timestamp
    requires forall k :: 0 <= k < |s| ==> first.timestamp <= s[k].timestamp
    ensures SortedByTime(r) ==> SortedByTime([first] + r)
  {
    forall k | 0 <= k < |r| ensures first.timestamp <= r[k].timestamp {
      assert r[k] in multiset(r);
      if r[k] != m {
        assert r[k] in multiset(s);
      }
    }
  }

  /** `sort((a, b) => a.timestamp - b.timestamp)`: a stable sort by timestamp (each
      message goes after the earlier ones with the same timestamp). */
  function SortByTime(s: seq<ChatMessage>): (r: seq<ChatMessage>)
    ensures SortedByTime(r)
    ensures multiset(r) == multiset(s)
  {
    if s == [] then []
    else
      assert s == s[..|s| - 1] + [s[|s| - 1]];
      Insert(s[|s| - 1], SortByTime(s[..|s| - 1]))
  }

  /** `getMessagesForDoctor` / `getMessagesForPatient`: the messages between `me` and
      `other`, oldest first. */
  function Thread(messages: seq<ChatMessage>, me: string, other: string): seq<ChatMessage> {
    SortByTime(Filter(messages, m => Between(m, me, other)))
  }

  /** The thread holds exactly the messages between the two parties, each as often as
      in the message list, in ascending timestamp order. */
  lemma ThreadSpec(messages: seq<ChatMessage>, me: string, other: string)
    ensures var t := Thread(messages, me, other);
            SortedByTime(t) &&
            multiset(t) == multiset(Filter(messages, m => Between(m, me, other))) &&
            forall m :: m in t <==> m in messages && Between(m, me, other)
  {
    var t := Thread(messages, me, other);
    var f := Filter(messages, m => Between(m, me, other));
    forall m ensures m in t <==> m in f {
      assert m in t <==> m in multiset(t);
      assert m in f <==> m in multiset(f);
    }
  }

  /** `thread[thread.length - 1]`, `undefined` for an empty thread. */
  function Last(thread: seq<ChatMessage>): (r: Option<ChatMessage>)
    ensures r.None? <==> thread == []
    ensures r.Some? ==> r.value == thread[|thread| - 1]
  {
    if thread == [] then None else Some(thread[|thread| - 1])
  }

  /** `getLastMessage`. */
  function LastMessage(messages: seq<ChatMessage>, me: string, other: string): Option<ChatMessage> {
    Last(Thread(messages, me, other))
  }

  /** The last message is absent exactly when the parties have exchanged none; when
      present it is one of theirs and no message between them is later. */
  lemma LastMessageIsLatest(messages: seq<ChatMessage>, me: string, other: string)
    ensures var r := LastMessage(messages, me, other);
            (r.None? <==> forall m :: m in messages ==> !Between(m, me, other)) &&
            (r.Some? ==> r.value in messages && Between(r.value, me, other) &&
                         forall m :: m in messages && Between(m, me, other) ==> m.timestamp <= r.value.timestamp)
  {
    var t := Thread(messages, me, other);
    ThreadSpec(messages, me, other);
    if t != [] {
      LastIsLatest(t);
    }
  }

  /** No message of a sorted list is later than its last one. */
  lemma LastIsLatest(t: seq<ChatMessage>)
    requires SortedByTime(t) && t != []
    ensures forall m :: m in t ==> m.timestamp <= t[|t| - 1].timestamp
  {
    forall m | m in t ensures m.timestamp <= t[|t| - 1].timestamp {
      var i :| 0 <= i < |t| && t[i] == m;
      if i < |t| - 1 {
        assert t[i].timestamp <= t[|t| - 1].timestamp;
      }
    }
  }

  /** The message is unread and was sent by `other`. */
  predicate UnreadFrom(m: ChatMessage, other: string) {
    !m.read && m.senderId == other
  }

  /** `getUnreadCount`: the thread's unread messages sent by `other`. */
  function UnreadCount(messages: seq<ChatMessage>, me: string, other: string): (n: nat)
    ensures n <= |Thread(messages, me, other)|
  {
    Count(Thread(messages, me, other), m => UnreadFrom(m, other))
  }

  /** The unread count is the number of unread messages `other` sent to `me`, wherever
      they sit in the message list. */
  lemma UnreadCountSpec(messages: seq<ChatMessage>, me: string, other: string)
    ensures UnreadCount(messages, me, other) ==
            Count(messages, (m: ChatMessage) => !m.read && m.senderId == other && m.receiverId == me)
  {
    var between := (m: ChatMessage) => Between(m, me, other);
    var unread := (m: ChatMessage) => UnreadFrom(m, other);
    var received := (m: ChatMessage) => !m.read && m.senderId == other && m.receiverId == me;
    var f := Filter(messages, between);
    var t := Thread(messages, me, other);
    assert t == SortByTime(f);
    calc {
      UnreadCount(messages, me, other);
      Count(t, unread);
      { CountPermutation(t, f, unread); }
      Count(f, unread);
      |Filter(f, unread)|;
      { FilterFilter(messages, between, unread, received); }
      |Filter(messages, received)|;
    }
  }

  /** The draft box of either messaging page and the counterpart it sends to. */
  class ChatDraft {
    var message: string
    var selected: Option<string>

    /** The patient's page: the draft starts empty and the state's initializer selects
        the patient's assigned practitioner when there is one. */
    constructor ForPatient(doctors: seq<Doctor>, patient: Patient)
      ensures message == ""
      ensures selected.Some? <==> exists d :: d in doctors && d.id == patient.doctorId
      ensures selected.Some? ==> selected == Some(patient.doctorId)
    {
      message := "";
      var doctor := AssignedDoctor(doctors, patient);
      selected := if doctor.Some? then Some(doctor.value.id) else None;
    }

    /** The practitioner's page: an empty draft and nobody selected. */
    constructor ForPractitioner()
      ensures message == "" && selected == None
    {
      message := "";
      selected := None;
    }

    /** Typing into the box. */
    method Edit(text: string)
      modifies this
      ensures message == text && selected == old(selected)
    {
      message := text;
    }

    /** Choosing a conversation. */
    method Select(id: string)
      modifies this
      ensures selected == Some(id) && message == old(message)
    {
      selected := Some(id);
    }

    /** `handleSendMessage`: ignored when the draft is blank after trimming or nobody
        (or an empty id) is selected; otherwise the draft goes to the selected party
        and the box is cleared. */
    method HandleSendMessage() returns (sent: Option<(string, string)>)
      modifies this
      ensures sent.None? <==> Trim(old(message)) == "" || old(selected).None? || old(selected).value == ""
      ensures sent.Some? ==> sent.value == (old(message), old(selected).value) && message == ""
      ensures sent.None? ==> message == old(message)
      ensures selected == old(selected)
    {
      if Trim(message) == "" || selected.None? || selected.value == "" {
        return None;
      }
      sent := Some((message, selected.value));
      message := "";
    }
  }

  /** The send button's `disabled`: the trimmed draft is empty. */
  predicate SendDisabled(message: string) {
    Trim(message) == ""
  }

  /** The button is disabled exactly for an all-white-space draft (the empty draft
      included). */
  lemma {:induction false} SendDisabledIffBlank(message: string)
    ensures SendDisabled(message) <==> forall k :: 0 <= k < |message| ==> IsWhitespace(message[k])
  {
    TrimEmptyIffBlank(message);
  }

  /** The patient's assigned practitioner: the first doctor whose id is the patient's
      `doctorId`. */
  function AssignedDoctor(doctors: seq<Doctor>, patient: Patient): (r: Option<Doctor>)
    ensures r.Some? ==> r.value in doctors && r.value.id == patient.doctorId
    ensures r.None? <==> forall d :: d in doctors ==> d.id != patient.doctorId
    ensures forall k :: 0 <= k < |doctors| && doctors[k].id == patient.doctorId &&
                        (forall j :: 0 <= j < k ==> doctors[j].id != patient.doctorId) ==>
                          r == Some(doctors[k])
  {
    Find(doctors, (d: Doctor) => d.id == patient.doctorId)
  }

  /** The doctors whose id differs from the assigned doctor's (all of them when there
      is none). */
  function NotAssigned(doctors: seq<Doctor>, primary: Option<Doctor>): seq<Doctor> {
    Filter(doctors, (d: Doctor) => primary.None? || d.id != primary.value.id)
  }

  /** The "other doctors" list: the first three doctors other than the assigned one. */
  function OtherDoctors(doctors: seq<Doctor>, primary: Option<Doctor>): seq<Doctor> {
    Take(NotAssigned(doctors, primary), 3)
  }

  /** The candidates are exactly the doctors not sharing the assigned doctor's id, each
      as often as it occurs, in list order; the list shows the first three of them, or
      all when there are fewer. */
  lemma OtherDoctorsSpec(doctors: seq<Doctor>, primary: Option<Doctor>)
    ensures var f := NotAssigned(doctors, primary);
            IsSubsequence(f, doctors) &&
            forall d :: multiset(f)[d] == if primary.None? || d.id != primary.value.id
                                          then multiset(doctors)[d] else 0
    ensures var f := NotAssigned(doctors, primary);
            var r := OtherDoctors(doctors, primary);
            |r| == (if |f| < 3 then |f| else 3) && r == f[..|r|]
    ensures var r := OtherDoctors(doctors, primary);
            |r| <= 3 && IsSubsequence(r, doctors) &&
            (forall d :: d in r ==> d in doctors) &&
            (primary.Some? ==> forall d :: d in r ==> d.id != primary.value.id)
  {
    var p := (d: Doctor) => primary.None? || d.id != primary.value.id;
    var f := Filter(doctors, p);
    var r := OtherDoctors(doctors, primary);
    FilterIsSubsequence(doctors, p);
    FilterMultiplicity(doctors, p);
    PrefixIsSubsequence(r, f);
    SubsequenceTransitive(r, f, doctors);
    forall d | d in r ensures d in f {
      var i :| 0 <= i < |r| && r[i] == d;
      assert f[i] == d;
    }
  }

  /** The practitioner's contact list: their patients whose name contains the search
      term, ignoring case. */
  function FilteredPatients(users: seq<Patient>, doctorId: string, searchTerm: string): seq<Patient> {
    Filter(PatientsOf(users, doctorId), (p: Patient) => ContainsIgnoringCase(p.name, searchTerm))
  }

  /** The list is exactly the practitioner's matching patients, in list order. */
  lemma FilteredPatientsSpec(users: seq<Patient>, doctorId: string, searchTerm: string)
    ensures var r := FilteredPatients(users, doctorId, searchTerm);
            IsSubsequence(r, users) &&
            (forall p :: p in r <==> p in users && p.doctorId == doctorId && ContainsIgnoringCase(p.name, searchTerm)) &&
            forall p :: multiset(r)[p] == if p.doctorId == doctorId && ContainsIgnoringCase(p.name, searchTerm)
                                          then multiset(users)[p] else 0
  {
    var own := PatientsOf(users, doctorId);
    FilterIsSubsequence(users, (u: Patient) => u.doctorId == doctorId);
    FilterIsSubsequence(own, (p: Patient) => ContainsIgnoringCase(p.name, searchTerm));
    SubsequenceTransitive(FilteredPatients(users, doctorId, searchTerm), own, users);
    FilterMultiplicity(users, (u: Patient) => u.doctorId == doctorId);
    FilterMultiplicity(own, (p: Patient) => ContainsIgnoringCase(p.name, searchTerm));
  }

  /** `selectedPatientData`: the selected id resolves only among the practitioner's
      own patients. */
  function SelectedPatient(users: seq<Patient>, doctorId: string, selected: Option<string>): (r: Option<Patient>)
    ensures r.Some? ==> r.value in users && r.value.doctorId == doctorId && Some(r.value.id) == selected
    ensures r.None? <==> selected.None? || selected.value == "" ||
                         forall p :: p in users && p.doctorId == doctorId ==> p.id != selected.value
    ensures selected.Some? && selected.value != "" ==>
              var own := PatientsOf(users, doctorId);
              forall k :: 0 <= k < |own| && own[k].id == selected.value &&
                          (forall j :: 0 <= j < k ==> own[j].id != selected.value) ==>
                            r == Some(own[k])
  {
    if selected.None? || selected.value == "" then None
    else
      var r := Find(PatientsOf(users, doctorId), (p: Patient) => p.id == selected.value);
      assert r.None? <==> forall p :: p in users && p.doctorId == doctorId ==> p.id != selected.value by {
        var own := PatientsOf(users, doctorId);
        if r.None? {
          forall p | p in users && p.doctorId == doctorId ensures p.id != selected.value {
            assert p in own;
          }
        }
      }
      r
  }
}
