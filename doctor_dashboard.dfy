/** The practitioner's dashboard (src/app/doctor/page.tsx): the practitioner's share
    of the records and the figures shown on its cards. */
module DoctorDashboard {
  import opened Seqs
  import opened Records

  /** `doctorMessages`: the messages the practitioner sent or received. */
  function MessagesOf(messages: seq<ChatMessage>, doctorId: string): seq<ChatMessage> {
    Filter(messages, (m: ChatMessage) => m.senderId == doctorId || m.receiverId == doctorId)
  }

  /** The practitioner's sessions, plans and messages are exactly the records that name
      them, in list order. */
  lemma OwnRecordsSpec(sessions: seq<Session>, plans: seq<DietPlan>, messages: seq<ChatMessage>, doctorId: string)
    ensures IsSubsequence(SessionsOf(sessions, doctorId), sessions)
    ensures forall s :: s in SessionsOf(sessions, doctorId) <==> s in sessions && s.doctorId == doctorId
    ensures IsSubsequence(PlansOf(plans, doctorId), plans)
    ensures forall p :: p in PlansOf(plans, doctorId) <==> p in plans && p.doctorId == doctorId
    ensures IsSubsequence(MessagesOf(messages, doctorId), messages)
    ensures forall m :: m in MessagesOf(messages, doctorId) <==>
                        m in messages && (m.senderId == doctorId || m.receiverId == doctorId)
    ensures forall s :: multiset(SessionsOf(sessions, doctorId))[s] == if s.doctorId == doctorId then multiset(sessions)[s] else 0
    ensures forall p :: multiset(PlansOf(plans, doctorId))[p] == if p.doctorId == doctorId then multiset(plans)[p] else 0
    ensures forall m :: multiset(MessagesOf(messages, doctorId))[m] ==
                        if m.senderId == doctorId || m.receiverId == doctorId then multiset(messages)[m] else 0
  {
    FilterIsSubsequence(sessions, (s: Session) => s.doctorId == doctorId);
    FilterIsSubsequence(plans, (p: DietPlan) => p.doctorId == doctorId);
    FilterIsSubsequence(messages, (m: ChatMessage) => m.senderId == doctorId || m.receiverId == doctorId);
    FilterMultiplicity(sessions, (s: Session) => s.doctorId == doctorId);
    FilterMultiplicity(plans, (p: DietPlan) => p.doctorId == doctorId);
    FilterMultiplicity(messages, (m: ChatMessage) => m.senderId == doctorId || m.receiverId == doctorId);
  }

  /** The practitioner's appointments whose status is exactly "scheduled". */
  function ScheduledFor(appointments: seq<Appointment>, doctorId: string): seq<Appointment> {
    Filter(appointments, (a: Appointment) => a.doctorId == doctorId && a.status == "scheduled")
  }

  /** `upcomingAppointments`: the first three of the practitioner's scheduled
      appointments. */
  function UpcomingAppointments(appointments: seq<Appointment>, doctorId: string): seq<Appointment> {
    Take(ScheduledFor(appointments, doctorId), 3)
  }

  /** The scheduled appointments are exactly the practitioner's "scheduled" ones (a
      "confirmed" one is never listed), each as often as it occurs, in list order; the
      upcoming ones are the first three of them, or all when there are fewer. */
  lemma UpcomingAppointmentsSpec(appointments: seq<Appointment>, doctorId: string)
    ensures var f := ScheduledFor(appointments, doctorId);
            IsSubsequence(f, appointments) &&
            forall a :: multiset(f)[a] == if a.doctorId == doctorId && a.status == "scheduled"
                                          then multiset(appointments)[a] else 0
    ensures var f := ScheduledFor(appointments, doctorId);
            var r := UpcomingAppointments(appointments, doctorId);
            |r| == (if |f| < 3 then |f| else 3) && r == f[..|r|]
    ensures var r := UpcomingAppointments(appointments, doctorId);
            |r| <= 3 && IsSubsequence(r, appointments) &&
            (forall a :: a in r ==> a in appointments && a.doctorId == doctorId && a.status == "scheduled") &&
            (|r| < 3 ==> forall a :: a in appointments && a.doctorId == doctorId && a.status == "scheduled" ==> a in r)
  {
    var p := (a: Appointment) => a.doctorId == doctorId && a.status == "scheduled";
    var f := Filter(appointments, p);
    var r := UpcomingAppointments(appointments, doctorId);
    FilterIsSubsequence(appointments, p);
    FilterMultiplicity(appointments, p);
    PrefixIsSubsequence(r, f);
    SubsequenceTransitive(r, f, appointments);
    forall a | a in r ensures a in f {
      var i :| 0 <= i < |r| && r[i] == a;
      assert f[i] == a;
    }
    if |r| < 3 {
      assert r == f;
    }
  }

  /** `pendingDietPlans`. */
  function PendingPlans(plans: seq<DietPlan>, doctorId: string): nat {
    Count(PlansOf(plans, doctorId), (p: DietPlan) => p.status == "pending")
  }

  /** The pending figure counts the plans that are both the practitioner's and
      pending. */
  lemma PendingPlansSpec(plans: seq<DietPlan>, doctorId: string)
    ensures PendingPlans(plans, doctorId) ==
            Count(plans, (p: DietPlan) => p.doctorId == doctorId && p.status == "pending")
  {
    FilterFilter(plans, (p: DietPlan) => p.doctorId == doctorId, (p: DietPlan) => p.status == "pending",
                 (p: DietPlan) => p.doctorId == doctorId && p.status == "pending");
  }

  /** `unreadMessages`: unread messages among the practitioner's, addressed to them. */
  function UnreadMessages(messages: seq<ChatMessage>, doctorId: string): nat {
    Count(MessagesOf(messages, doctorId), (m: ChatMessage) => !m.read && m.receiverId == doctorId)
  }

  /** The unread figure counts the unread messages addressed to the practitioner; the
      messages they sent themselves never count. */
  lemma UnreadMessagesSpec(messages: seq<ChatMessage>, doctorId: string)
    ensures UnreadMessages(messages, doctorId) ==
            Count(messages, (m: ChatMessage) => !m.read && m.receiverId == doctorId)
  {
    FilterFilter(messages, (m: ChatMessage) => m.senderId == doctorId || m.receiverId == doctorId,
                 (m: ChatMessage) => !m.read && m.receiverId == doctorId,
                 (m: ChatMessage) => !m.read && m.receiverId == doctorId);
  }

  function CompletedSessions(sessions: seq<Session>, doctorId: string): nat {
    Count(SessionsOf(sessions, doctorId), (s: Session) => s.status == "completed")
  }

  function ScheduledSessions(sessions: seq<Session>, doctorId: string): nat {
    Count(SessionsOf(sessions, doctorId), (s: Session) => s.status == "scheduled")
  }

  /** Completed and scheduled sessions together never exceed the practitioner's
      sessions. */
  lemma SessionFiguresBounded(sessions: seq<Session>, doctorId: string)
    ensures CompletedSessions(sessions, doctorId) + ScheduledSessions(sessions, doctorId)
            <= |SessionsOf(sessions, doctorId)|
  {
    var own := SessionsOf(sessions, doctorId);
    CountDisjoint(own, (s: Session) => s.status == "completed", (s: Session) => s.status == "scheduled");
  }
}
