/** The patient's sessions page (src/app/user/sessions/page.tsx): the bookable time
    slots, the doctor search, the specialization list, the booking form, the price
    shown for a session type, and the lists of the patient's own sessions. */
module Booking {
  import opened Wrappers
  import opened Seqs
  import opened Text
  import opened Records

  const StartHour: nat := 9
  const EndHour: nat := 17
  const SlotCount: nat := 16

  /** `n.toString().padStart(2, '0')` for the hours and minutes the loop produces
      (below 100): the tens digit, then the units digit. `Text.TwoDigitPad` proves that
      this is what `toString` and `padStart` give. */
  function TwoDigits(n: nat): string
    requires n < 100
  {
    [DigitChar(n / 10), DigitChar(n % 10)]
  }

  /** The `HH:MM` clock the slot loop builds for an hour and a minute. */
  function FormatTime(hour: nat, minute: nat): string
    requires hour < 100 && minute < 100
  {
    TwoDigits(hour) + ":" + TwoDigits(minute)
  }

  /** The minute of the day an `HH:MM` clock names. */
  function MinuteOfDay(clock: string): int
    requires |clock| == 5
    requires forall k :: 0 <= k < 5 && k != 2 ==> IsDecimalDigit(clock[k])
  {
    DecimalValue(clock[..2]) * 60 + DecimalValue(clock[3..])
  }

  /** The `k`-th slot: half-hour steps from 09:00. */
  function Slot(k: nat): string
    requires k < SlotCount
  {
    FormatTime(StartHour + k / 2, (k % 2) * 30)
  }

  /** The clock label is the two numbers' `toString().padStart(2, '0')` around a colon. */
  lemma FormatTimeIsPadded(hour: nat, minute: nat)
    requires hour < 100 && minute < 100
    ensures FormatTime(hour, minute) ==
            PadStart(DecimalString(hour), 2, '0') + ":" + PadStart(DecimalString(minute), 2, '0')
  {
    TwoDigitPad(hour);
    TwoDigitPad(minute);
  }

  /** Every clock label for a two-digit hour and minute is five characters, two digits,
      a colon, two digits, and reads back as that time of day. */
  lemma {:induction false} FormatTimeRoundTrip(hour: nat, minute: nat)
    requires hour < 100 && minute < 100
    ensures var clock := FormatTime(hour, minute);
            |clock| == 5 && clock[2] == ':' &&
            (forall k :: 0 <= k < 5 && k != 2 ==> IsDecimalDigit(clock[k])) &&
            MinuteOfDay(clock) == hour * 60 + minute
  {
    var clock := FormatTime(hour, minute);
    assert clock[..2] == TwoDigits(hour);
    assert clock[3..] == TwoDigits(minute);
    TwoDigitValue(hour);
    TwoDigitValue(minute);
  }

  /** Reading back the two digits of a number below 100 gives the number. */
  lemma TwoDigitValue(n: nat)
    requires n < 100
    ensures DecimalValue(TwoDigits(n)) == n
  {
    var s := TwoDigits(n);
    assert DigitValue(DigitChar(n / 10)) == n / 10;
    assert DigitValue(DigitChar(n % 10)) == n % 10;
    assert s[..1] == [DigitChar(n / 10)];
    assert s[..1][..0] == [];
    assert DecimalValue(s[..1]) == n / 10;
  }

  /** The slots are 09:00, 09:30, ..., 16:30: slot `k` is `30 k` minutes after 09:00,
      so they strictly ascend in 30-minute steps. */
  lemma SlotTimes(k: nat)
    requires k < SlotCount
    ensures |Slot(k)| == 5 && Slot(k)[2] == ':'
    ensures (forall i :: 0 <= i < 5 && i != 2 ==> IsDecimalDigit(Slot(k)[i]))
    ensures MinuteOfDay(Slot(k)) == StartHour * 60 + 30 * k
  {
    FormatTimeRoundTrip(StartHour + k / 2, (k % 2) * 30);
  }

  /** The label the loop builds for an hour and a minute is the slot at that position. */
  lemma SlotAt(hour: nat, minute: nat)
    requires StartHour <= hour < EndHour && (minute == 0 || minute == 30)
    ensures Slot(2 * (hour - StartHour) + minute / 30) == FormatTime(hour, minute)
  {
    var k := 2 * (hour - StartHour) + minute / 30;
    assert k / 2 == hour - StartHour && k % 2 == minute / 30;
  }

  /** `generateTimeSlots`: for each hour from 9 up to 17 (exclusive), the minutes 0
      and 30, pushed in order. */
  method GenerateTimeSlots() returns (slots: seq<string>)
    ensures |slots| == SlotCount
    ensures forall k :: 0 <= k < |slots| ==> slots[k] == Slot(k)
  {
    slots := [];
    var hour := StartHour;
    while hour < EndHour
      invariant StartHour <= hour <= EndHour
      invariant |slots| == 2 * (hour - StartHour)
      invariant forall k :: 0 <= k < |slots| ==> slots[k] == Slot(k)
    {
      var minute := 0;
      while minute < 60
        invariant minute == 0 || minute == 30 || minute == 60
        invariant |slots| == 2 * (hour - StartHour) + minute / 30
        invariant forall k :: 0 <= k < |slots| ==> slots[k] == Slot(k)
      {
        SlotAt(hour, minute);
        slots := slots + [FormatTime(hour, minute)];
        minute := minute + 30;
      }
      hour := hour + 1;
    }
  }

  /** The doctor search: the term occurs, ignoring case, in the name or the
      specialization; and the specialization filter is empty or equal. */
  predicate DoctorMatches(d: Doctor, searchTerm: string, specializationFilter: string) {
    (ContainsIgnoringCase(d.name, searchTerm) || ContainsIgnoringCase(d.specialization, searchTerm)) &&
    (specializationFilter == "" || d.specialization == specializationFilter)
  }

  /** `filteredDoctors`. */
  function FilteredDoctors(doctors: seq<Doctor>, searchTerm: string, specializationFilter: string): seq<Doctor> {
    Filter(doctors, d => DoctorMatches(d, searchTerm, specializationFilter))
  }

  /** The listed doctors are exactly the matching ones, in the original order. */
  lemma FilteredDoctorsSpec(doctors: seq<Doctor>, searchTerm: string, specializationFilter: string)
    ensures var r := FilteredDoctors(doctors, searchTerm, specializationFilter);
            IsSubsequence(r, doctors) &&
            (forall d :: d in r <==> d in doctors && DoctorMatches(d, searchTerm, specializationFilter)) &&
            forall d :: multiset(r)[d] == if DoctorMatches(d, searchTerm, specializationFilter) then multiset(doctors)[d] else 0
  {
    FilterIsSubsequence(doctors, d => DoctorMatches(d, searchTerm, specializationFilter));
    FilterMultiplicity(doctors, d => DoctorMatches(d, searchTerm, specializationFilter));
  }

  /** With no search term and no specialization chosen every doctor is listed. */
  lemma NoFilterListsAll(doctors: seq<Doctor>)
    ensures FilteredDoctors(doctors, "", "") == doctors
  {
    forall i | 0 <= i < |doctors| ensures DoctorMatches(doctors[i], "", "") {
      EmptyTermMatches(doctors[i].name);
    }
    FilterAll(doctors, d => DoctorMatches(d, "", ""));
  }

  datatype SessionType = Consultation | FollowUp | Emergency

  /** The price shown in the booking summary, in rupees. */
  function Price(t: SessionType): (rupees: nat)
    ensures t == Consultation ==> rupees == 500
    ensures t == FollowUp ==> rupees == 300
    ensures t == Emergency ==> rupees == 800
  {
    if t == Consultation then 500 else if t == FollowUp then 300 else 800
  }

  /** What `handleBookSession` logs as the booking. */
  datatype BookingRequest = BookingRequest(doctorId: string, date: string, time: string, sessionType: SessionType, userId: string)

  /** The booking form's state. */
  const IncompleteAlert: string := "Please select doctor, date, and time slot"
  const BookedAlert: string := "Session booked successfully!"

  class BookingForm {
    var selectedDoctor: Option<string>
    var selectedDate: string
    var selectedTimeSlot: string
    var sessionType: SessionType
    /** The messages shown with `alert`, oldest first. */
    var alerts: seq<string>

    constructor ()
      ensures selectedDoctor == None && selectedDate == "" && selectedTimeSlot == "" && sessionType == Consultation
      ensures alerts == []
    {
      selectedDoctor := None;
      selectedDate := "";
      selectedTimeSlot := "";
      sessionType := Consultation;
      alerts := [];
    }

    /** Whether doctor, date and time are all chosen (non-empty). */
    predicate Complete()
      reads this
    {
      selectedDoctor.Some? && selectedDoctor.value != "" && selectedDate != "" && selectedTimeSlot != ""
    }

    /** `handleBookSession`: refuses with an alert (and changes nothing else) unless
        doctor, date and time are chosen; otherwise books them for `userId`, alerts the
        success and clears the three choices, keeping the session type. */
    method HandleBookSession(userId: string) returns (booking: Option<BookingRequest>)
      modifies this
      ensures booking.Some? <==> old(Complete())
      ensures booking.Some? ==>
                booking.value == BookingRequest(old(selectedDoctor).value, old(selectedDate),
                                                old(selectedTimeSlot), old(sessionType), userId) &&
                selectedDoctor == None && selectedDate == "" && selectedTimeSlot == ""
      ensures booking.None? ==>
                selectedDoctor == old(selectedDoctor) && selectedDate == old(selectedDate) &&
                selectedTimeSlot == old(selectedTimeSlot)
      ensures sessionType == old(sessionType)
      ensures alerts == old(alerts) + [if booking.Some? then BookedAlert else IncompleteAlert]
    {
      if !Complete() {
        alerts := alerts + [IncompleteAlert];
        return None;
      }
      booking := Some(BookingRequest(selectedDoctor.value, selectedDate, selectedTimeSlot, sessionType, userId));
      alerts := alerts + [BookedAlert];
      selectedDoctor := None;
      selectedDate := "";
      selectedTimeSlot := "";
    }
  }

  /** `userSessions`: the sessions booked by the patient, listed on the "History" tab. */
  function PatientSessions(sessions: seq<Session>, userId: string): seq<Session> {
    Filter(sessions, (s: Session) => s.userId == userId)
  }

  /** The history lists every session of the patient as often as it occurs, in order,
      and no other; it is empty exactly when the patient has no session. */
  lemma PatientSessionsSpec(sessions: seq<Session>, userId: string)
    ensures var r := PatientSessions(sessions, userId);
            IsSubsequence(r, sessions) &&
            (forall s :: multiset(r)[s] == if s.userId == userId then multiset(sessions)[s] else 0) &&
            (r == [] <==> forall s :: s in sessions ==> s.userId != userId)
  {
    FilterIsSubsequence(sessions, (s: Session) => s.userId == userId);
    FilterMultiplicity(sessions, (s: Session) => s.userId == userId);
  }

  /** The "Scheduled" tab: the patient's appointments that are scheduled or confirmed. */
  function ScheduledTab(appointments: seq<Appointment>, userId: string): seq<Appointment> {
    Filter(Filter(appointments, (a: Appointment) => a.patientId == userId),
           (a: Appointment) => a.status == "scheduled" || a.status == "confirmed")
  }

  /** The tab lists exactly the patient's scheduled or confirmed appointments, in order. */
  lemma ScheduledTabSpec(appointments: seq<Appointment>, userId: string)
    ensures var r := ScheduledTab(appointments, userId);
            IsSubsequence(r, appointments) &&
            (forall a :: a in r <==> a in appointments && a.patientId == userId &&
                                     (a.status == "scheduled" || a.status == "confirmed")) &&
            forall a :: multiset(r)[a] == if a.patientId == userId && (a.status == "scheduled" || a.status == "confirmed")
                                          then multiset(appointments)[a] else 0
  {
    var own := Filter(appointments, (a: Appointment) => a.patientId == userId);
    FilterIsSubsequence(appointments, (a: Appointment) => a.patientId == userId);
    FilterIsSubsequence(own, (a: Appointment) => a.status == "scheduled" || a.status == "confirmed");
    SubsequenceTransitive(ScheduledTab(appointments, userId), own, appointments);
    FilterMultiplicity(appointments, (a: Appointment) => a.patientId == userId);
    FilterMultiplicity(own, (a: Appointment) => a.status == "scheduled" || a.status == "confirmed");
  }
}
