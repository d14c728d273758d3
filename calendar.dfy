/** The weekly schedule: a 5-day by 9-hour grid whose slots are filled by a
    first-match search over a fixed list of four patients, and the
    appointment-detail selection that slot clicks set and the close controls
    clear. */
module Calendar {
  import opened Common
  import opened Types

  /** An appointment as the calendar's own patient list writes it (no owner id). */
  datatype CalendarAppointment = CalendarAppointment(
    id: string, date: string, time: string, duration: int, visitType: string, notes: string)

  datatype CalendarPatient = CalendarPatient(
    id: string, name: string, riskLevel: RiskLevel, appointments: seq<CalendarAppointment>)

  /** A filled slot: the appointment extended with its owner's name, risk level and id. */
  datatype SlotAppointment = SlotAppointment(
    appointment: CalendarAppointment, patientName: string, riskLevel: RiskLevel, patientId: string)

  const Days: seq<string> := ["Monday", "Tuesday", "Wednesday", "Thursday", "Friday"]
  const Dates: seq<string> := ["Feb 23", "Feb 24", "Feb 25", "Feb 26", "Feb 27"]
  const Hours: seq<string> :=
    ["8:00 AM", "9:00 AM", "10:00 AM", "11:00 AM", "12:00 PM", "1:00 PM", "2:00 PM", "3:00 PM", "4:00 PM"]

  /** The calendar's own patient list; the roster handed to the calendar is not
      consulted. */
  function AllPatients(): (ps: seq<CalendarPatient>)
    ensures |ps| == 4
  {
    [ CalendarPatient("1", "James Thornton", Red, [CalendarAppointment("a1", "Feb 24, 2026", "10:00 AM", 60,
        "Oral Cancer Screening", "Follow up on high " + "risk MouthWatch result")]),
      CalendarPatient("2", "Sarah Mitchell", Yellow, [CalendarAppointment("a2", "Feb 25, 2026", "2:00 PM", 30,
        "Routine Checkup", "Monitor moderate " + "risk result")]),
      CalendarPatient("3", "Michael Rodriguez", Green, [CalendarAppointment("a3", "Feb 26, 2026", "11:00 AM", 45,
        "Cleaning", "")]),
      CalendarPatient("4", "Emily Chen", Red, [CalendarAppointment("a4", "Feb 24, 2026", "9:00 AM", 90,
        "Urgent Consultation", "High risk — prior " + "cancer history")]) ]
  }

  /** An appointment belongs in the slot of `date` (a grid date such as
      "Feb 24") and `hour`: its date is that date with ", 2026" appended and its
      time is the hour string exactly. */
  predicate Matches(a: CalendarAppointment, date: string, hour: string) {
    a.date == date + ", 2026" && a.time == hour
  }

  /** Some appointment of `p` belongs in the slot. */
  predicate HasMatch(p: CalendarPatient, date: string, hour: string) {
    exists k | 0 <= k < |p.appointments| :: Matches(p.appointments[k], date, hour)
  }

  /** `Array.prototype.find`: the first appointment that belongs in the slot. */
  function FindAppointment(appointments: seq<CalendarAppointment>, date: string, hour: string)
    : (r: Option<CalendarAppointment>)
    ensures r.None? <==> forall k :: 0 <= k < |appointments| ==> !Matches(appointments[k], date, hour)
    ensures r.Some? ==>
      exists k :: && 0 <= k < |appointments| && appointments[k] == r.value
                  && Matches(r.value, date, hour)
                  && forall j :: 0 <= j < k ==> !Matches(appointments[j], date, hour)
  {
    if appointments == [] then None
    else if Matches(appointments[0], date, hour) then Some(appointments[0])
    else
      var r := FindAppointment(appointments[1..], date, hour);
      assert r.Some? ==> appointments[1..][0] == appointments[1];
      r
  }

  /** The slot's content: the first matching appointment of the first patient
      that has one, with that patient's name, risk level and id. */
  function SlotLookup(patients: seq<CalendarPatient>, date: string, hour: string): (r: Option<SlotAppointment>)
    ensures r.None? <==> forall i :: 0 <= i < |patients| ==> !HasMatch(patients[i], date, hour)
    ensures r.Some? ==>
      exists i :: && 0 <= i < |patients| && HasMatch(patients[i], date, hour)
                  && (forall j :: 0 <= j < i ==> !HasMatch(patients[j], date, hour))
                  && r.value == SlotAppointment(FindAppointment(patients[i].appointments, date, hour).value,
                                                patients[i].name, patients[i].riskLevel, patients[i].id)
  {
    if patients == [] then None
    else
      var found := FindAppointment(patients[0].appointments, date, hour);
      if found.Some? then
        Some(SlotAppointment(found.value, patients[0].name, patients[0].riskLevel, patients[0].id))
      else
        var r := SlotLookup(patients[1..], date, hour);
        assert forall i :: 1 <= i < |patients| ==> patients[1..][i - 1] == patients[i];
        r
  }

  /** `getApptForSlot`: scans the patients in order and returns at the first
      one holding an appointment for the slot. */
  method GetApptForSlot(patients: seq<CalendarPatient>, date: string, hour: string)
    returns (r: Option<SlotAppointment>)
    ensures r == SlotLookup(patients, date, hour)
  {
    var i := 0;
    while i < |patients|
      invariant 0 <= i <= |patients|
      invariant SlotLookup(patients, date, hour) == SlotLookup(patients[i..], date, hour)
    {
      var p := patients[i];
      var found := FindAppointment(p.appointments, date, hour);
      if found.Some? {
        return Some(SlotAppointment(found.value, p.name, p.riskLevel, p.id));
      }
      assert patients[i..][1..] == patients[i + 1..];
      i := i + 1;
    }
    return None;
  }

  /** The grid's slots, day by day and, within a day, hour by hour. */
  function Grid(): (slots: seq<(string, string)>)
    ensures |slots| == |Dates| * |Hours| == 45
    ensures forall s :: 0 <= s < 45 ==> slots[s] == (Dates[s / 9], Hours[s % 9])
  {
    seq(45, s requires 0 <= s < 45 => (Dates[s / 9], Hours[s % 9]))
  }

  /** Every slot of the grid is queried once: the 45 (date, hour) pairs are
      pairwise different. */
  lemma GridSlotsDistinct()
    ensures Distinct(Grid())
  {
    forall s, t | 0 <= s < t < 45 ensures Grid()[s] != Grid()[t] {
      if s / 9 == t / 9 {
        assert s % 9 != t % 9;
      }
    }
  }

  /** The grid slot a fixed appointment falls into. */
  predicate InSlot(a: CalendarAppointment, s: int) {
    0 <= s < 45 && Matches(a, Dates[s / 9], Hours[s % 9])
  }

  /** The search picks the first patient with a match: when patient `k` has
      one and no earlier patient does, the slot shows patient `k`. */
  lemma FirstMatchingPatientWins(patients: seq<CalendarPatient>, date: string, hour: string, k: int)
    requires 0 <= k < |patients| && HasMatch(patients[k], date, hour)
    requires forall j :: 0 <= j < k ==> !HasMatch(patients[j], date, hour)
    ensures SlotLookup(patients, date, hour)
         == Some(SlotAppointment(FindAppointment(patients[k].appointments, date, hour).value,
                                 patients[k].name, patients[k].riskLevel, patients[k].id))
  {
    var r := SlotLookup(patients, date, hour);
    var i :| && 0 <= i < |patients| && HasMatch(patients[i], date, hour)
             && (forall j :: 0 <= j < i ==> !HasMatch(patients[j], date, hour))
             && r.value == SlotAppointment(FindAppointment(patients[i].appointments, date, hour).value,
                                           patients[i].name, patients[i].riskLevel, patients[i].id);
    assert i == k;
  }

  /** Each of the four fixed appointments falls into a slot of the grid, and
      the four slots are different. */
  lemma FixedAppointmentsFillDistinctSlots()
    ensures forall i :: 0 <= i < 4 ==> |AllPatients()[i].appointments| == 1
    ensures InSlot(AllPatients()[0].appointments[0], 11)
    ensures InSlot(AllPatients()[1].appointments[0], 24)
    ensures InSlot(AllPatients()[2].appointments[0], 30)
    ensures InSlot(AllPatients()[3].appointments[0], 10)
  {
  }

  /** The slot of Feb 24 at 10:00 AM shows James Thornton's screening. */
  lemma ThorntonSlot()
    ensures SlotLookup(AllPatients(), "Feb 24", "10:00 AM")
         == Some(SlotAppointment(AllPatients()[0].appointments[0], "James Thornton", Red, "1"))
  {
    var ps := AllPatients();
    assert Matches(ps[0].appointments[0], "Feb 24", "10:00 AM");
    FirstMatchingPatientWins(ps, "Feb 24", "10:00 AM", 0);
  }

  /** The slot of Feb 24 at 9:00 AM shows Emily Chen's consultation, although
      she comes last in the calendar's list. */
  lemma ChenSlot()
    ensures SlotLookup(AllPatients(), "Feb 24", "9:00 AM")
         == Some(SlotAppointment(AllPatients()[3].appointments[0], "Emily Chen", Red, "4"))
  {
    var ps := AllPatients();
    assert Matches(ps[3].appointments[0], "Feb 24", "9:00 AM");
    assert !Matches(ps[0].appointments[0], "Feb 24", "9:00 AM");
    assert !Matches(ps[1].appointments[0], "Feb 24", "9:00 AM");
    assert !Matches(ps[2].appointments[0], "Feb 24", "9:00 AM");
    FirstMatchingPatientWins(ps, "Feb 24", "9:00 AM", 3);
  }

  /** The detail panel's state: the slot appointment last clicked, if any. */
  class CalendarScreen {
    /** The roster passed in by the dashboard; no operation reads it. */
    const patients: seq<Patient>
    var selectedAppt: Option<SlotAppointment>

    constructor(patients: seq<Patient>)
      ensures this.patients == patients && selectedAppt.None?
    {
      this.patients := patients;
      selectedAppt := None;
    }

    /** A click on the slot of `date` and `hour` selects its appointment; a
        click on an empty slot leaves the selection as it was. */
    method ClickSlot(date: string, hour: string)
      modifies this
      ensures var found := SlotLookup(AllPatients(), date, hour);
              selectedAppt == (if found.Some? then found else old(selectedAppt))
    {
      var found := GetApptForSlot(AllPatients(), date, hour);
      if found.Some? {
        selectedAppt := found;
      }
    }

    /** The backdrop and the close button both clear the selection. */
    method Close()
      modifies this
      ensures selectedAppt.None?
    {
      selectedAppt := None;
    }
  }
}
