/** The dashboard's left column: the patient list with avatar initials and the
    highlighted row, the patient count, the mini-calendar toggle and the
    upcoming-appointment label. */
module Sidebar {
  import opened Types
  import opened Text
  import MockData

  /** The first character of every word, skipping empty words: an empty word
      has no first character, and joining renders the missing one as nothing. */
  function FirstChars(words: seq<string>): (r: string)
    ensures |r| <= |words|
  {
    if words == [] then []
    else (if words[0] == [] then [] else [words[0][0]]) + FirstChars(words[1..])
  }

  /** The avatar initials: the name split on single spaces, the first
      character of each piece, joined with nothing between. */
  function Initials(name: string): (r: string)
    ensures r == WordStarts(name, true)
  {
    FirstCharsOfSplit(name);
    FirstChars(Split(name, ' '))
  }

  /** An independent reading of the same rule, one character at a time: a
      character is kept when it is not a space and starts the text or follows a
      space. `atStart` says whether the previous character was a space (or
      there was none). */
  function WordStarts(s: string, atStart: bool): (r: string)
    ensures ' ' !in r
    ensures |r| <= |s|
  {
    if s == [] then []
    else if s[0] == ' ' then WordStarts(s[1..], true)
    else (if atStart then [s[0]] else []) + WordStarts(s[1..], false)
  }

  /** Splitting and taking first characters agrees with the character-by-
      character reading; inside a word (`atStart` false) the first piece has
      already been accounted for. */
  lemma {:induction false} FirstCharsOfSplit(s: string)
    ensures FirstChars(Split(s, ' ')) == WordStarts(s, true)
    ensures FirstChars(Split(s, ' ')[1..]) == WordStarts(s, false)
    decreases |s|
  {
    if s != [] {
      var rest := Split(s[1..], ' ');
      FirstCharsOfSplit(s[1..]);
      if s[0] == ' ' {
        assert Split(s, ' ') == [[]] + rest;
        assert ([[]] + rest)[1..] == rest;
      } else {
        var first := [s[0]] + rest[0];
        assert Split(s, ' ') == [first] + rest[1..];
        assert ([first] + rest[1..])[1..] == rest[1..];
      }
    }
  }

  /** The initials are exactly the word-starting characters of the name, so
      they never contain a space and are never longer than the name. */
  lemma InitialsAreWordStarts(name: string)
    ensures Initials(name) == WordStarts(name, true)
    ensures ' ' !in Initials(name) && |Initials(name)| <= |name|
  {
    FirstCharsOfSplit(name);
  }

  /** A row is highlighted when its patient's id is the selected patient's. */
  predicate IsSelected(patient: Patient, selected: Patient) {
    patient.id == selected.id
  }

  /** One row of the patient list; clicking it hands `patient` back. */
  datatype PatientRow = PatientRow(patient: Patient, initials: string, highlighted: bool, riskColor: string)

  /** What the sidebar shows. */
  datatype SidebarView = SidebarView(
    count: nat,
    rows: seq<PatientRow>,
    calendarActive: bool,
    upcomingLabel: string)

  /** The row for each patient, in roster order. */
  function Rows(patients: seq<Patient>, selected: Patient): (rows: seq<PatientRow>)
    ensures |rows| == |patients|
    ensures forall i :: 0 <= i < |patients| ==>
      && rows[i].patient == patients[i]
      && rows[i].initials == Initials(patients[i].name)
      && (rows[i].highlighted <==> patients[i].id == selected.id)
      && rows[i].riskColor == MockData.RiskConfig(patients[i].lastScan.riskLevel).color
  {
    seq(|patients|, i requires 0 <= i < |patients| =>
      var p := patients[i];
      PatientRow(p, Initials(p.name), IsSelected(p, selected), MockData.RiskConfig(p.lastScan.riskLevel).color))
  }

  /** "N upcoming appointment", with an 's' unless N is one. */
  function AppointmentLabel(n: nat): (text: string)
    ensures |text| > |NatToDecimal(n)|
    ensures text[..|NatToDecimal(n)|] == NatToDecimal(n)
    ensures DecimalValue(text[..|NatToDecimal(n)|]) == n
    ensures text[|text| - 1] == 's' <==> n != 1
  {
    DecimalRoundTrip(n);
    NatToDecimal(n) + " upcoming appointment" + (if n != 1 then "s" else "")
  }

  /** The whole sidebar for a roster, a selected patient and a view. */
  function Render(patients: seq<Patient>, selected: Patient, view: CenterView): (v: SidebarView)
    ensures v.count == |patients| == |v.rows|
    ensures v.rows == Rows(patients, selected)
    ensures v.calendarActive <==> view == CalendarView
    ensures v.upcomingLabel == AppointmentLabel(|selected.appointments|)
  {
    SidebarView(|patients|, Rows(patients, selected), view == CalendarView, AppointmentLabel(|selected.appointments|))
  }

  /** With distinct ids, at most one row is highlighted. */
  lemma AtMostOneHighlighted(patients: seq<Patient>, selected: Patient)
    requires Distinct(PatientIds(patients))
    ensures forall i, j :: 0 <= i < j < |patients| ==>
      !(Rows(patients, selected)[i].highlighted && Rows(patients, selected)[j].highlighted)
  {
    forall i, j | 0 <= i < j < |patients|
      ensures !(Rows(patients, selected)[i].highlighted && Rows(patients, selected)[j].highlighted)
    {
      assert PatientIds(patients)[i] != PatientIds(patients)[j];
    }
  }

  /** When the selected patient is one of the roster's records and the ids are
      distinct, exactly its row is highlighted. */
  lemma ListedSelectionHighlightsItsRow(patients: seq<Patient>, k: int)
    requires Distinct(PatientIds(patients)) && 0 <= k < |patients|
    ensures forall i :: 0 <= i < |patients| ==>
      (Rows(patients, patients[k])[i].highlighted <==> i == k)
  {
    forall i | 0 <= i < |patients|
      ensures Rows(patients, patients[k])[i].highlighted <==> i == k
    {
      if i != k {
        assert PatientIds(patients)[i] != PatientIds(patients)[k];
      }
    }
  }

  /** The mini-calendar click asks for the other view. */
  function ToggleView(view: CenterView): (r: CenterView)
    ensures r != view
  {
    if view == CalendarView then ModelView else CalendarView
  }

  /** Two clicks bring the original view back. */
  lemma ToggleTwiceRestores(view: CenterView)
    ensures ToggleView(ToggleView(view)) == view
  {
  }
}
