/** The dashboard's record types: patients, their scans, appointments and
    spatial annotations, and the three enumerations. */
module Types {
  import opened Common

  /** Scan-level screening risk. */
  datatype RiskLevel = Green | Yellow | Red

  /** Operator-assigned urgency of an annotation. */
  datatype AnnotationSeverity = Info | Watch | Moderate | Urgent

  /** What the centre panel shows. */
  datatype CenterView = ModelView | CalendarView

  /** The string spellings the TypeScript union types admit. */
  const RiskLevelNames: set<string> := {"green", "yellow", "red"}
  const SeverityNames: set<string> := {"info", "watch", "moderate", "urgent"}
  const CenterViewNames: set<string> := {"model", "calendar"}

  function RiskLevelName(r: RiskLevel): (name: string)
    ensures name in RiskLevelNames
  {
    match r
    case Green => "green"
    case Yellow => "yellow"
    case Red => "red"
  }

  /** Reads a risk level back from its spelling; only the three spellings parse. */
  function ParseRiskLevel(name: string): (r: Option<RiskLevel>)
    ensures r.Some? <==> name in RiskLevelNames
    ensures r.Some? ==> RiskLevelName(r.value) == name
  {
    if name == "green" then Some(Green)
    else if name == "yellow" then Some(Yellow)
    else if name == "red" then Some(Red)
    else None
  }

  function SeverityName(s: AnnotationSeverity): (name: string)
    ensures name in SeverityNames
  {
    match s
    case Info => "info"
    case Watch => "watch"
    case Moderate => "moderate"
    case Urgent => "urgent"
  }

  /** Reads a severity back from its spelling; only the four spellings parse. */
  function ParseSeverity(name: string): (r: Option<AnnotationSeverity>)
    ensures r.Some? <==> name in SeverityNames
    ensures r.Some? ==> SeverityName(r.value) == name
  {
    if name == "info" then Some(Info)
    else if name == "watch" then Some(Watch)
    else if name == "moderate" then Some(Moderate)
    else if name == "urgent" then Some(Urgent)
    else None
  }

  function CenterViewName(v: CenterView): (name: string)
    ensures name in CenterViewNames
  {
    match v
    case ModelView => "model"
    case CalendarView => "calendar"
  }

  /** Every severity parses back from its own spelling, so the four spellings
      and the four values correspond one to one. */
  lemma SeverityNameRoundTrip(s: AnnotationSeverity)
    ensures ParseSeverity(SeverityName(s)) == Some(s)
  {
    match s
    case Info =>
    case Watch =>
    case Moderate =>
    case Urgent =>
  }

  /** Every risk level parses back from its own spelling. */
  lemma RiskLevelNameRoundTrip(r: RiskLevel)
    ensures ParseRiskLevel(RiskLevelName(r)) == Some(r)
  {
    match r
    case Green =>
    case Yellow =>
    case Red =>
  }

  /** A point in the model's local coordinate space: exactly three numbers. */
  datatype Position = Position(x: real, y: real, z: real)

  /** `label` is a Dafny keyword, so the field is `labelText`. */
  datatype Annotation = Annotation(
    id: string,
    position: Position,
    severity: AnnotationSeverity,
    labelText: string,
    note: string)

  datatype Scan = Scan(
    id: string,
    date: string,
    riskLevel: RiskLevel,
    score: real,
    mlConfidence: real,
    riskFactors: seq<string>)

  /** `patientId` is a back-reference to the owning patient, not an ownership edge.
      The TypeScript field `type` is `visitType` here. */
  datatype Appointment = Appointment(
    id: string,
    patientId: string,
    date: string,
    time: string,
    duration: int,
    visitType: string,
    notes: string)

  datatype Patient = Patient(
    id: string,
    name: string,
    age: int,
    email: string,
    phone: string,
    lastScan: Scan,
    scanHistory: seq<Scan>,
    appointments: seq<Appointment>,
    clinicalNotes: string,
    annotations: seq<Annotation>)

  /** No value occurs twice. */
  predicate Distinct<T(==)>(s: seq<T>) {
    forall i, j :: 0 <= i < j < |s| ==> s[i] != s[j]
  }

  /** A list is free of repeats exactly when no value occurs in it twice. */
  lemma {:induction false} DistinctIffSingleOccurrences<T>(s: seq<T>)
    ensures Distinct(s) <==> forall x :: multiset(s)[x] <= 1
  {
    if Distinct(s) {
      if s != [] {
        DistinctIffSingleOccurrences(s[1..]);
        assert s == [s[0]] + s[1..];
        assert s[0] !in s[1..] by {
          forall j | 0 <= j < |s[1..]| ensures s[1..][j] != s[0] {
            assert s[1..][j] == s[j + 1];
          }
        }
      }
    } else {
      var i, j :| 0 <= i < j < |s| && s[i] == s[j];
      assert s == s[..j] + s[j..];
      assert s[i] in s[..j];
      assert s[j] in s[j..];
      assert multiset(s)[s[i]] == multiset(s[..j])[s[i]] + multiset(s[j..])[s[i]];
    }
  }

  /** Two scan records describe the same scan: they agree on everything but the
      free-text risk factors (which the seed data abbreviates in the history). */
  predicate SameScan(a: Scan, b: Scan) {
    a.id == b.id && a.date == b.date && a.riskLevel == b.riskLevel
    && a.score == b.score && a.mlConfidence == b.mlConfidence
  }

  /** The history is non-empty and its newest entry is the last scan. */
  predicate LastScanIsNewest(p: Patient) {
    |p.scanHistory| > 0 && SameScan(p.lastScan, p.scanHistory[0])
  }

  /** Every appointment refers back to its owner. */
  predicate AppointmentsOwned(p: Patient) {
    forall k :: 0 <= k < |p.appointments| ==> p.appointments[k].patientId == p.id
  }

  function PatientIds(ps: seq<Patient>): (ids: seq<string>)
    ensures |ids| == |ps| && forall i :: 0 <= i < |ps| ==> ids[i] == ps[i].id
  {
    seq(|ps|, i requires 0 <= i < |ps| => ps[i].id)
  }

  /** The ids of one patient's annotations, in order. */
  function AnnotationIdsOf(p: Patient): (ids: seq<string>)
    ensures |ids| == |p.annotations|
    ensures forall k :: 0 <= k < |ids| ==> ids[k] == p.annotations[k].id
  {
    seq(|p.annotations|, k requires 0 <= k < |p.annotations| => p.annotations[k].id)
  }

  /** The ids of all annotations of all patients, patient by patient. */
  function AnnotationIds(ps: seq<Patient>): seq<string> {
    if ps == [] then [] else AnnotationIdsOf(ps[0]) + AnnotationIds(ps[1..])
  }

  /** The roster invariants that the seed data establishes. */
  predicate WellFormedRoster(ps: seq<Patient>) {
    && Distinct(PatientIds(ps))
    && (forall i :: 0 <= i < |ps| ==> LastScanIsNewest(ps[i]) && AppointmentsOwned(ps[i]))
  }
}
