/** The dashboard's seed roster and its two display lookup tables. */
module MockData {
  import opened Types

  /** The eight patients the dashboard starts with, in display order.
      Long texts below are written as concatenations of short pieces (the
      verifier's work on a single literal grows faster than its length); the
      texts themselves are the seed's, character for character. */
  function MockPatients(): (ps: seq<Patient>)
    ensures |ps| == 8
  {
    [Patient1(), Patient4(), Patient7(), Patient2(), Patient8(), Patient5(), Patient3(), Patient6()]
  }

  /** James Thornton. */
  function Patient1(): Patient {
    Patient("1", "James Thornton", 54, "james.thornton@email.com", ("+1 (416) " + "555-0201"),
      Scan("s1", "Feb 21, 2026", Red, 67.6, 82.8, [("Daily " + "tobacco " + "use"), ("Occasional " + "alcohol")]),
      [ Scan("s1", "Feb 21, 2026", Red, 67.6, 82.8, [("Daily " + "tobacco " + "use")]),
        Scan("s2", "Feb 13, 2026", Yellow, 45.2, 71.0, [("Daily " + "tobacco " + "use")]),
        Scan("s3", "Feb 6, 2026", Green, 22.1, 61.0, []) ],
      [ Appointment("a1", "1", "Feb 24, 2026", "10:00 AM", 60, ("Oral " + "Cancer " + "Screening"), ("Follow up " + "on high " + "risk " + "MouthWatch " + "result")) ],
      ("• " + "Suspicious " + "lesion " + "lower " + "left " + "buccal " + "mucosa\n• " + "MouthWatch " + "flagged " + "high risk " + "Feb 21\n• " + "Daily " + "smoker — " + "cessation " + "counselling " + "provided\n• " + "Recommend " + "biopsy if " + "lesion " + "persists " + ">2 " + "weeks\n• " + "F/U " + "booked " + "Feb 24"),
      [ Annotation("ann1", Position(-0.3, -0.2, 0.4), Urgent, ("Suspicious " + "lesion"), ("Flagged " + "by " + "MouthWatch " + "— monitor " + "closely")),
        Annotation("ann2", Position(0.4, -0.1, 0.35), Watch, "Early cavity", ("Early " + "demineralization " + "— review " + "at next " + "visit")) ])
  }

  /** Emily Chen. */
  function Patient4(): Patient {
    Patient("4", "Emily Chen", 61, "emily.chen@email.com", ("+1 (416) " + "555-0204"),
      Scan("s7", "Feb 20, 2026", Red, 78.4, 88.2, [("Prior " + "oral " + "cancer " + "history"), ("Daily " + "tobacco " + "use"), "HPV positive"]),
      [ Scan("s7", "Feb 20, 2026", Red, 78.4, 88.2, ["Prior cancer", "Tobacco"]),
        Scan("s8", "Feb 5, 2026", Red, 71.1, 84.0, ["Prior cancer"]) ],
      [ Appointment("a4", "4", "Feb 24, 2026", "9:00 AM", 90, ("Urgent " + "Consultation"), ("High risk " + "— prior " + "cancer " + "history. " + "Refer to " + "oral " + "surgeon.")) ],
      ("• Prior " + "oral " + "cancer " + "2019 — " + "treated " + "successfully\n• " + "Two " + "consecutive " + "high risk " + "MouthWatch " + "scans\n• " + "HPV " + "positive\n• " + "Referring " + "to oral " + "surgeon " + "for " + "evaluation\n• " + "Biopsy " + "likely " + "required\n• " + "URGENT: " + "do not " + "delay " + "referral"),
      [ Annotation("ann4", Position(-0.4, -0.15, 0.38), Urgent, ("Recurrence " + "risk area"), ("Prior " + "cancer " + "site — " + "monitor " + "extremely " + "closely")),
        Annotation("ann5", Position(0.1, -0.25, 0.42), Moderate, "New lesion", ("Appeared " + "since " + "last visit")),
        Annotation("ann6", Position(0.45, -0.05, 0.35), Watch, "Early cavity", ("Lower " + "right " + "molar")) ])
  }

  /** Robert Okafor. */
  function Patient7(): Patient {
    Patient("7", "Robert Okafor", 48, "r.okafor@email.com", ("+1 (416) " + "555-0207"),
      Scan("s13", "Feb 19, 2026", Red, 71.2, 85.1, [("Heavy " + "alcohol " + "consumption"), ("Daily " + "tobacco " + "use")]),
      [ Scan("s13", "Feb 19, 2026", Red, 71.2, 85.1, ["Heavy alcohol", "Tobacco"]),
        Scan("s14", "Feb 10, 2026", Yellow, 52.3, 74.0, ["Heavy alcohol"]) ],
      [ Appointment("a7", "7", "Feb 25, 2026", "3:00 PM", 60, ("Oral " + "Cancer " + "Screening"), ("Increasing " + "risk " + "trend — " + "comprehensive " + "exam " + "required")) ],
      ("• Heavy " + "alcohol + " + "daily " + "tobacco — " + "dual risk " + "factors\n• " + "Risk " + "trend " + "increasing " + "across " + "last 2 " + "scans\n• " + "White " + "patch " + "noted on " + "right " + "lateral " + "tongue\n• " + "Urgent " + "screening " + "booked " + "Feb 25\n• " + "Advised " + "to reduce " + "alcohol " + "intake " + "immediately"),
      [ Annotation("ann10", Position(0.3, -0.2, 0.4), Urgent, "White patch", ("Right " + "lateral " + "tongue — " + "leukoplakia " + "suspected")),
        Annotation("ann11", Position(-0.25, -0.1, 0.38), Moderate, "Inflamed gum", ("Likely " + "alcohol-related " + "— monitor")) ])
  }

  /** Sarah Mitchell. */
  function Patient2(): Patient {
    Patient("2", "Sarah Mitchell", 34, "sarah.mitchell@email.com", ("+1 (416) " + "555-0202"),
      Scan("s4", "Feb 18, 2026", Yellow, 42.3, 68.5, [("Occasional " + "alcohol")]),
      [ Scan("s4", "Feb 18, 2026", Yellow, 42.3, 68.5, []),
        Scan("s5", "Feb 4, 2026", Green, 18.0, 55.0, []) ],
      [ Appointment("a2", "2", "Feb 25, 2026", "2:00 PM", 30, "Routine Checkup", ("Monitor " + "moderate " + "risk " + "result")) ],
      ("• " + "Moderate " + "risk on " + "latest " + "scan — " + "likely " + "benign\n• " + "No " + "significant " + "oral " + "health " + "history\n• " + "Occasional " + "alcohol " + "noted on " + "intake " + "form\n• " + "Risk " + "trend " + "stable → " + "slight " + "increase, " + "monitor\n• " + "Review at " + "next " + "visit in " + "4 weeks"),
      [ Annotation("ann3", Position(0.2, 0.3, 0.8), Watch, "Minor irritation", ("Likely " + "from " + "grinding " + "— " + "recommend " + "night " + "guard")) ])
  }

  /** Priya Nair. */
  function Patient8(): Patient {
    Patient("8", "Priya Nair", 29, "priya.nair@email.com", ("+1 (416) " + "555-0208"),
      Scan("s15", "Feb 17, 2026", Yellow, 38.7, 62.4, ["HPV unknown"]),
      [ Scan("s15", "Feb 17, 2026", Yellow, 38.7, 62.4, ["HPV unknown"]) ],
      [ Appointment("a8", "8", "Feb 26, 2026", "1:00 PM", 30, "Routine Checkup", ("First " + "visit — " + "follow up " + "on " + "MouthWatch " + "yellow " + "flag")) ],
      ("• First " + "time " + "patient — " + "referred " + "via " + "MouthWatch " + "app\n• " + "Yellow " + "flag on " + "first " + "scan — " + "low " + "concern " + "but worth " + "monitoring\n• " + "HPV " + "status " + "unknown — " + "recommend " + "testing\n• " + "No " + "tobacco " + "or " + "alcohol " + "use " + "reported\n• " + "Book " + "3-month " + "follow up"),
      [])
  }

  /** Daniel Park. */
  function Patient5(): Patient {
    Patient("5", "Daniel Park", 41, "d.park@email.com", ("+1 (416) " + "555-0205"),
      Scan("s9", "Feb 16, 2026", Green, 11.3, 94.2, []),
      [ Scan("s9", "Feb 16, 2026", Green, 11.3, 94.2, []),
        Scan("s10", "Feb 2, 2026", Green, 9.8, 92.0, []) ],
      [ Appointment("a5", "5", "Feb 27, 2026", "10:00 AM", 30, "Routine Cleaning", "") ],
      ("• " + "Consistently " + "low risk " + "across " + "all " + "scans\n• " + "Excellent " + "oral " + "hygiene — " + "no " + "concerns\n• " + "Non-smoker, " + "non-drinker\n• " + "Routine " + "cleaning " + "only\n• " + "Next " + "visit in " + "6 months"),
      [])
  }

  /** Michael Rodriguez. */
  function Patient3(): Patient {
    Patient("3", ("Michael " + "Rodriguez"), 28, "m.rodriguez@email.com", ("+1 (416) " + "555-0203"),
      Scan("s6", "Feb 15, 2026", Green, 14.2, 91.0, []),
      [ Scan("s6", "Feb 15, 2026", Green, 14.2, 91.0, []) ],
      [ Appointment("a3", "3", "Feb 26, 2026", "11:00 AM", 45, "Cleaning", "") ],
      ("• Healthy " + "patient — " + "low " + "risk\n• " + "Excellent " + "oral " + "hygiene\n• " + "No risk " + "factors " + "reported\n• " + "Routine " + "cleaning " + "only\n• " + "6-month " + "recall"),
      [])
  }

  /** Linda Osei. */
  function Patient6(): Patient {
    Patient("6", "Linda Osei", 67, "linda.osei@email.com", ("+1 (416) " + "555-0206"),
      Scan("s11", "Feb 14, 2026", Yellow, 44.8, 70.3, ["Age 65+", ("Occasional " + "tobacco " + "(historical)")]),
      [ Scan("s11", "Feb 14, 2026", Yellow, 44.8, 70.3, ["Age 65+"]),
        Scan("s12", "Jan 28, 2026", Yellow, 41.2, 67.0, ["Age 65+"]) ],
      [ Appointment("a6", "6", "Feb 27, 2026", "2:00 PM", 45, "Checkup", ("Persistent " + "moderate " + "risk — " + "age-related " + "monitoring")) ],
      ("• Age 67 " + "— " + "elevated " + "baseline " + "risk\n• " + "Former " + "smoker " + "(quit " + "2015)\n• " + "Two " + "consecutive " + "yellow " + "flags on " + "MouthWatch\n• " + "Scores " + "stable — " + "not " + "escalating\n• " + "Continue " + "3-month " + "monitoring " + "schedule\n• " + "Dry mouth " + "reported " + "— " + "recommend " + "saliva " + "substitute"),
      [ Annotation("ann8", Position(-0.1, -0.15, 0.4), Watch, "Dry tissue area", ("Xerostomia-related " + "— " + "recommend " + "hydration " + "+ saliva " + "substitute")),
        Annotation("ann9", Position(0.35, -0.05, 0.36), Info, "Old restoration", ("Crown " + "from 2018 " + "— still " + "intact")) ])
  }

  /** One seed record carries the given id and annotation ids, its newest
      history entry agrees with its last scan, and its appointments refer back
      to it. */
  predicate SeedRecord(p: Patient, id: string, annotationIds: seq<string>) {
    p.id == id && LastScanIsNewest(p) && AppointmentsOwned(p) && AnnotationIdsOf(p) == annotationIds
  }

  lemma Patient1Facts()
    ensures SeedRecord(Patient1(), "1", ["ann1", "ann2"])
  {
  }

  lemma Patient4Facts()
    ensures SeedRecord(Patient4(), "4", ["ann4", "ann5", "ann6"])
  {
  }

  lemma Patient7Facts()
    ensures SeedRecord(Patient7(), "7", ["ann10", "ann11"])
  {
  }

  lemma Patient2Facts()
    ensures SeedRecord(Patient2(), "2", ["ann3"])
  {
  }

  lemma Patient8Facts()
    ensures SeedRecord(Patient8(), "8", [])
  {
  }

  lemma Patient5Facts()
    ensures SeedRecord(Patient5(), "5", [])
  {
  }

  lemma Patient3Facts()
    ensures SeedRecord(Patient3(), "3", [])
  {
  }

  lemma Patient6Facts()
    ensures SeedRecord(Patient6(), "6", ["ann8", "ann9"])
  {
  }

  /** Eight records with the seed's ids, in the seed's order, have distinct ids. */
  lemma SeedIdsDistinct(ps: seq<Patient>)
    requires |ps| == 8
    requires ps[0].id == "1" && ps[1].id == "4" && ps[2].id == "7" && ps[3].id == "2"
    requires ps[4].id == "8" && ps[5].id == "5" && ps[6].id == "3" && ps[7].id == "6"
    ensures PatientIds(ps) == ["1", "4", "7", "2", "8", "5", "3", "6"]
    ensures Distinct(PatientIds(ps))
  {
    assert PatientIds(ps) == ["1", "4", "7", "2", "8", "5", "3", "6"];
  }

  /** Eight records carrying the seed's annotations, in the seed's order, list
      ten distinct annotation ids. */
  lemma SeedAnnotationIdsDistinct(ps: seq<Patient>)
    requires |ps| == 8
    requires AnnotationIdsOf(ps[0]) == ["ann1", "ann2"] && AnnotationIdsOf(ps[1]) == ["ann4", "ann5", "ann6"]
    requires AnnotationIdsOf(ps[2]) == ["ann10", "ann11"] && AnnotationIdsOf(ps[3]) == ["ann3"]
    requires AnnotationIdsOf(ps[4]) == [] && AnnotationIdsOf(ps[5]) == []
    requires AnnotationIdsOf(ps[6]) == [] && AnnotationIdsOf(ps[7]) == ["ann8", "ann9"]
    ensures AnnotationIds(ps)
         == ["ann1", "ann2", "ann4", "ann5", "ann6", "ann10", "ann11", "ann3", "ann8", "ann9"]
    ensures Distinct(AnnotationIds(ps))
  {
    assert AnnotationIds(ps[8..]) == [];
    assert AnnotationIds(ps[7..]) == ["ann8", "ann9"];
    assert AnnotationIds(ps[6..]) == ["ann8", "ann9"];
    assert AnnotationIds(ps[5..]) == ["ann8", "ann9"];
    assert AnnotationIds(ps[4..]) == ["ann8", "ann9"];
    assert AnnotationIds(ps[3..]) == ["ann3", "ann8", "ann9"];
    assert AnnotationIds(ps[2..]) == ["ann10", "ann11", "ann3", "ann8", "ann9"];
    assert AnnotationIds(ps[1..]) == ["ann4", "ann5", "ann6", "ann10", "ann11", "ann3", "ann8", "ann9"];
  }

  /** Eight records with the seed's ids and annotation ids, in the seed's order,
      form a well-formed roster whose annotation ids are distinct. */
  lemma RosterOfSeedRecords(ps: seq<Patient>)
    requires |ps| == 8
    requires SeedRecord(ps[0], "1", ["ann1", "ann2"]) && SeedRecord(ps[1], "4", ["ann4", "ann5", "ann6"])
    requires SeedRecord(ps[2], "7", ["ann10", "ann11"]) && SeedRecord(ps[3], "2", ["ann3"])
    requires SeedRecord(ps[4], "8", []) && SeedRecord(ps[5], "5", [])
    requires SeedRecord(ps[6], "3", []) && SeedRecord(ps[7], "6", ["ann8", "ann9"])
    ensures PatientIds(ps) == ["1", "4", "7", "2", "8", "5", "3", "6"]
    ensures WellFormedRoster(ps)
    ensures AnnotationIds(ps)
         == ["ann1", "ann2", "ann4", "ann5", "ann6", "ann10", "ann11", "ann3", "ann8", "ann9"]
    ensures Distinct(AnnotationIds(ps))
  {
    SeedIdsDistinct(ps);
    SeedAnnotationIdsDistinct(ps);
  }

  /** The seed satisfies the roster invariants: distinct patient ids, a newest
      history entry that agrees with the last scan, appointments that refer back
      to their owner, and annotation ids that are distinct across the roster. */
  lemma MockRosterWellFormed()
    ensures |MockPatients()| == 8
    ensures PatientIds(MockPatients()) == ["1", "4", "7", "2", "8", "5", "3", "6"]
    ensures WellFormedRoster(MockPatients())
    ensures AnnotationIds(MockPatients())
         == ["ann1", "ann2", "ann4", "ann5", "ann6", "ann10", "ann11", "ann3", "ann8", "ann9"]
    ensures Distinct(AnnotationIds(MockPatients()))
  {
    Patient1Facts(); Patient4Facts(); Patient7Facts(); Patient2Facts();
    Patient8Facts(); Patient5Facts(); Patient3Facts(); Patient6Facts();
    RosterOfSeedRecords(MockPatients());
  }

  /** The colour, label and background tint a table shows for one key. */
  datatype DisplayConfig = DisplayConfig(color: string, labelText: string, bg: string)

  /** `SEVERITY_CONFIG`, keyed by the severity spellings. */
  function SeverityConfigTable(): (m: map<string, DisplayConfig>)
    ensures m.Keys == SeverityNames
  {
    map[
      "info" := DisplayConfig("#2196F3", "Informational", "rgba(33,150,243,0.15)"),
      "watch" := DisplayConfig("#FFD600", "Watch", "rgba(255,214,0,0.15)"),
      "moderate" := DisplayConfig("#FF6D00", "Moderate", "rgba(255,109,0,0.15)"),
      "urgent" := DisplayConfig("#FF1744", "Urgent", "rgba(255,23,68,0.15)")
    ]
  }

  /** `RISK_CONFIG`, keyed by the risk-level spellings. */
  function RiskConfigTable(): (m: map<string, DisplayConfig>)
    ensures m.Keys == RiskLevelNames
  {
    map[
      "green" := DisplayConfig("#00E676", "Low Risk", "rgba(0,230,118,0.15)"),
      "yellow" := DisplayConfig("#FFD600", "Moderate Risk", "rgba(255,214,0,0.15)"),
      "red" := DisplayConfig("#FF1744", "High Risk", "rgba(255,23,68,0.15)")
    ]
  }

  /** `SEVERITY_CONFIG[s]`: defined for every severity, because the table covers
      every spelling. */
  function SeverityConfig(s: AnnotationSeverity): DisplayConfig {
    SeverityConfigTable()[SeverityName(s)]
  }

  /** `RISK_CONFIG[r]`: defined for every risk level. */
  function RiskConfig(r: RiskLevel): DisplayConfig {
    RiskConfigTable()[RiskLevelName(r)]
  }

  /** The severity table gives four different colours, so a pin's colour
      identifies its severity. */
  lemma SeverityColorsDistinct(a: AnnotationSeverity, b: AnnotationSeverity)
    ensures SeverityConfig(a).color == SeverityConfig(b).color ==> a == b
  {
    match a
    case Info =>
    case Watch =>
    case Moderate =>
    case Urgent =>
  }
}
