/** The patient app's 3D mouth-model screen: the annotations it is handed are
    turned into the records the viewer page draws, each coloured by its
    severity, and the header names the patient. */
module ModelViewer {
  import opened Common
  import opened Types
  import MockData

  /** An annotation as it arrives in the route parameters; the severity is the
      raw string, which may be anything. */
  datatype RawAnnotation = RawAnnotation(position: Position, labelText: string, note: string, severity: string)

  /** What the viewer page receives for one annotation. */
  datatype Pin = Pin(position: Position, color: string, labelText: string, note: string, severity: string)

  /** The route parameters; a field that is `None` was not given. */
  datatype Params = Params(annotations: Option<seq<RawAnnotation>>, patientName: Option<string>)

  /** `SEVERITY_COLORS`, keyed by the severity spellings. */
  function SeverityColors(): (m: map<string, string>)
    ensures m.Keys == SeverityNames
  {
    map["info" := "#2196F3", "watch" := "#FFD600", "moderate" := "#FF6D00", "urgent" := "#FF1744"]
  }

  const Unknown: string := "#ffffff"

  /** The colour for a raw severity: its table entry, white when it has none. */
  function ColorFor(severity: string): (c: string)
    ensures severity in SeverityNames ==> c == SeverityColors()[severity]
    ensures severity !in SeverityNames ==> c == Unknown
  {
    if severity in SeverityColors() then SeverityColors()[severity] else Unknown
  }

  /** The table is the dashboard's: every severity gets the colour the
      dashboard's severity table gives it. */
  lemma ColorsAgreeWithDashboard(s: AnnotationSeverity)
    ensures ColorFor(SeverityName(s)) == MockData.SeverityConfig(s).color
  {
  }

  /** No known severity is drawn white, so a white pin always means an
      unknown severity. */
  lemma WhiteMeansUnknown(severity: string)
    ensures ColorFor(severity) == Unknown <==> severity !in SeverityNames
  {
    if severity in SeverityNames {
      assert severity == "info" || severity == "watch" || severity == "moderate" || severity == "urgent";
    }
  }

  /** One pin per annotation, in order, carrying the annotation's position,
      label, note and raw severity, and the severity's colour. */
  function ToPins(annotations: seq<RawAnnotation>): (pins: seq<Pin>)
    ensures |pins| == |annotations|
    ensures forall i :: 0 <= i < |annotations| ==>
      var a := annotations[i];
      pins[i] == Pin(a.position, ColorFor(a.severity), a.labelText, a.note, a.severity)
  {
    seq(|annotations|, i requires 0 <= i < |annotations| =>
      var a := annotations[i];
      Pin(a.position, ColorFor(a.severity), a.labelText, a.note, a.severity))
  }

  /** The annotation a pin was made from; with `ToPins` it loses nothing. */
  function FromPin(p: Pin): RawAnnotation {
    RawAnnotation(p.position, p.labelText, p.note, p.severity)
  }

  /** Reading the pins back gives the annotations, in order. */
  lemma PinsRoundTrip(annotations: seq<RawAnnotation>)
    ensures |ToPins(annotations)| == |annotations|
    ensures forall i :: 0 <= i < |annotations| ==> FromPin(ToPins(annotations)[i]) == annotations[i]
  {
  }

  /** A dashboard annotation, as it would be passed here: its severity is one
      the table knows, so its pin gets that severity's dashboard colour. */
  lemma DashboardAnnotationColour(a: Annotation)
    ensures var raw := RawAnnotation(a.position, a.labelText, a.note, SeverityName(a.severity));
            ToPins([raw])[0].color == MockData.SeverityConfig(a.severity).color
  {
    ColorsAgreeWithDashboard(a.severity);
  }

  /** The screen's inputs after defaulting: the annotations (none when not
      given) and the patient's name ("Patient" when not given). */
  function WithDefaults(params: Option<Params>): (r: (seq<RawAnnotation>, string))
    ensures params.None? ==> r == ([], "Patient")
    ensures params.Some? ==> r.0 == params.value.annotations.GetOr([])
    ensures params.Some? ==> r.1 == params.value.patientName.GetOr("Patient")
  {
    match params
    case None => ([], "Patient")
    case Some(p) => (p.annotations.GetOr([]), p.patientName.GetOr("Patient"))
  }

  /** The header: the name followed by " Mouth Model". */
  function Header(patientName: string): (h: string)
    ensures |h| == |patientName| + 12
    ensures h[..|patientName|] == patientName && h[|patientName|..] == " Mouth Model"
  {
    patientName + " Mouth Model"
  }

  /** What the screen hands the viewer and shows in its header. */
  function Screen(params: Option<Params>): (seq<Pin>, string) {
    var (annotations, name) := WithDefaults(params);
    (ToPins(annotations), Header(name))
  }

  /** Opened without parameters, the screen draws no pins and is headed
      "Patient Mouth Model". */
  lemma NoParamsShowsEmptyModel()
    ensures Screen(None) == ([], "Patient Mouth Model")
  {
    assert ToPins([]) == [];
    assert "Patient" + " Mouth Model" == "Patient Mouth Model";
  }
}
