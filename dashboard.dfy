/** The dentist dashboard's top-level state: the patient roster, a separately
    held copy of the selected patient, the clinical-notes draft, the centre-view
    mode and the severity new annotations get. */
module Dashboard {
  import opened Common
  import opened Types
  import MockData
  import Placement
  import Text

  /** One patient record with `annotation` appended to its annotations. */
  function Annotated(p: Patient, annotation: Annotation): (q: Patient)
    ensures q.annotations == p.annotations + [annotation]
    ensures q.(annotations := p.annotations) == p
  {
    p.(annotations := p.annotations + [annotation])
  }

  /** One patient record with its clinical notes replaced. */
  function Renoted(p: Patient, notes: string): (q: Patient)
    ensures q.clinicalNotes == notes
    ensures q.(clinicalNotes := p.clinicalNotes) == p
  {
    p.(clinicalNotes := notes)
  }

  /** The roster after `annotation` is appended to the annotations of every
      entry whose id is `id`; every other entry is kept, and so are the order
      and the length. */
  function WithAnnotation(ps: seq<Patient>, id: string, annotation: Annotation): (r: seq<Patient>)
    ensures |r| == |ps|
    ensures forall i :: 0 <= i < |ps| && ps[i].id == id ==>
      r[i] == Annotated(ps[i], annotation)
    ensures forall i :: 0 <= i < |ps| && ps[i].id != id ==> r[i] == ps[i]
  {
    if ps == [] then []
    else
      var head := if ps[0].id == id then Annotated(ps[0], annotation) else ps[0];
      [head] + WithAnnotation(ps[1..], id, annotation)
  }

  /** The roster after the clinical notes of every entry whose id is `id` are
      replaced by `notes`; everything else is kept. */
  function WithNotes(ps: seq<Patient>, id: string, notes: string): (r: seq<Patient>)
    ensures |r| == |ps|
    ensures forall i :: 0 <= i < |ps| && ps[i].id == id ==> r[i] == Renoted(ps[i], notes)
    ensures forall i :: 0 <= i < |ps| && ps[i].id != id ==> r[i] == ps[i]
  {
    if ps == [] then []
    else
      var head := if ps[0].id == id then Renoted(ps[0], notes) else ps[0];
      [head] + WithNotes(ps[1..], id, notes)
  }

  /** Adding an annotation touches no id, scan or appointment, so it keeps the
      roster invariants; existing annotations stay in place as a prefix. */
  lemma AnnotationUpdateKeepsRoster(ps: seq<Patient>, id: string, annotation: Annotation)
    ensures PatientIds(WithAnnotation(ps, id, annotation)) == PatientIds(ps)
    ensures WellFormedRoster(ps) ==> WellFormedRoster(WithAnnotation(ps, id, annotation))
    ensures forall i :: 0 <= i < |ps| ==>
      ps[i].annotations <= WithAnnotation(ps, id, annotation)[i].annotations
  {
    assert PatientIds(WithAnnotation(ps, id, annotation)) == PatientIds(ps);
  }

  /** Saving notes touches no id, scan, appointment or annotation, so it keeps
      the roster invariants. */
  lemma NotesUpdateKeepsRoster(ps: seq<Patient>, id: string, notes: string)
    ensures PatientIds(WithNotes(ps, id, notes)) == PatientIds(ps)
    ensures WellFormedRoster(ps) ==> WellFormedRoster(WithNotes(ps, id, notes))
    ensures forall i :: 0 <= i < |ps| ==> WithNotes(ps, id, notes)[i].annotations == ps[i].annotations
  {
    assert PatientIds(WithNotes(ps, id, notes)) == PatientIds(ps);
  }

  /** How many roster entries carry the id `id`. */
  function Occurrences(ps: seq<Patient>, id: string): nat {
    multiset(PatientIds(ps))[id]
  }

  /** Counting entries with a given id, one entry at a time. */
  lemma OccurrencesUnfold(ps: seq<Patient>, id: string)
    requires ps != []
    ensures Occurrences(ps, id) == (if ps[0].id == id then 1 else 0) + Occurrences(ps[1..], id)
  {
    assert PatientIds(ps) == [ps[0].id] + PatientIds(ps[1..]);
  }

  /** `n` copies of `x`. */
  function Copies(x: string, n: nat): (m: multiset<string>)
    ensures m[x] == n && forall y :: y != x ==> m[y] == 0
  {
    multiset{}[x := n]
  }

  /** The annotation ids of one record after the add handler has visited it. */
  lemma AnnotatedIds(p: Patient, id: string, annotation: Annotation)
    ensures multiset(AnnotationIdsOf(if p.id == id then Annotated(p, annotation) else p))
         == multiset(AnnotationIdsOf(p)) + Copies(annotation.id, if p.id == id then 1 else 0)
  {
    if p.id == id {
      assert AnnotationIdsOf(Annotated(p, annotation)) == AnnotationIdsOf(p) + [annotation.id];
    }
  }

  /** Adding an annotation adds its id to the roster-wide list of annotation ids
      once for every entry with the selected id, and changes nothing else in it. */
  lemma {:induction false} AnnotationIdsAfterAdd(ps: seq<Patient>, id: string, annotation: Annotation)
    ensures multiset(AnnotationIds(WithAnnotation(ps, id, annotation)))
         == multiset(AnnotationIds(ps)) + Copies(annotation.id, Occurrences(ps, id))
  {
    if ps == [] {
      assert multiset(PatientIds(ps)) == multiset{};
    } else {
      var head := if ps[0].id == id then Annotated(ps[0], annotation) else ps[0];
      var tail := WithAnnotation(ps[1..], id, annotation);
      var here := if ps[0].id == id then 1 else 0;
      AnnotationIdsAfterAdd(ps[1..], id, annotation);
      OccurrencesUnfold(ps, id);
      AnnotatedIds(ps[0], id, annotation);
      assert WithAnnotation(ps, id, annotation) == [head] + tail;
      assert ([head] + tail)[1..] == tail;
      CopiesAppend(AnnotationIdsOf(ps[0]), AnnotationIdsOf(head), AnnotationIds(ps[1..]), AnnotationIds(tail),
                   annotation.id, here, Occurrences(ps[1..], id));
    }
  }

  /** Two lists that each gained some copies of `x` gain them all together
      when concatenated. */
  lemma CopiesAppend(a: seq<string>, a': seq<string>, b: seq<string>, b': seq<string>, x: string, m: nat, n: nat)
    requires multiset(a') == multiset(a) + Copies(x, m)
    requires multiset(b') == multiset(b) + Copies(x, n)
    ensures multiset(a' + b') == multiset(a + b) + Copies(x, m + n)
  {
    assert Copies(x, m) + Copies(x, n) == Copies(x, m + n);
  }

  /** With distinct patient ids, an annotation whose id is new keeps the
      roster-wide annotation ids distinct. */
  lemma FreshAnnotationKeepsIdsDistinct(ps: seq<Patient>, id: string, annotation: Annotation)
    requires Distinct(PatientIds(ps)) && Distinct(AnnotationIds(ps))
    requires annotation.id !in AnnotationIds(ps)
    ensures Distinct(AnnotationIds(WithAnnotation(ps, id, annotation)))
  {
    AnnotationIdsAfterAdd(ps, id, annotation);
    DistinctIffSingleOccurrences(PatientIds(ps));
    DistinctIffSingleOccurrences(AnnotationIds(ps));
    DistinctIffSingleOccurrences(AnnotationIds(WithAnnotation(ps, id, annotation)));
  }

  /** Nothing checks the clock id against existing ids: when it repeats an
      annotation id already in the roster, adding it to a listed patient leaves
      two annotations with the same id. */
  lemma RepeatedClockIdIsAccepted(ps: seq<Patient>, id: string, annotation: Annotation)
    requires id in PatientIds(ps) && annotation.id in AnnotationIds(ps)
    ensures !Distinct(AnnotationIds(WithAnnotation(ps, id, annotation)))
  {
    AnnotationIdsAfterAdd(ps, id, annotation);
    DistinctIffSingleOccurrences(AnnotationIds(WithAnnotation(ps, id, annotation)));
    assert multiset(AnnotationIds(WithAnnotation(ps, id, annotation)))[annotation.id] >= 2;
  }

  /** With distinct ids, the only roster entry carrying the id of entry `k` is
      entry `k` itself. */
  lemma ListedRecordIsOnlyMatch(ps: seq<Patient>, k: int)
    requires Distinct(PatientIds(ps)) && 0 <= k < |ps|
    ensures forall i :: 0 <= i < |ps| && ps[i].id == ps[k].id ==> ps[i] == ps[k]
  {
    forall i | 0 <= i < |ps| && ps[i].id == ps[k].id ensures ps[i] == ps[k] {
      assert PatientIds(ps)[i] == PatientIds(ps)[k];
    }
  }

  class App {
    var patients: seq<Patient>
    var selected: Patient
    var centerView: CenterView
    var selectedSeverity: AnnotationSeverity
    var clinicalNotes: string

    /** The roster keeps its invariants under every handler. */
    predicate Valid()
      reads this
    {
      WellFormedRoster(patients)
    }

    /** The selected copy shows the same annotations as its roster entry. */
    predicate AnnotationsInSync()
      reads this
    {
      forall i :: 0 <= i < |patients| && patients[i].id == selected.id ==>
        patients[i].annotations == selected.annotations
    }

    /** The dashboard starts on a roster (the seed roster
        `MockData.MockPatients()`, which `MockData.MockRosterWellFormed` shows
        to be well formed) with its first patient selected, the model view,
        the 'watch' severity and that patient's notes in the draft. */
    constructor(roster: seq<Patient>)
      requires WellFormedRoster(roster) && roster != []
      ensures patients == roster && selected == roster[0] && clinicalNotes == roster[0].clinicalNotes
      ensures centerView == ModelView && selectedSeverity == Watch
      ensures Valid() && AnnotationsInSync()
    {
      ListedRecordIsOnlyMatch(roster, 0);
      patients := roster;
      selected := roster[0];
      centerView := ModelView;
      selectedSeverity := Watch;
      clinicalNotes := roster[0].clinicalNotes;
    }

    /** Selecting a patient shows that record, loads its notes into the draft
        and switches to the model view; the roster and the severity stay. */
    method SelectPatient(p: Patient)
      modifies this
      ensures selected == p && clinicalNotes == p.clinicalNotes && centerView == ModelView
      ensures patients == old(patients) && selectedSeverity == old(selectedSeverity)
      ensures Valid() == old(Valid())
      ensures Valid() && p in patients ==> AnnotationsInSync()
    {
      selected := p;
      clinicalNotes := p.clinicalNotes;
      centerView := ModelView;
      if Valid() && p in patients {
        var k :| 0 <= k < |patients| && patients[k] == p;
        ListedRecordIsOnlyMatch(patients, k);
      }
    }

    /** Adding an annotation appends it to every roster entry with the
        selected id and to the selected copy; nothing else changes. */
    method AddAnnotation(annotation: Annotation)
      modifies this
      ensures patients == WithAnnotation(old(patients), old(selected.id), annotation)
      ensures selected == Annotated(old(selected), annotation)
      ensures centerView == old(centerView) && selectedSeverity == old(selectedSeverity)
      ensures clinicalNotes == old(clinicalNotes)
      ensures old(Valid()) ==> Valid()
      ensures old(AnnotationsInSync()) ==> AnnotationsInSync()
    {
      AnnotationUpdateKeepsRoster(patients, selected.id, annotation);
      patients := WithAnnotation(patients, selected.id, annotation);
      selected := Annotated(selected, annotation);
    }

    /** Saving notes sets the draft and the notes of the roster entries with
        the selected id. The selected copy keeps its old notes until the
        patient is selected again. */
    method SaveNotes(notes: string)
      modifies this
      ensures clinicalNotes == notes
      ensures patients == WithNotes(old(patients), old(selected.id), notes)
      ensures selected == old(selected)
      ensures centerView == old(centerView) && selectedSeverity == old(selectedSeverity)
      ensures old(Valid()) ==> Valid()
      ensures old(AnnotationsInSync()) ==> AnnotationsInSync()
    {
      NotesUpdateKeepsRoster(patients, selected.id, notes);
      clinicalNotes := notes;
      patients := WithNotes(patients, selected.id, notes);
    }

    /** The severity picker changes the severity and nothing else. */
    method SetSeverity(severity: AnnotationSeverity)
      modifies this
      ensures selectedSeverity == severity
      ensures patients == old(patients) && selected == old(selected)
      ensures centerView == old(centerView) && clinicalNotes == old(clinicalNotes)
    {
      selectedSeverity := severity;
    }

    /** The view switch changes the view and nothing else. */
    method SetCenterView(view: CenterView)
      modifies this
      ensures centerView == view
      ensures patients == old(patients) && selected == old(selected)
      ensures selectedSeverity == old(selectedSeverity) && clinicalNotes == old(clinicalNotes)
    {
      centerView := view;
    }

    /** A click on the model: placement with the severity in force, then, when
        an annotation results, the add handler. */
    method ClickModel(point: Position, labelAnswer: Option<string>, noteAnswer: Option<string>, clockId: string)
      returns (placed: Option<Annotation>)
      modifies this
      ensures placed == Placement.Placed(point, old(selectedSeverity), labelAnswer, noteAnswer, clockId)
      ensures placed.Some? ==> patients == WithAnnotation(old(patients), old(selected.id), placed.value)
      ensures placed.Some? ==> selected == Annotated(old(selected), placed.value)
      ensures placed.None? ==> patients == old(patients) && selected == old(selected)
      ensures selectedSeverity == old(selectedSeverity) && centerView == old(centerView)
      ensures clinicalNotes == old(clinicalNotes)
      ensures old(Valid()) ==> Valid()
      ensures old(AnnotationsInSync()) ==> AnnotationsInSync()
    {
      var notePrompted;
      placed, notePrompted := Placement.HandleClick(point, selectedSeverity, labelAnswer, noteAnswer, clockId);
      if placed.Some? {
        AddAnnotation(placed.value);
      } else {
        assert patients == old(patients) && selected == old(selected);
      }
    }
  }
}
