/** Placing an annotation by clicking the mouth model: the operator picks a
    point, answers a label prompt and a note prompt, and at most one annotation
    is handed on. The two prompt answers are inputs (`None` is a cancelled
    prompt); the clock reading that becomes the id is an input too. */
module Placement {
  import opened Common
  import opened Types
  import opened Text

  /** What a click places: nothing when the label answer is cancelled, empty
      or only whitespace; otherwise one annotation at the picked point, with
      the severity in force, the label as entered (untrimmed), the note (empty
      when cancelled) and the clock reading as its id. Nothing checks that id
      against the ids already in use. */
  function Placed(point: Position, severity: AnnotationSeverity,
                  labelAnswer: Option<string>, noteAnswer: Option<string>, clockId: string)
    : (r: Option<Annotation>)
    ensures r.None? <==> IsBlank(labelAnswer.GetOr(""))
    ensures r.Some? ==> && r.value.id == clockId && r.value.position == point
                        && r.value.severity == severity && r.value.labelText == labelAnswer.value
                        && r.value.note == noteAnswer.GetOr("")
  {
    var labelText := labelAnswer.GetOr("");
    if IsBlank(labelText) then None
    else Some(Annotation(clockId, point, severity, labelText, noteAnswer.GetOr("")))
  }

  /** The click handler. `notePrompted` reports whether the note prompt was
      shown: only after a label that places something, so `noteAnswer` is
      only read then. */
  method HandleClick(point: Position, selectedSeverity: AnnotationSeverity,
                     labelAnswer: Option<string>, noteAnswer: Option<string>, clockId: string)
    returns (placed: Option<Annotation>, notePrompted: bool)
    ensures placed == Placed(point, selectedSeverity, labelAnswer, noteAnswer, clockId)
    ensures notePrompted <==> placed.Some?
  {
    var labelText := labelAnswer.GetOr("");
    TrimmedEmptyIffBlank(labelText);
    if Trim(labelText) == [] {
      return None, false;
    }
    var note := noteAnswer.GetOr("");
    placed := Some(Annotation(clockId, point, selectedSeverity, labelText, note));
    notePrompted := true;
  }

  /** A label with any character other than whitespace places an
      annotation, whatever surrounds that character. */
  lemma VisibleLabelPlaces(point: Position, severity: AnnotationSeverity,
                           labelText: string, noteAnswer: Option<string>, clockId: string, k: int)
    requires 0 <= k < |labelText| && !IsJsWhitespace(labelText[k])
    ensures Placed(point, severity, Some(labelText), noteAnswer, clockId).Some?
  {
  }
}
