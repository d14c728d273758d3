/** The patient app's risk questionnaire: five questions answered one step at
    a time, the last of which takes several answers, where 'none' excludes the
    others. */
module Intake {
  import opened Common
  import opened Types

  /** A question: its key in the answers, the values its options submit, and
      whether several options may be chosen. */
  datatype Question = Question(id: string, optionValues: seq<string>, multiSelect: bool)

  /** A recorded answer: one value, or the list chosen so far. */
  datatype Answer = Single(value: string) | Multi(values: seq<string>)

  /** The questionnaire, in order. */
  function Questions(): (qs: seq<Question>)
    ensures |qs| == 5
    ensures forall i :: 0 <= i < 4 ==> !qs[i].multiSelect
    ensures qs[4].multiSelect && "none" in qs[4].optionValues
  {
    [ Question("tobacco", ["none", "occasional", "daily"], false),
      Question("alcohol", ["none", "occasional", "heavy"], false),
      Question("hpv", ["no", "yes", "unknown"], false),
      Question("prior_cancer", ["no", "yes"], false),
      Question("symptoms", ["pain", "bleeding", "numbness", "sore", "none"], true) ]
  }

  /** The list without any occurrence of `v`, other values kept in order. */
  function Remove(s: seq<string>, v: string): (r: seq<string>)
    ensures v !in r && |r| <= |s|
    ensures forall x :: x != v ==> multiset(r)[x] == multiset(s)[x]
  {
    if s == [] then []
    else
      assert s == [s[0]] + s[1..];
      (if s[0] == v then [] else [s[0]]) + Remove(s[1..], v)
  }

  /** A multi-select answer as the screen keeps it: no value twice, and 'none'
      only on its own. */
  predicate WellFormedMulti(s: seq<string>) {
    Distinct(s) && ("none" in s ==> s == ["none"])
  }

  /** Choosing `value` in a multi-select question: 'none' replaces everything;
      any other value first drops 'none', then is removed if present or
      appended last if absent. */
  function Toggle(current: seq<string>, value: string): (r: seq<string>)
    ensures value == "none" ==> r == ["none"]
    ensures value != "none" && value in current ==> r == Remove(Remove(current, "none"), value)
    ensures value != "none" && value !in current ==> r == Remove(current, "none") + [value]
  {
    if value == "none" then ["none"]
    else
      var filtered := Remove(current, "none");
      assert value in filtered <==> value in current by {
        assert multiset(filtered)[value] == multiset(current)[value];
        assert value in filtered <==> value in multiset(filtered);
        assert value in current <==> value in multiset(current);
      }
      if value in filtered then Remove(filtered, value) else filtered + [value]
  }

  /** Removing values keeps a list free of repeats. */
  lemma RemoveKeepsDistinct(s: seq<string>, v: string)
    requires Distinct(s)
    ensures Distinct(Remove(s, v))
  {
    var r := Remove(s, v);
    DistinctIffSingleOccurrences(s);
    forall x ensures multiset(r)[x] <= 1 {
      if x != v { assert multiset(r)[x] == multiset(s)[x]; }
      else { assert x !in r; }
    }
    DistinctIffSingleOccurrences(r);
  }

  /** Toggling keeps a multi-select answer well formed. */
  lemma ToggleKeepsWellFormed(current: seq<string>, value: string)
    requires WellFormedMulti(current)
    ensures WellFormedMulti(Toggle(current, value))
  {
    if value != "none" {
      var filtered := Remove(current, "none");
      RemoveKeepsDistinct(current, "none");
      if value in filtered {
        RemoveKeepsDistinct(filtered, value);
        var r := Remove(filtered, value);
        assert "none" !in r by {
          assert multiset(r)["none"] == multiset(filtered)["none"] == 0;
        }
      } else {
        var r := filtered + [value];
        forall i, j | 0 <= i < j < |r| ensures r[i] != r[j] {
          if j == |filtered| {
            assert r[i] == filtered[i];
          }
        }
        assert "none" !in r;
      }
    }
  }

  /** For a value other than 'none', toggling flips whether it is chosen,
      drops 'none' and leaves every other chosen value as it was. */
  lemma ToggleFlips(current: seq<string>, value: string)
    requires value != "none"
    ensures value in Toggle(current, value) <==> value !in current
    ensures "none" !in Toggle(current, value)
    ensures forall x :: x != value && x != "none" ==> (x in Toggle(current, value) <==> x in current)
  {
    var filtered := Remove(current, "none");
    assert value in filtered <==> value in current by {
      assert multiset(filtered)[value] == multiset(current)[value];
    }
    forall x | x != value && x != "none"
      ensures x in Toggle(current, value) <==> x in current
    {
      assert multiset(filtered)[x] == multiset(current)[x];
      if value in filtered {
        assert multiset(Remove(filtered, value))[x] == multiset(filtered)[x];
      }
    }
    if value in filtered {
      assert multiset(Remove(filtered, value))["none"] == multiset(filtered)["none"];
    }
  }

  /** Choosing the same non-'none' value twice gives back the same choices,
      apart from a 'none' that the first choice dropped. */
  lemma ToggleTwice(current: seq<string>, value: string)
    requires value != "none" && "none" !in current
    ensures forall x :: x in Toggle(Toggle(current, value), value) <==> x in current
  {
    ToggleFlips(current, value);
    ToggleFlips(Toggle(current, value), value);
  }

  /** The list a multi-select question shows as chosen: `currentAnswer || []`. */
  function MultiChoices(answer: Option<Answer>): seq<string> {
    if answer.Some? && answer.value.Multi? then answer.value.values else []
  }

  /** The answer map after choosing `value` in question `q`. */
  function SelectAnswer(answers: map<string, Answer>, q: Question, value: string): (r: map<string, Answer>)
    ensures r.Keys == answers.Keys + {q.id}
    ensures forall k :: k in answers && k != q.id ==> r[k] == answers[k]
    ensures !q.multiSelect ==> r[q.id] == Single(value)
    ensures q.multiSelect ==> r[q.id] == Multi(Toggle(MultiChoices(if q.id in answers then Some(answers[q.id]) else None), value))
  {
    var current := if q.id in answers then Some(answers[q.id]) else None;
    answers[q.id := if q.multiSelect then Multi(Toggle(MultiChoices(current), value)) else Single(value)]
  }

  /** The questionnaire screen's state. */
  class IntakeForm {
    var step: int
    var answers: map<string, Answer>

    /** The step stays within the questionnaire, answers are keyed by question
        ids, and every multi-select answer is well formed. */
    predicate Valid()
      reads this
    {
      && 0 <= step < |Questions()|
      && (forall k :: k in answers ==> exists i | 0 <= i < |Questions()| :: Questions()[i].id == k)
      && (forall k :: k in answers && answers[k].Multi? ==> WellFormedMulti(answers[k].values))
    }

    function Current(): Question
      reads this
      requires Valid()
    {
      Questions()[step]
    }

    function CurrentAnswer(): Option<Answer>
      reads this
      requires Valid()
    {
      if Current().id in answers then Some(answers[Current().id]) else None
    }

    constructor()
      ensures step == 0 && answers == map[] && Valid()
    {
      step := 0;
      answers := map[];
    }

    /** Whether option `value` of the current question is shown as chosen. */
    function IsSelected(value: string): (selected: bool)
      reads this
      requires Valid()
      ensures Current().multiSelect ==> (selected <==> value in MultiChoices(CurrentAnswer()))
      ensures !Current().multiSelect ==> (selected <==> CurrentAnswer() == Some(Single(value)))
    {
      var current := CurrentAnswer();
      if Current().multiSelect then value in MultiChoices(current)
      else current == Some(Single(value))
    }

    /** The Next button is enabled when a multi-select question has a choice or
        a single-select question has a truthy answer: any answer but the empty
        string (a list, even an empty one, is truthy). */
    function CanProceed(): (enabled: bool)
      reads this
      requires Valid()
      ensures Current().multiSelect ==> (enabled <==> |MultiChoices(CurrentAnswer())| > 0)
      ensures !Current().multiSelect ==>
                (enabled <==> CurrentAnswer().Some? && CurrentAnswer().value != Single(""))
    {
      var current := CurrentAnswer();
      if Current().multiSelect then |MultiChoices(current)| > 0
      else current.Some? && current.value != Single("")
    }

    /** Tapping an option of the current question. */
    method HandleSelect(value: string)
      requires Valid()
      modifies this
      ensures answers == SelectAnswer(old(answers), old(Current()), value)
      ensures step == old(step)
      ensures Valid()
    {
      var q := Current();
      if q.multiSelect {
        var current := CurrentAnswer();
        ToggleKeepsWellFormed(MultiChoices(current), value);
      }
      answers := SelectAnswer(answers, q, value);
      assert Questions()[step].id == q.id;
    }

    /** `handleNext`: advance while a question remains, otherwise hand the
        answers, unchanged, to the camera screen. */
    method HandleNext() returns (submitted: Option<map<string, Answer>>)
      requires Valid()
      modifies this
      ensures old(step) < |Questions()| - 1 ==> step == old(step) + 1 && submitted.None?
      ensures old(step) == |Questions()| - 1 ==> step == old(step) && submitted == Some(answers)
      ensures answers == old(answers) && Valid()
    {
      if step < |Questions()| - 1 {
        step := step + 1;
        submitted := None;
      } else {
        submitted := Some(answers);
      }
    }

    /** The Next button: does nothing while it is disabled. */
    method PressNext() returns (submitted: Option<map<string, Answer>>)
      requires Valid()
      modifies this
      ensures !old(CanProceed()) ==> step == old(step) && submitted.None?
      ensures old(CanProceed()) && old(step) < |Questions()| - 1 ==> step == old(step) + 1 && submitted.None?
      ensures old(CanProceed()) && old(step) == |Questions()| - 1 ==> step == old(step) && submitted == Some(answers)
      ensures answers == old(answers) && Valid()
    {
      if CanProceed() {
        submitted := HandleNext();
      } else {
        submitted := None;
      }
    }

    /** The back arrow: one step back, or leave the screen from the first step. */
    method Back() returns (leave: bool)
      requires Valid()
      modifies this
      ensures old(step) > 0 ==> step == old(step) - 1 && !leave
      ensures old(step) == 0 ==> step == 0 && leave
      ensures answers == old(answers) && Valid()
    {
      if step > 0 {
        step := step - 1;
        leave := false;
      } else {
        leave := true;
      }
    }

    /** The progress bar's fill, `(step + 1) / 5`. */
    function Progress(): (fraction: real)
      reads this
      requires Valid()
      ensures 0.0 < fraction <= 1.0
      ensures fraction * |Questions()| as real == (step + 1) as real
    {
      (step + 1) as real / |Questions()| as real
    }
  }
}
