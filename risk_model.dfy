/** The screening service's scoring rules: the intake answers become a 0-100
    risk-factor score, the classifier's top class and confidence become a
    0-100 ML risk score, the two are blended 70/30 and the blend is put into
    one of three colour bands. Scores are exact reals; the classifier itself
    is an input (the list of labels with their predicted probabilities). */
module RiskModel {
  import opened Common
  import opened Types
  import opened Text

  /** Points per `<question>_<answer>` pair; a pair missing here is worth 0. */
  function RiskWeights(): (m: map<string, nat>)
    ensures forall k :: k in m ==> m[k] <= 30
  {
    map[
      "tobacco_none" := 0, "tobacco_occasional" := 15, "tobacco_daily" := 30,
      "alcohol_none" := 0, "alcohol_occasional" := 10, "alcohol_heavy" := 25,
      "hpv_yes" := 25, "hpv_no" := 0, "hpv_unknown" := 5,
      "prior_cancer_yes" := 30, "prior_cancer_no" := 0,
      "symptoms_pain" := 10, "symptoms_bleeding" := 15, "symptoms_numbness" := 10,
      "symptoms_sore" := 15, "symptoms_none" := 0
    ]
  }

  /** The divisor the score is scaled by, written as the sum of the worst answers. */
  const MaxPossible: nat := 125

  /** A value of the decoded risk-factor object: a list, whose items count one
      by one, or anything else, which counts through its Python `str` form. */
  datatype FactorValue = Scalar(text: string) | List(items: seq<string>)

  /** `RISK_WEIGHTS.get(f"{key}_{value}", 0)`. */
  function Weight(key: string, value: string): (w: nat)
    ensures key + "_" + value !in RiskWeights() ==> w == 0
    ensures key + "_" + value in RiskWeights() ==> w == RiskWeights()[key + "_" + value]
  {
    var pair := key + "_" + value;
    if pair in RiskWeights() then RiskWeights()[pair] else 0
  }

  /** The points of a list answer's items, first to last. */
  function ItemsTotal(key: string, items: seq<string>): nat {
    if items == [] then 0
    else ItemsTotal(key, items[..|items| - 1]) + Weight(key, items[|items| - 1])
  }

  /** The points one entry of the object contributes. */
  function EntryTotal(key: string, value: FactorValue): nat {
    match value
    case Scalar(v) => Weight(key, v)
    case List(items) => ItemsTotal(key, items)
  }

  /** The points of all entries, in the object's order. */
  function FactorsTotal(entries: seq<(string, FactorValue)>): nat {
    if entries == [] then 0
    else
      var last := entries[|entries| - 1];
      FactorsTotal(entries[..|entries| - 1]) + EntryTotal(last.0, last.1)
  }

  /** `min((total / 125) * 100, 100)`. */
  function ScoreOfTotal(total: nat): (score: real)
    ensures 0.0 <= score <= 100.0
    ensures total <= MaxPossible ==> score * MaxPossible as real == total as real * 100.0
    ensures total >= MaxPossible ==> score == 100.0
  {
    var scaled := total as real / MaxPossible as real * 100.0;
    if scaled < 100.0 then scaled else 100.0
  }

  /** The risk-factor score of a decoded object's entries. */
  function RiskFactorScore(entries: seq<(string, FactorValue)>): (score: real)
    ensures 0.0 <= score <= 100.0
  {
    ScoreOfTotal(FactorsTotal(entries))
  }

  /** `calculate_risk_factor_score`: one pass over the entries, and over the
      items of each list entry, accumulating the points. */
  method CalculateRiskFactorScore(entries: seq<(string, FactorValue)>) returns (score: real)
    ensures score == RiskFactorScore(entries)
    ensures 0.0 <= score <= 100.0
  {
    var total: nat := 0;
    var i := 0;
    while i < |entries|
      invariant 0 <= i <= |entries|
      invariant total == FactorsTotal(entries[..i])
    {
      var (key, value) := entries[i];
      match value {
        case List(items) =>
          var j := 0;
          var sub: nat := 0;
          while j < |items|
            invariant 0 <= j <= |items|
            invariant sub == ItemsTotal(key, items[..j])
          {
            sub := sub + Weight(key, items[j]);
            assert items[..j + 1][..j] == items[..j];
            j := j + 1;
          }
          assert items[..j] == items;
          total := total + sub;
        case Scalar(v) =>
          total := total + Weight(key, v);
      }
      assert entries[..i + 1][..i] == entries[..i];
      i := i + 1;
    }
    assert entries[..i] == entries;
    score := ScoreOfTotal(total);
  }

  /** A list answer counts as the sum of its parts. */
  lemma {:induction false} ItemsTotalAppend(key: string, a: seq<string>, b: seq<string>)
    ensures ItemsTotal(key, a + b) == ItemsTotal(key, a) + ItemsTotal(key, b)
    decreases |b|
  {
    if b != [] {
      var b' := b[..|b| - 1];
      ItemsTotalAppend(key, a, b');
      var ab := a + b;
      assert ab[..|ab| - 1] == a + b';
      assert ItemsTotal(key, ab) == ItemsTotal(key, a + b') + Weight(key, b[|b| - 1]);
      assert ItemsTotal(key, b) == ItemsTotal(key, b') + Weight(key, b[|b| - 1]);
    } else {
      assert a + b == a;
    }
  }

  /** A one-item list counts like the item given on its own. */
  lemma SingletonListIsScalar(key: string, v: string)
    ensures EntryTotal(key, List([v])) == EntryTotal(key, Scalar(v))
  {
    assert [v][..0] == [];
    assert ItemsTotal(key, [v]) == ItemsTotal(key, []) + Weight(key, v);
  }

  /** The total of two groups of entries is the sum of their totals. */
  lemma {:induction false} FactorsTotalAppend(a: seq<(string, FactorValue)>, b: seq<(string, FactorValue)>)
    ensures FactorsTotal(a + b) == FactorsTotal(a) + FactorsTotal(b)
    decreases |b|
  {
    if b != [] {
      var b' := b[..|b| - 1];
      FactorsTotalAppend(a, b');
      var ab := a + b;
      assert ab[..|ab| - 1] == a + b';
      assert ab[|ab| - 1] == b[|b| - 1];
    } else {
      assert a + b == a;
    }
  }

  /** The score does not depend on the order of the entries. */
  lemma EntryOrderIrrelevant(a: seq<(string, FactorValue)>, b: seq<(string, FactorValue)>)
    ensures RiskFactorScore(a + b) == RiskFactorScore(b + a)
  {
    FactorsTotalAppend(a, b);
    FactorsTotalAppend(b, a);
  }

  /** An entry whose pair is not in the table adds nothing. */
  lemma UnknownPairAddsNothing(entries: seq<(string, FactorValue)>, key: string, value: string)
    requires key + "_" + value !in RiskWeights()
    ensures RiskFactorScore(entries + [(key, Scalar(value))]) == RiskFactorScore(entries)
  {
    assert (entries + [(key, Scalar(value))])[..|entries|] == entries;
  }

  /** The worst answers the intake form can give: daily tobacco, heavy
      alcohol, HPV positive, prior cancer and the four symptoms. */
  function WorstCaseAnswers(): seq<(string, FactorValue)> {
    [ ("tobacco", Scalar("daily")), ("alcohol", Scalar("heavy")), ("hpv", Scalar("yes")),
      ("prior_cancer", Scalar("yes")), ("symptoms", List(["pain", "bleeding", "numbness", "sore"])) ]
  }

  /** The worst answers total 160 points, more than the 125 the score is
      scaled by, so the clamp at 100 is reached. */
  lemma WorstCaseIsClamped()
    ensures FactorsTotal(WorstCaseAnswers()) == 160 > MaxPossible
    ensures RiskFactorScore(WorstCaseAnswers()) == 100.0
  {
    var w := WorstCaseAnswers();
    assert Weight("tobacco", "daily") == 30 by { assert "tobacco" + "_" + "daily" == "tobacco_daily"; }
    assert Weight("alcohol", "heavy") == 25 by { assert "alcohol" + "_" + "heavy" == "alcohol_heavy"; }
    assert Weight("hpv", "yes") == 25 by { assert "hpv" + "_" + "yes" == "hpv_yes"; }
    assert Weight("prior_cancer", "yes") == 30 by { assert "prior_cancer" + "_" + "yes" == "prior_cancer_yes"; }
    SymptomsTotal();
    assert w[..4][..3][..2][..1][..0] == [];
    assert w[..4][..3][..2] == w[..2];
    assert w[..4][..3] == w[..3];
    assert w[..2][..1] == w[..1];
    assert FactorsTotal(w[..1]) == 30;
    assert FactorsTotal(w[..2]) == 55;
    assert FactorsTotal(w[..3]) == 80;
    assert FactorsTotal(w[..4]) == 110;
  }

  /** The four symptoms together are worth 50 points. */
  lemma SymptomsTotal()
    ensures ItemsTotal("symptoms", ["pain", "bleeding", "numbness", "sore"]) == 50
  {
    var items := ["pain", "bleeding", "numbness", "sore"];
    assert Weight("symptoms", "pain") == 10 by { assert "symptoms" + "_" + "pain" == "symptoms_pain"; }
    assert Weight("symptoms", "bleeding") == 15 by { assert "symptoms" + "_" + "bleeding" == "symptoms_bleeding"; }
    assert Weight("symptoms", "numbness") == 10 by { assert "symptoms" + "_" + "numbness" == "symptoms_numbness"; }
    assert Weight("symptoms", "sore") == 15 by { assert "symptoms" + "_" + "sore" == "symptoms_sore"; }
    assert items[..3] == ["pain", "bleeding", "numbness"];
    assert items[..3][..2] == ["pain", "bleeding"];
    assert items[..3][..2][..1] == ["pain"];
    assert items[..3][..2][..1][..0] == [];
    assert ItemsTotal("symptoms", items[..3][..2][..1]) == 10;
    assert ItemsTotal("symptoms", items[..3][..2]) == 25;
    assert ItemsTotal("symptoms", items[..3]) == 35;
  }

  /** The text a band shows. */
  datatype RiskOutput = RiskOutput(color: RiskLevel, labelText: string, message: string, urgency: string)

  /** `get_risk_color`: below 35 green, below 65 yellow, otherwise red; a
      boundary score goes to the higher band. */
  function GetRiskColor(combinedScore: real): (r: RiskOutput)
    ensures r.color == Green <==> combinedScore < 35.0
    ensures r.color == Yellow <==> 35.0 <= combinedScore < 65.0
    ensures r.color == Red <==> 65.0 <= combinedScore
  {
    if combinedScore < 35.0 then
      RiskOutput(Green, "Low Risk",
        "No immediate " + "concern " + "detected. " + "Continue " + "monitoring " + "and " + "maintain " + "regular " + "dental " + "visits.",
        "Routine " + "checkup " + "recommended")
    else if combinedScore < 65.0 then
      RiskOutput(Yellow, "Moderate Risk",
        "Some " + "indicators " + "detected. " + "We " + "recommend " + "booking a " + "dental " + "appointment " + "within " + "the next " + "2-4 weeks.",
        "Non-urgent " + "dental " + "visit " + "recommended")
    else
      RiskOutput(Red, "High Risk",
        "High risk " + "indicators " + "detected. " + "Please " + "seek " + "dental " + "attention " + "as soon " + "as " + "possible.",
        "Urgent " + "dental " + "visit " + "recommended")
  }

  /** The band's rank, green lowest. */
  function Rank(r: RiskLevel): nat {
    match r
    case Green => 0
    case Yellow => 1
    case Red => 2
  }

  /** A higher score never falls into a lower band. */
  lemma BandsAreMonotone(s: real, t: real)
    requires s <= t
    ensures Rank(GetRiskColor(s).color) <= Rank(GetRiskColor(t).color)
  {
  }

  /** `class_risk_map`, in its insertion order. */
  const ClassRiskMap: seq<(string, real)> := [("cancer", 100.0), ("non-cancer", 20.0)]

  /** The risk value of the first key of the map contained in `lowered`. */
  function FirstContainedRisk(lowered: string, table: seq<(string, real)>): (r: Option<real>)
    ensures r.None? <==> forall i :: 0 <= i < |table| ==> !Contains(lowered, table[i].0)
    ensures r.Some? ==>
      exists i :: && 0 <= i < |table| && Contains(lowered, table[i].0) && r.value == table[i].1
                  && forall j :: 0 <= j < i ==> !Contains(lowered, table[j].0)
  {
    if table == [] then None
    else if Contains(lowered, table[0].0) then Some(table[0].1)
    else
      var r := FirstContainedRisk(lowered, table[1..]);
      assert forall i :: 1 <= i < |table| ==> table[1..][i - 1] == table[i];
      r
  }

  /** The ML risk score for the top class and its confidence: the risk of the
      first map key its lower-cased name contains, times the confidence, or
      50 times the confidence when it contains none. */
  function MlRisk(topClass: string, confidence: real): real {
    match FirstContainedRisk(AsciiLower(topClass), ClassRiskMap)
    case Some(risk) => risk * confidence
    case None => 50.0 * confidence
  }

  /** The `for`/`else` loop over the map, with its `break` at the first key
      found. */
  method MlRiskScore(topClass: string, confidence: real) returns (score: real)
    ensures score == MlRisk(topClass, confidence)
  {
    var lowered := AsciiLower(topClass);
    var i := 0;
    while i < |ClassRiskMap|
      invariant 0 <= i <= |ClassRiskMap|
      invariant FirstContainedRisk(lowered, ClassRiskMap) == FirstContainedRisk(lowered, ClassRiskMap[i..])
    {
      var (className, riskValue) := ClassRiskMap[i];
      if Contains(lowered, className) {
        return riskValue * confidence;
      }
      assert ClassRiskMap[i..][1..] == ClassRiskMap[i + 1..];
      i := i + 1;
    }
    score := 50.0 * confidence;
  }

  /** "non-cancer" contains "cancer" (from its fifth character on). */
  lemma CancerInNonCancer()
    ensures Contains("non-cancer", "cancer")
  {
    assert OccursAt("non-cancer", "cancer", 4);
  }

  /** A class whose lower-cased name contains "cancer" scores 100 times its
      confidence. */
  lemma CancerScoresFull(topClass: string, confidence: real)
    requires Contains(AsciiLower(topClass), "cancer")
    ensures MlRisk(topClass, confidence) == 100.0 * confidence
  {
  }

  /** Because "cancer" is checked first, a "non-cancer" class also scores 100
      times its confidence: the map's value 20 is never used. */
  lemma NonCancerAlsoScoresFull(topClass: string, confidence: real)
    requires Contains(AsciiLower(topClass), "non-cancer")
    ensures MlRisk(topClass, confidence) == 100.0 * confidence
  {
    CancerInNonCancer();
    ContainsTransitive(AsciiLower(topClass), "non-cancer", "cancer");
  }

  /** Any other class takes the fallback, 50 times its confidence. */
  lemma OtherClassesFallBack(topClass: string, confidence: real)
    requires !Contains(AsciiLower(topClass), "cancer")
    ensures MlRisk(topClass, confidence) == 50.0 * confidence
  {
    if Contains(AsciiLower(topClass), "non-cancer") {
      CancerInNonCancer();
      ContainsTransitive(AsciiLower(topClass), "non-cancer", "cancer");
    }
  }

  /** With a confidence that is a probability, the ML score lies in [0, 100]. */
  lemma MlRiskBounds(topClass: string, confidence: real)
    requires 0.0 <= confidence <= 1.0
    ensures 0.0 <= MlRisk(topClass, confidence) <= 100.0
  {
    if Contains(AsciiLower(topClass), "cancer") {
      CancerScoresFull(topClass, confidence);
    } else {
      OtherClassesFallBack(topClass, confidence);
    }
  }

  /** The blend: 70% ML score, 30% risk-factor score. */
  function Combined(mlRiskScore: real, riskFactorScore: real): (c: real)
    ensures 0.0 <= mlRiskScore <= 100.0 && 0.0 <= riskFactorScore <= 100.0 ==> 0.0 <= c <= 100.0
    ensures mlRiskScore <= riskFactorScore ==> mlRiskScore <= c <= riskFactorScore
    ensures riskFactorScore <= mlRiskScore ==> riskFactorScore <= c <= mlRiskScore
  {
    mlRiskScore * 0.7 + riskFactorScore * 0.3
  }

  /** `max(pred_dict, key=pred_dict.get)`: the index of the first label with
      the highest probability. */
  function FirstMaxIndex(preds: seq<(string, real)>): (k: nat)
    requires preds != []
    ensures k < |preds|
    ensures forall j :: 0 <= j < |preds| ==> preds[j].1 <= preds[k].1
    ensures forall j :: 0 <= j < k ==> preds[j].1 < preds[k].1
  {
    if |preds| == 1 then 0
    else
      var k := FirstMaxIndex(preds[..|preds| - 1]);
      assert forall j :: 0 <= j < |preds| - 1 ==> preds[..|preds| - 1][j] == preds[j];
      if preds[|preds| - 1].1 > preds[k].1 then |preds| - 1 else k
  }

  /** The scan `max` performs: keep the first best seen so far. */
  method TopClass(preds: seq<(string, real)>) returns (k: nat)
    requires preds != []
    ensures k == FirstMaxIndex(preds)
  {
    k := 0;
    var i := 1;
    assert preds[..1] == [preds[0]];
    while i < |preds|
      invariant 1 <= i <= |preds|
      invariant k == FirstMaxIndex(preds[..i])
    {
      assert preds[..i + 1][..i] == preds[..i];
      if preds[i].1 > preds[k].1 {
        k := i;
      }
      i := i + 1;
    }
    assert preds[..i] == preds;
  }

  /** What the service received in the `risk_factors` form field. */
  datatype RiskFactorsField =
    | Absent
    | Malformed                                       // not valid JSON
    | NotAnObject                                     // valid JSON without `.items()`
    | Object(entries: seq<(string, FactorValue)>)

  /** A request: whether an `image` file was sent, what the classifier predicts
      for it (label and probability, in label-index order) and the form field. */
  datatype Request = Request(hasImage: bool, predictions: seq<(string, real)>, riskFactors: RiskFactorsField)

  /** The error responses: 400 without an image, 500 for anything raised. */
  datatype AnalyzeError = NoImage | Internal

  /** The assessment, before `round(..., 1)`. */
  datatype Assessment = Assessment(
    output: RiskOutput,
    combinedScore: real,
    mlConfidence: real,        // times 100
    mlPrediction: string,
    mlRiskScore: real,
    riskFactorScore: real,
    allPredictions: seq<(string, real)>)   // probabilities times 100

  /** The risk-factor score a form field yields, or `None` when the field
      makes the service fail. */
  function FieldScore(field: RiskFactorsField): Option<real> {
    match field
    case Absent => Some(0.0)
    case Malformed => Some(0.0)
    case NotAnObject => None
    case Object(entries) => Some(RiskFactorScore(entries))
  }

  /** The probabilities as percentages, labels kept. */
  function AsPercentages(preds: seq<(string, real)>): (r: seq<(string, real)>)
    ensures |r| == |preds|
    ensures forall i :: 0 <= i < |preds| ==> r[i] == (preds[i].0, preds[i].1 * 100.0)
  {
    seq(|preds|, i requires 0 <= i < |preds| => (preds[i].0, preds[i].1 * 100.0))
  }

  /** `analyze`. */
  method Analyze(req: Request) returns (res: Result<Assessment, AnalyzeError>)
    ensures !req.hasImage <==> res == Err(NoImage)
    ensures res == Err(Internal) <==>
              req.hasImage && (req.predictions == [] || req.riskFactors.NotAnObject?)
    ensures res.Ok? ==>
      var preds := req.predictions;
      var top := preds[FirstMaxIndex(preds)];
      var ml := MlRisk(top.0, top.1);
      var rf := FieldScore(req.riskFactors).value;
      && res.value.mlPrediction == top.0
      && res.value.mlConfidence == top.1 * 100.0
      && res.value.mlRiskScore == ml
      && res.value.riskFactorScore == rf
      && res.value.combinedScore == Combined(ml, rf)
      && res.value.output == GetRiskColor(Combined(ml, rf))
      && res.value.allPredictions == AsPercentages(preds)
  {
    if !req.hasImage {
      return Err(NoImage);
    }
    if req.predictions == [] {
      return Err(Internal);
    }
    var k := TopClass(req.predictions);
    var (topClass, confidence) := req.predictions[k];
    var ml := MlRiskScore(topClass, confidence);
    var rf := 0.0;
    match req.riskFactors {
      case Absent =>
      case Malformed =>
      case NotAnObject =>
        return Err(Internal);
      case Object(entries) =>
        rf := CalculateRiskFactorScore(entries);
    }
    var combined := Combined(ml, rf);
    res := Ok(Assessment(GetRiskColor(combined), combined, confidence * 100.0, topClass, ml, rf,
                         AsPercentages(req.predictions)));
  }

  /** With probabilities as predictions, every assessment's blended score
      lies in [0, 100]. */
  lemma AssessmentScoreBounds(req: Request, a: Assessment)
    requires forall i :: 0 <= i < |req.predictions| ==> 0.0 <= req.predictions[i].1 <= 1.0
    requires req.predictions != [] && FieldScore(req.riskFactors).Some?
    requires var top := req.predictions[FirstMaxIndex(req.predictions)];
             a.combinedScore == Combined(MlRisk(top.0, top.1), FieldScore(req.riskFactors).value)
    ensures 0.0 <= a.combinedScore <= 100.0
  {
    var top := req.predictions[FirstMaxIndex(req.predictions)];
    MlRiskBounds(top.0, top.1);
  }
}
