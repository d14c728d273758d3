/** The patient app's results screen: the display configuration chosen by the
    service's colour, the scan record it saves to the history, the rounded
    score it shows and the message it shares. */
module Results {
  import opened Types
  import opened Text
  import RiskModel
  import Progress

  /** The fields of the service's result that the screen reads; `color` is the
      band name and `combinedScore` the blended score as received. */
  datatype ServiceResult = ServiceResult(
    color: string, labelText: string, combinedScore: real, message: string, disclaimer: string)

  /** The card styling for one band. */
  datatype RiskStyle = RiskStyle(color: string, bg: string, border: string, icon: string, labelText: string)

  /** The screen's own `RISK_CONFIG`, keyed by band name. */
  function RiskStyleTable(): (m: map<string, RiskStyle>)
    ensures m.Keys == RiskLevelNames
  {
    map[
      "green" := RiskStyle("#00e676", "rgba(0,230,118,0.1)", "rgba(0,230,118,0.3)", "check-circle", "Low Risk"),
      "yellow" := RiskStyle("#ffea00", "rgba(255,234,0,0.1)", "rgba(255,234,0,0.3)", "alert-circle", "Moderate Risk"),
      "red" := RiskStyle("#ff1744", "rgba(255,23,68,0.1)", "rgba(255,23,68,0.3)", "alert-triangle", "High Risk")
    ]
  }

  /** The styling for a result's colour: its own entry when the colour is a
      band name, the yellow entry otherwise. */
  function ConfigFor(color: string): (c: RiskStyle)
    ensures color in RiskLevelNames ==> c == RiskStyleTable()[color]
    ensures color !in RiskLevelNames ==> c == RiskStyleTable()["yellow"]
  {
    if color in RiskStyleTable() then RiskStyleTable()[color] else RiskStyleTable()["yellow"]
  }

  /** For every score the service can produce, the card's label is the label
      the service sent with that score's band. */
  lemma CardLabelMatchesService(score: real)
    ensures var out := RiskModel.GetRiskColor(score);
            ConfigFor(RiskLevelName(out.color)).labelText == out.labelText
  {
  }

  /** The record "Save to My History" passes to the history screen: the
      result's colour, label and unrounded score, the fixed lesion text, and
      the clock and date readings given as `id` and `date`. */
  function SaveScan(result: ServiceResult, id: string, date: string): (scan: Progress.ScanRecord)
    ensures scan.color == result.color && scan.labelText == result.labelText
    ensures scan.score == result.combinedScore
    ensures scan.lesion == "New scan" && scan.id == id && scan.date == date
  {
    Progress.ScanRecord(id, date, result.color, result.labelText, result.combinedScore, "New scan")
  }

  /** Saving a result and receiving it on the history screen puts it in front;
      the banner then compares the saved, unrounded score with the previous
      newest one. */
  lemma SavedScanDrivesTrend(result: ServiceResult, id: string, date: string, history: seq<Progress.ScanRecord>)
    requires history != []
    ensures var h := [SaveScan(result, id, date)] + history;
            && h[0].score == result.combinedScore
            && (Progress.TrendOf(h) == Progress.Increasing <==> result.combinedScore > history[0].score)
            && (Progress.TrendOf(h) == Progress.Decreasing <==> result.combinedScore < history[0].score)
  {
  }

  /** `Math.round`: the nearest integer, halves rounded up. */
  function JsRound(x: real): (n: int)
    ensures n as real - 0.5 <= x < n as real + 0.5
  {
    (x + 0.5).Floor
  }

  /** The score shown on the card is the rounded score; the saved score is
      the exact one, so the two differ by at most one half. */
  lemma ShownScoreNearSaved(result: ServiceResult, id: string, date: string)
    ensures var shown := JsRound(result.combinedScore) as real;
            var saved := SaveScan(result, id, date).score;
            -0.5 < shown - saved <= 0.5
  {
  }

  const ShareTitle: string := "MouthWatch " + "Screening " + "Result\n\n" + "Risk Level: "
  const ScoreIntro: string := "\nScore: "
  const ScoreOutro: string := "/100\n\n"
  const Gap: string := "\n\n"

  /** The shared text; `scoreText` is JavaScript's rendering of the score,
      which is not modelled. */
  function ShareMessage(result: ServiceResult, scoreText: string): (m: string)
    ensures |m| == |ShareTitle| + |result.labelText| + |ScoreIntro| + |scoreText| + |ScoreOutro|
                   + |result.message| + |Gap| + |result.disclaimer|
  {
    ShareTitle + result.labelText + ScoreIntro + scoreText + ScoreOutro + result.message + Gap + result.disclaimer
  }

  /** The shared text starts with the title and holds the label, the score,
      the message and the disclaimer, in that order and without overlap, and
      ends with the disclaimer. */
  lemma ShareMessageOrder(result: ServiceResult, scoreText: string)
    ensures var m := ShareMessage(result, scoreText);
            var p1 := |ShareTitle|;
            var p2 := p1 + |result.labelText| + |ScoreIntro|;
            var p3 := p2 + |scoreText| + |ScoreOutro|;
            var p4 := p3 + |result.message| + |Gap|;
            && m[..p1] == ShareTitle
            && OccursAt(m, result.labelText, p1)
            && OccursAt(m, scoreText, p2)
            && OccursAt(m, result.message, p3)
            && OccursAt(m, result.disclaimer, p4)
            && p1 + |result.labelText| < p2 && p2 + |scoreText| < p3 && p3 + |result.message| < p4
            && p4 + |result.disclaimer| == |m|
  {
    var m := ShareMessage(result, scoreText);
    var a := ShareTitle + result.labelText;
    var b := a + ScoreIntro + scoreText;
    var c := b + ScoreOutro + result.message;
    assert m == c + Gap + result.disclaimer;
    assert m[..|ShareTitle|] == ShareTitle;
    assert m[|ShareTitle|..|a|] == result.labelText;
    assert m[|a| + |ScoreIntro|..|b|] == scoreText;
    assert m[|b| + |ScoreOutro|..|c|] == result.message;
    assert m[|c| + |Gap|..] == result.disclaimer;
  }
}
