/** The patient app's scan history: a newest-first list of saved scans, to
    which a scan saved on the results screen is prepended, and the trend
    banner that compares the two newest scores. */
module Progress {
  import opened Common

  /** A history entry; `color` is a band name ("green", "yellow", "red") as
      the screening service spells it. */
  datatype ScanRecord = ScanRecord(id: string, date: string, color: string, labelText: string,
                                   score: real, lesion: string)

  datatype Trend = Increasing | Decreasing | Stable

  /** The three scans the screen starts with, newest first. */
  function InitialHistory(): (h: seq<ScanRecord>)
    ensures |h| == 3
  {
    [ ScanRecord("1", "Feb 20, 2026", "red", "High Risk", 67.6, "Bottom left cheek"),
      ScanRecord("2", "Feb 13, 2026", "yellow", "Moderate Risk", 45.2, "Bottom left cheek"),
      ScanRecord("3", "Feb 6, 2026", "green", "Low Risk", 22.1, "Bottom left cheek") ]
  }

  /** The banner's trend: stable below two entries, otherwise the direction
      from the second-newest score to the newest. */
  function TrendOf(history: seq<ScanRecord>): (t: Trend)
    ensures |history| < 2 ==> t == Stable
    ensures |history| >= 2 ==>
              && (t == Increasing <==> history[0].score > history[1].score)
              && (t == Decreasing <==> history[0].score < history[1].score)
              && (t == Stable <==> history[0].score == history[1].score)
  {
    if |history| >= 2 then
      if history[0].score > history[1].score then Increasing
      else if history[0].score < history[1].score then Decreasing
      else Stable
    else Stable
  }

  /** Only the two newest entries matter: older entries can be anything. */
  lemma TrendIgnoresOlderEntries(history: seq<ScanRecord>, older: seq<ScanRecord>)
    requires |history| >= 2
    ensures TrendOf(history + older) == TrendOf(history[..2])
  {
    assert (history + older)[0] == history[..2][0];
    assert (history + older)[1] == history[..2][1];
  }

  /** After a scan is prepended to a non-empty history, the trend compares
      the new score with the previous newest score. */
  lemma TrendAfterPrepend(scan: ScanRecord, history: seq<ScanRecord>)
    requires history != []
    ensures TrendOf([scan] + history) == TrendOf([scan, history[0]])
  {
    TrendIgnoresOlderEntries([scan, history[0]], history[1..]);
    assert [scan, history[0]] + history[1..] == [scan] + history;
  }

  /** The initial history has three entries and shows an increasing trend. */
  lemma InitialTrendIncreasing()
    ensures |InitialHistory()| == 3
    ensures TrendOf(InitialHistory()) == Increasing
  {
  }

  /** The history screen's state. */
  class ProgressScreen {
    var history: seq<ScanRecord>

    constructor()
      ensures history == InitialHistory()
    {
      history := InitialHistory();
    }

    /** The effect run when the screen receives route parameters: a new scan,
        when there is one, goes in front; the previous history is kept whole
        behind it. */
    method ReceiveParams(newScan: Option<ScanRecord>)
      modifies this
      ensures newScan.Some? ==> history == [newScan.value] + old(history)
      ensures newScan.Some? ==> |history| == |old(history)| + 1 && history[1..] == old(history)
      ensures newScan.None? ==> history == old(history)
    {
      if newScan.Some? {
        history := [newScan.value] + history;
      }
    }
  }
}
