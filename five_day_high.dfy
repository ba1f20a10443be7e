/**
 * Step one of the page: the highest High among the last five bars of the
 * frame and the date of the first bar that reaches it.
 */
module FiveDayHigh {

  import opened Wrappers
  import opened Series

  /** How many trailing bars the high is taken over (`df.tail(5)`). */
  const RecentBars: nat := 5

  /** Index of the first of the last `min(5, |s|)` bars (`df.tail(5)`). */
  function TailStart(s: seq<Bar>): (k: nat)
    ensures k <= |s|
    ensures |s| <= RecentBars ==> k == 0
    ensures |s| > RecentBars ==> |s| - k == RecentBars
  {
    if |s| <= RecentBars then 0 else |s| - RecentBars
  }

  /** Index of the bar `idxmax` picks among the last `min(5, |s|)` bars. */
  function HighIndex(s: seq<Bar>): (i: nat)
    requires |s| > 0
    ensures TailStart(s) <= i < |s|
    ensures forall j :: TailStart(s) <= j < |s| ==> s[j].high <= s[i].high
    ensures forall j :: TailStart(s) <= j < i ==> s[j].high < s[i].high
  {
    FirstArgMax(Highs(s), TailStart(s))
  }

  /**
   * `recent_high` with `high_date`: None for an empty frame; otherwise the
   * High and date of a bar of the tail that no tail bar exceeds and that no
   * earlier tail bar reaches.
   */
  function RecentHigh(s: seq<Bar>): (r: Option<Extreme>)
    ensures r.None? <==> |s| == 0
    ensures r.Some? ==>
      exists i :: TailStart(s) <= i < |s| && s[i].high == r.value.price && s[i].date == r.value.date
                  && forall j :: TailStart(s) <= j < i ==> s[j].high < s[i].high
    ensures r.Some? ==> forall j :: TailStart(s) <= j < |s| ==> s[j].high <= r.value.price
  {
    if |s| == 0 then None
    else
      var i := HighIndex(s);
      Some(Extreme(s[i].high, s[i].date))
  }

  /** With an ascending date index, the first tail bar reaching the maximum
      is the one with the earliest date among those that reach it. */
  lemma HighDateIsEarliest(s: seq<Bar>, j: nat)
    requires Ascending(s)
    requires TailStart(s) <= j < |s|
    requires RecentHigh(s).Some? && s[j].high == RecentHigh(s).value.price
    ensures RecentHigh(s).value.date <= s[j].date
  {
    var i := HighIndex(s);
    if j < i {
      assert false;
    }
  }

  /** Any tail bar dated before the high date lies strictly below the high. */
  lemma EarlierTailBarsAreLower(s: seq<Bar>, j: nat)
    requires Ascending(s)
    requires TailStart(s) <= j < |s|
    requires RecentHigh(s).Some? && s[j].date < RecentHigh(s).value.date
    ensures s[j].high < RecentHigh(s).value.price
  {
    var i := HighIndex(s);
    assert s[i].date == RecentHigh(s).value.date;
    assert j < i;
  }

  /** The high comes from a bar of the series itself. */
  lemma HighBarInSeries(s: seq<Bar>)
    requires |s| > 0
    ensures RecentHigh(s).Some?
    ensures exists i :: 0 <= i < |s| && s[i].high == RecentHigh(s).value.price && s[i].date == RecentHigh(s).value.date
  {
    var i := HighIndex(s);
    assert s[i].high == RecentHigh(s).value.price && s[i].date == RecentHigh(s).value.date;
  }

  /** A short frame uses all of its bars. */
  lemma ShortSeriesUsesAllBars(s: seq<Bar>)
    requires 0 < |s| <= RecentBars
    ensures forall j :: 0 <= j < |s| ==> s[j].high <= RecentHigh(s).value.price
  {
  }
}
