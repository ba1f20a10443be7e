/**
 * The page's flow from a downloaded frame to what it shows: the quote
 * (high and two-week low), whether the calculator is offered, and what
 * pressing its button produces. The module-level `recent_high` and
 * `recent_low`, which start as None and are overwritten at most once,
 * are the Option values returned here.
 */
module Page {

  import opened Wrappers
  import opened Series
  import opened FiveDayHigh
  import opened TwoWeekLow
  import opened HalfRetrace

  /** What the price section shows: an error for an empty frame, or the
      high and the window low (None shows the "no low data" message). */
  datatype Lookup = NoPriceData | Quote(high: Extreme, low: Option<Extreme>)

  /** What pressing the calculator button shows. */
  datatype Outcome = NotOffered | Warning | Figures(result: Retrace)

  /** The price section for a downloaded frame. */
  function Analyze(s: seq<Bar>): (q: Lookup)
    ensures q.NoPriceData? <==> |s| == 0
    ensures q.Quote? ==> RecentHigh(s) == Some(q.high)
    ensures q.Quote? ==> q.low == RecentLow(s, q.high.date)
  {
    match RecentHigh(s)
    case None => NoPriceData
    case Some(h) => Quote(h, RecentLow(s, h.date))
  }

  /** `recent_high` after the price section ran. */
  function RecentHighOf(q: Lookup): (h: Option<Extreme>)
    ensures q.NoPriceData? ==> h.None?
    ensures q.Quote? ==> h == Some(q.high)
  {
    if q.Quote? then Some(q.high) else None
  }

  /** `recent_low` after the price section ran. */
  function RecentLowOf(q: Lookup): (l: Option<Extreme>)
    ensures q.NoPriceData? ==> l.None?
    ensures q.Quote? ==> l == q.low
  {
    if q.Quote? then q.low else None
  }

  /** After the price section ran on a non-empty frame, both sentinels hold
      the step results: `recent_high` the five-day high, `recent_low` the
      low of the window at its date. */
  lemma SentinelsAfterQuote(s: seq<Bar>)
    requires |s| > 0
    ensures RecentHighOf(Analyze(s)) == RecentHigh(s)
    ensures RecentLowOf(Analyze(s)) == RecentLow(s, RecentHigh(s).value.date)
    ensures RecentLowOf(Analyze(s)).Some?
  {
    LowAlwaysFound(s);
  }

  /** The calculator is offered only when both sentinels were overwritten;
      its two inputs then start at `recent_high` and `recent_low`. */
  function Defaults(q: Lookup): (d: Option<(real, real)>)
    ensures d.Some? <==> RecentHighOf(q).Some? && RecentLowOf(q).Some?
    ensures d.Some? ==> d.value == (RecentHighOf(q).value.price, RecentLowOf(q).value.price)
  {
    match q
    case Quote(h, Some(l)) => Some((h.price, l.price))
    case _ => None
  }

  /** Pressing the button with the two entered values. */
  function Press(q: Lookup, highInput: real, lowInput: real): (o: Outcome)
    ensures o.NotOffered? <==> Defaults(q).None?
    ensures o.Warning? <==> Defaults(q).Some? && !(highInput > lowInput && lowInput > 0.0)
    ensures o.Figures? <==> Defaults(q).Some? && highInput > lowInput && lowInput > 0.0
    ensures o.Figures? ==> Some(o.result) == Calculate(highInput, lowInput)
  {
    if Defaults(q).None? then NotOffered
    else
      match Calculate(highInput, lowInput)
      case None => Warning
      case Some(r) => Figures(r)
  }

  /** An empty frame yields no high and no low, shows the error, and the
      calculator is not offered. */
  lemma EmptySeries(highInput: real, lowInput: real)
    ensures Analyze([]) == NoPriceData
    ensures RecentHighOf(Analyze([])).None? && RecentLowOf(Analyze([])).None?
    ensures Press(Analyze([]), highInput, lowInput) == NotOffered
  {
  }

  /** The "no low data" branch cannot be taken: the bar that sets the high
      is dated on the high date, so it lies in its own window. */
  lemma LowAlwaysFound(s: seq<Bar>)
    requires |s| > 0
    ensures Analyze(s).Quote? && Analyze(s).low.Some?
  {
    HighBarInSeries(s);
    var h := RecentHigh(s).value;
    var i :| 0 <= i < |s| && s[i].high == h.price && s[i].date == h.date;
    assert s[i] in s && InWindow(s[i], h.date);
  }

  /** For any non-empty frame the calculator is offered, with inputs that
      start at the high and at a low dated within fourteen days before it. */
  lemma CalculatorOffered(s: seq<Bar>)
    requires |s| > 0
    ensures Defaults(Analyze(s)).Some?
    ensures Analyze(s).high.date - WindowDays <= Analyze(s).low.value.date <= Analyze(s).high.date
  {
    LowAlwaysFound(s);
  }

  /** When every bar's Low is at most its High, the two-week low is at most
      the five-day high, so the defaults fail the guard only on a flat rise
      or a zero low. */
  lemma LowNotAboveHigh(s: seq<Bar>)
    requires |s| > 0 && WellFormed(s)
    ensures Analyze(s).Quote? && Analyze(s).low.Some?
    ensures Analyze(s).low.value.price <= Analyze(s).high.price
  {
    LowAlwaysFound(s);
    HighBarInSeries(s);
    var h := RecentHigh(s).value;
    var i :| 0 <= i < |s| && s[i].high == h.price && s[i].date == h.date;
    assert s[i] in s && InWindow(s[i], h.date);
  }

  /** Pressing the button with the defaults unchanged shows the figures
      exactly when the high exceeds the low and the low is positive. */
  lemma PressWithDefaults(s: seq<Bar>)
    requires |s| > 0
    ensures Analyze(s).Quote? && Analyze(s).low.Some?
    ensures
      var q := Analyze(s);
      Press(q, q.high.price, q.low.value.price).Figures? <==> q.high.price > q.low.value.price > 0.0
  {
    LowAlwaysFound(s);
  }

  /** A worked frame. The oldest bar (day -20) is outside the last five and
      its High of 200 is ignored; days 14 and 15 tie at the high and the
      first, day 14, is taken; day 0, exactly fourteen days before, is in the
      window and holds the low, while day -1 and day 15 are outside it. */
  function SampleFrame(): (s: seq<Bar>)
    ensures |s| == 6
  {
    [Bar(-20, 200.0, 60.0), Bar(-1, 99.0, 80.0), Bar(0, 98.0, 85.0),
     Bar(13, 97.0, 90.0), Bar(14, 100.0, 95.0), Bar(15, 100.0, 70.0)]
  }

  lemma SampleHigh()
    ensures RecentHigh(SampleFrame()) == Some(Extreme(100.0, 14))
  {
    var s := SampleFrame();
    var highs := Highs(s);
    assert highs == [200.0, 99.0, 98.0, 97.0, 100.0, 100.0];
    var k := FirstArgMax(highs, 1);
    assert k == 4 by {
      assert k == 1 || k == 2 || k == 3 || k == 4 || k == 5;
      assert highs[4] <= highs[k];
    }
  }

  lemma SampleWindow()
    ensures Window(SampleFrame(), 14) == [Bar(0, 98.0, 85.0), Bar(13, 97.0, 90.0), Bar(14, 100.0, 95.0)]
  {
    var s := SampleFrame();
    var w0 := Window(s[6..], 14);
    assert w0 == [];
    var w1 := Window(s[5..], 14);
    assert s[5..][1..] == s[6..];
    assert w1 == w0;
    var w2 := Window(s[4..], 14);
    assert s[4..][1..] == s[5..];
    assert w2 == [s[4]] + w1;
    var w3 := Window(s[3..], 14);
    assert s[3..][1..] == s[4..];
    assert w3 == [s[3]] + w2;
    var w4 := Window(s[2..], 14);
    assert s[2..][1..] == s[3..];
    assert w4 == [s[2]] + w3;
    var w5 := Window(s[1..], 14);
    assert s[1..][1..] == s[2..];
    assert w5 == w4;
    assert Window(s, 14) == w5;
  }

  /** Whatever the frame, a window of these three bars gives the low of
      day 0: the first row holds the smallest Low. */
  lemma LowOfSampleWindow(s: seq<Bar>)
    requires Window(s, 14) == [Bar(0, 98.0, 85.0), Bar(13, 97.0, 90.0), Bar(14, 100.0, 95.0)]
    ensures RecentLow(s, 14) == Some(Extreme(85.0, 0))
  {
    var w := Window(s, 14);
    var lows := Lows(w);
    assert lows == [85.0, 90.0, 95.0];
    var i := FirstArgMin(lows, 0);
    assert i == 0 by {
      assert i == 0 || i == 1 || i == 2;
      assert lows[i] <= lows[0];
    }
  }

  lemma SampleLow()
    ensures RecentLow(SampleFrame(), 14) == Some(Extreme(85.0, 0))
  {
    SampleWindow();
    LowOfSampleWindow(SampleFrame());
  }

  /** The page's reading of the sample frame. */
  lemma WorkedFrame()
    ensures Analyze(SampleFrame()) == Quote(Extreme(100.0, 14), Some(Extreme(85.0, 0)))
  {
    SampleHigh();
    SampleLow();
  }
}
