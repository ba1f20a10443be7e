/**
 * Step two of the page: the lowest Low among the bars dated from fourteen
 * days before the high date up to the high date itself, and the date of the
 * first bar that reaches it.
 */
module TwoWeekLow {

  import opened Wrappers
  import opened Series

  /** Length of the look-back window in calendar days (`timedelta(days=14)`). */
  const WindowDays: int := 14

  /** The boolean mask `start_low <= date <= end_low`, inclusive at both ends. */
  predicate InWindow(b: Bar, highDate: int)
  {
    highDate - WindowDays <= b.date <= highDate
  }

  /** The rows of the frame the mask keeps, in frame order (`df[mask]`):
      exactly the bars whose date is in `[highDate - 14, highDate]`. */
  function Window(s: seq<Bar>, highDate: int): (w: seq<Bar>)
    ensures |w| <= |s|
    ensures forall b {:trigger b in w} :: b in w <==> b in s && InWindow(b, highDate)
  {
    if |s| == 0 then []
    else
      assert s == [s[0]] + s[1..];
      (if InWindow(s[0], highDate) then [s[0]] else []) + Window(s[1..], highDate)
  }

  /** Filtering keeps the order of the frame, so an ascending index stays ascending. */
  lemma {:induction false} WindowAscending(s: seq<Bar>, highDate: int)
    requires Ascending(s)
    ensures Ascending(Window(s, highDate))
  {
    if |s| > 0 {
      WindowAscending(s[1..], highDate);
      var w := Window(s, highDate);
      var rest := Window(s[1..], highDate);
      if InWindow(s[0], highDate) {
        assert w == [s[0]] + rest;
        forall k | 0 <= k < |rest|
          ensures s[0].date < rest[k].date
        {
          assert rest[k] in rest;
          assert rest[k] in s[1..];
        }
      } else {
        assert w == rest;
      }
    }
  }

  /** Row `i` of the window holds the Low and date of `e`, and every earlier
      row has a strictly higher Low: `idxmin`'s choice in frame order. */
  predicate FirstLowAt(w: seq<Bar>, i: int, e: Extreme)
  {
    0 <= i < |w| && w[i].low == e.price && w[i].date == e.date
    && forall j :: 0 <= j < i ==> e.price < w[j].low
  }

  /**
   * `recent_low` with `low_date`: None exactly when no bar falls in the
   * window; otherwise the Low and date of a window bar that no window bar
   * undercuts and that no earlier window row (in frame order) reaches,
   * dated within `[highDate - 14, highDate]`.
   */
  function RecentLow(s: seq<Bar>, highDate: int): (r: Option<Extreme>)
    ensures r.None? <==> forall b :: b in s ==> !InWindow(b, highDate)
    ensures r.Some? ==> highDate - WindowDays <= r.value.date <= highDate
    ensures r.Some? ==>
      exists b :: b in s && InWindow(b, highDate) && b.low == r.value.price && b.date == r.value.date
    ensures r.Some? ==> forall b :: b in s && InWindow(b, highDate) ==> r.value.price <= b.low
    ensures r.Some? ==> exists i :: FirstLowAt(Window(s, highDate), i, r.value)
  {
    var w := Window(s, highDate);
    if |w| == 0 then
      assert forall b :: b in s ==> !InWindow(b, highDate) by {
        forall b | b in s ensures !InWindow(b, highDate) {
          assert b in w <==> b in s && InWindow(b, highDate);
        }
      }
      None
    else
      var i := FirstArgMin(Lows(w), 0);
      assert w[i] in w;
      assert forall j :: 0 <= j < i ==> w[i].low < w[j].low by {
        forall j | 0 <= j < i ensures w[i].low < w[j].low {
          assert Lows(w)[j] == w[j].low;
        }
      }
      assert FirstLowAt(w, i, Extreme(w[i].low, w[i].date));
      assert forall b :: b in w ==> w[i].low <= b.low by {
        forall b | b in w ensures w[i].low <= b.low {
          var k :| 0 <= k < |w| && w[k] == b;
          assert Lows(w)[k] == b.low;
        }
      }
      Some(Extreme(w[i].low, w[i].date))
  }

  /** With an ascending date index, `low_date` is the earliest date among
      the window bars whose Low equals `recent_low`. */
  lemma LowDateIsEarliest(s: seq<Bar>, highDate: int, b: Bar)
    requires Ascending(s)
    requires b in s && InWindow(b, highDate)
    requires RecentLow(s, highDate).Some? && b.low == RecentLow(s, highDate).value.price
    ensures RecentLow(s, highDate).value.date <= b.date
  {
    WindowAscending(s, highDate);
    var w := Window(s, highDate);
    var i := FirstArgMin(Lows(w), 0);
    assert RecentLow(s, highDate).value == Extreme(w[i].low, w[i].date);
    assert b in w;
    var k :| 0 <= k < |w| && w[k] == b;
    assert Lows(w)[k] == b.low;
    assert i <= k;
  }
}
