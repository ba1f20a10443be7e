/**
 * The daily price frame the script downloads, reduced to what the core reads:
 * one bar per trading day, indexed by date, with a High and a Low column.
 * Dates are day numbers, so "14 days earlier" is integer subtraction.
 */
module Series {

  /** One row of the price frame. */
  datatype Bar = Bar(date: int, high: real, low: real)

  /** A price read from a column together with the date label of its row
      (a column's max with its `idxmax`, or its min with its `idxmin`). */
  datatype Extreme = Extreme(price: real, date: int)

  /** The frame's date index is strictly increasing, as the price source returns it. */
  predicate Ascending(s: seq<Bar>)
  {
    forall i, j :: 0 <= i < j < |s| ==> s[i].date < s[j].date
  }

  /** Every bar's Low is at most its High. */
  predicate WellFormed(s: seq<Bar>)
  {
    forall i :: 0 <= i < |s| ==> s[i].low <= s[i].high
  }

  /** The High column. */
  function Highs(s: seq<Bar>): (c: seq<real>)
    ensures |c| == |s|
    ensures forall i :: 0 <= i < |s| ==> c[i] == s[i].high
  {
    seq(|s|, i requires 0 <= i < |s| => s[i].high)
  }

  /** The Low column. */
  function Lows(s: seq<Bar>): (c: seq<real>)
    ensures |c| == |s|
    ensures forall i :: 0 <= i < |s| ==> c[i] == s[i].low
  {
    seq(|s|, i requires 0 <= i < |s| => s[i].low)
  }

  /** Position of the first maximum of a column from position `lo` on
      (`idxmax` on the rows from `lo`): nothing there is larger, and nothing
      before it is as large. */
  function FirstArgMax(xs: seq<real>, lo: nat): (i: nat)
    requires lo < |xs|
    ensures lo <= i < |xs|
    ensures forall j :: lo <= j < |xs| ==> xs[j] <= xs[i]
    ensures forall j :: lo <= j < i ==> xs[j] < xs[i]
    decreases |xs| - lo
  {
    if lo == |xs| - 1 then lo
    else
      var k := FirstArgMax(xs, lo + 1);
      if xs[k] <= xs[lo] then lo else k
  }

  /** Position of the first minimum of a column from position `lo` on
      (`idxmin` on the rows from `lo`): nothing there is smaller, and nothing
      before it is as small. */
  function FirstArgMin(xs: seq<real>, lo: nat): (i: nat)
    requires lo < |xs|
    ensures lo <= i < |xs|
    ensures forall j :: lo <= j < |xs| ==> xs[i] <= xs[j]
    ensures forall j :: lo <= j < i ==> xs[i] < xs[j]
    decreases |xs| - lo
  {
    if lo == |xs| - 1 then lo
    else
      var k := FirstArgMin(xs, lo + 1);
      if xs[lo] <= xs[k] then lo else k
  }
}
