/**
 * Step three of the page: the "rule 1" calculator, which estimates a
 * pull-back price as the high minus half of the rise from the low.
 */
module HalfRetrace {

  import opened Wrappers

  /** The four figures the calculator shows: rise rate, rise width,
      half of the width (floored) and the half-retrace price (floored). */
  datatype Retrace = Retrace(riseRate: real, width: real, half: int, price: int)

  /**
   * The calculator behind the button: figures only when
   * `high > low and low > 0`, otherwise nothing (the page shows a warning).
   * `half` and `price` use floor semantics (`math.floor`).
   */
  function Calculate(high: real, low: real): (r: Option<Retrace>)
    ensures r.Some? <==> high > low && low > 0.0
    ensures r.Some? ==> r.value.riseRate * low == high && r.value.riseRate > 1.0
    ensures r.Some? ==> r.value.width > 0.0 && low + r.value.width == high
    ensures r.Some? ==>
      0 <= r.value.half && r.value.half as real <= r.value.width / 2.0 < r.value.half as real + 1.0
    ensures r.Some? ==>
      r.value.price as real <= high - r.value.half as real < r.value.price as real + 1.0
  {
    if high > low && low > 0.0 then
      var riseRate := high / low;
      assert (riseRate - 1.0) * low == high - low;
      ProductSign(riseRate - 1.0, low);
      var width := high - low;
      var half := (width / 2.0).Floor;
      var price := (high - half as real).Floor;
      Some(Retrace(riseRate, width, half, price))
    else
      None
  }

  /** A factor of a positive product with a positive other factor is positive. */
  lemma ProductSign(x: real, y: real)
    requires y > 0.0
    ensures x * y > 0.0 ==> x > 0.0
  {
    if x <= 0.0 {
      assert x * y <= 0.0 * y;
    }
  }

  /** The retrace price lies between the floored midpoint of the rise and the high. */
  lemma PriceBetweenMidpointAndHigh(high: real, low: real)
    requires high > low > 0.0
    ensures Calculate(high, low).Some?
    ensures ((high + low) / 2.0).Floor <= Calculate(high, low).value.price
    ensures Calculate(high, low).value.price as real <= high
  {
    var r := Calculate(high, low).value;
    assert high - r.half as real >= (high + low) / 2.0;
  }

  /** Worked examples: an odd width, an even width, and the two boundary
      inputs the guard rejects. */
  lemma Examples()
    ensures Calculate(110.0, 101.0) == Some(Retrace(110.0 / 101.0, 9.0, 4, 106))
    ensures Calculate(103.0, 100.0) == Some(Retrace(1.03, 3.0, 1, 102))
    ensures Calculate(100.0, 100.0) == None
    ensures Calculate(100.0, 0.0) == None
  {
  }
}
