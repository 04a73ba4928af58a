/**
 * The weighted overlay run by the "Run Analysis" button.
 *
 * Each of the three priority layers (distance to forest, opportunity cost,
 * carbon sequestration rate) is clipped to the country and unit-scaled with
 * the country's bounds; distance and cost are inverted (1 - x) because a
 * low raw value is a high priority. Each layer is multiplied by its weight,
 * masked pixels inside the country are unmasked to 0, and the three are
 * summed. The sum is masked to the available area and unit-scaled again by
 * the minimum and maximum found there.
 *
 * The image helpers below (ClipReal, ScaleImage, Invert, Times,
 * UnmaskWithin, Sum3, MaskTo) are platform primitives on real-valued
 * images; their per-pixel contracts state the platform semantics.
 */
module Overlay {
  import opened Raster

  /** A slider value: an integer importance from 0 to 5. */
  type Weight = w: int | 0 <= w <= 5

  /** The six per-country bounds the country lookup provides. */
  datatype LayerBounds = LayerBounds(distMin: real, distMax: real, costMin: real, costMax: real,
                           rateMin: real, rateMax: real)

  /**
   * `unitScale(lo, hi)` on one value: the fraction of the way from `lo` to
   * `hi`, with no clamping.
   */
  function UnitScale(x: real, lo: real, hi: real): (r: real)
    requires lo != hi
    ensures r * (hi - lo) == x - lo
  {
    (x - lo) / (hi - lo)
  }

  /** Unit scaling sends the lower bound to 0 and the upper bound to 1. */
  lemma UnitScaleEnds(lo: real, hi: real)
    requires lo != hi
    ensures UnitScale(lo, lo, hi) == 0.0 && UnitScale(hi, lo, hi) == 1.0
  {
    var d := hi - lo;
    assert d / d == 1.0;
  }

  /** Unit scaling is strictly increasing, and its inverse 1 - x strictly decreasing, when hi > lo. */
  lemma UnitScaleMonotone(x: real, y: real, lo: real, hi: real)
    requires lo < hi && x < y
    ensures UnitScale(x, lo, hi) < UnitScale(y, lo, hi)
    ensures 1.0 - UnitScale(x, lo, hi) > 1.0 - UnitScale(y, lo, hi)
  {
    var d := hi - lo;
    assert (y - lo) / d - (x - lo) / d == (y - x) / d;
  }

  /** Values inside the bounds land in [0, 1]. */
  lemma UnitScaleInside(x: real, lo: real, hi: real)
    requires lo < hi && lo <= x <= hi
    ensures 0.0 <= UnitScale(x, lo, hi) <= 1.0
  {
    var d := hi - lo;
    assert (x - lo) / d <= d / d;
  }

  /**
   * No clamping: a value above the upper bound (the 95th percentile for
   * distance) scales above 1, and its inverse below 0.
   */
  lemma UnitScaleNotClamped(x: real, lo: real, hi: real)
    requires lo < hi && x > hi
    ensures UnitScale(x, lo, hi) > 1.0 && 1.0 - UnitScale(x, lo, hi) < 0.0
  {
    UnitScaleEnds(lo, hi);
    UnitScaleMonotone(hi, x, lo, hi);
  }

  /** `image.clip(country)`. */
  function ClipReal(img: RealImage, country: Region): (r: RealImage)
    requires |img| == |country|
    ensures |r| == |img|
    ensures forall i :: 0 <= i < |img| ==> r[i] == if country[i] then img[i] else None
  {
    seq(|img|, i requires 0 <= i < |img| => if country[i] then img[i] else None)
  }

  /** `image.unitScale(lo, hi)`, pixel by pixel. */
  function ScaleImage(img: RealImage, lo: real, hi: real): (r: RealImage)
    requires lo != hi
    ensures |r| == |img|
    ensures forall i :: 0 <= i < |img| ==> (r[i].Some? <==> img[i].Some?)
    ensures forall i :: 0 <= i < |img| && img[i].Some? ==> r[i].value == UnitScale(img[i].value, lo, hi)
  {
    seq(|img|, i requires 0 <= i < |img| => if img[i].Some? then Some(UnitScale(img[i].value, lo, hi)) else None)
  }

  /** `ee.Image(1).subtract(image)`. */
  function Invert(img: RealImage): (r: RealImage)
    ensures |r| == |img|
    ensures forall i :: 0 <= i < |img| ==> (r[i].Some? <==> img[i].Some?)
    ensures forall i :: 0 <= i < |img| && img[i].Some? ==> r[i].value == 1.0 - img[i].value
  {
    seq(|img|, i requires 0 <= i < |img| => if img[i].Some? then Some(1.0 - img[i].value) else None)
  }

  /** `image.multiply(w)`. */
  function Times(img: RealImage, w: real): (r: RealImage)
    ensures |r| == |img|
    ensures forall i :: 0 <= i < |img| ==> (r[i].Some? <==> img[i].Some?)
    ensures forall i :: 0 <= i < |img| && img[i].Some? ==> r[i].value == img[i].value * w
  {
    seq(|img|, i requires 0 <= i < |img| => if img[i].Some? then Some(img[i].value * w) else None)
  }

  /**
   * `image.unmask()`: a masked pixel inside the image's footprint becomes 0;
   * outside the footprint (for a clipped image, outside the country) the
   * pixel stays masked, since `unmask` keeps the footprint by default.
   */
  function UnmaskWithin(img: RealImage, footprint: Region): (r: RealImage)
    requires |img| == |footprint|
    ensures |r| == |img|
    ensures forall i :: 0 <= i < |img| ==> (r[i].Some? <==> footprint[i])
    ensures forall i :: 0 <= i < |img| && footprint[i] ==> r[i] == if img[i].Some? then img[i] else Some(0.0)
  {
    seq(|img|, i requires 0 <= i < |img| =>
      if !footprint[i] then None else if img[i].Some? then img[i] else Some(0.0))
  }

  /** `a.add(b).add(c)`: a pixel masked in any operand is masked in the sum. */
  function Sum3(a: RealImage, b: RealImage, c: RealImage): (r: RealImage)
    requires |a| == |b| == |c|
    ensures |r| == |a|
    ensures forall i :: 0 <= i < |a| ==> (r[i].Some? <==> a[i].Some? && b[i].Some? && c[i].Some?)
  {
    seq(|a|, i requires 0 <= i < |a| =>
      if a[i].Some? && b[i].Some? && c[i].Some? then Some(a[i].value + b[i].value + c[i].value) else None)
  }

  /** `image.updateMask(available)`. */
  function MaskTo(img: RealImage, available: Image): (r: RealImage)
    requires |img| == |available|
    ensures |r| == |img|
    ensures forall i :: 0 <= i < |img| ==> (r[i].Some? <==> img[i].Some? && Keeps(available[i]))
    ensures forall i :: 0 <= i < |img| && r[i].Some? ==> r[i] == img[i]
  {
    seq(|img|, i requires 0 <= i < |img| => if Keeps(available[i]) then img[i] else None)
  }

  /** Both bounds of every layer differ, so every unit scaling is defined. */
  predicate ProperBounds(b: LayerBounds) {
    b.distMin != b.distMax && b.costMin != b.costMax && b.rateMin != b.rateMax
  }

  /**
   * One priority layer after lines 547-569 and the `unmask()` of line 572:
   * clipped to the country, unit-scaled, inverted when a low raw value is a
   * high priority, weighted, and unmasked within the country.
   */
  function Layer(img: RealImage, country: Region, lo: real, hi: real, w: Weight, invert: bool): (r: RealImage)
    requires |img| == |country|
    requires lo != hi
    ensures |r| == |img| && forall i :: 0 <= i < |img| ==> (r[i].Some? <==> country[i])
  {
    var scaled := ScaleImage(ClipReal(img, country), lo, hi);
    UnmaskWithin(Times(if invert then Invert(scaled) else scaled, w as real), country)
  }

  /**
   * What one layer adds at a pixel of the country: weight times the
   * (inverted) scaled value where the layer has data, and 0 where it is masked.
   */
  function Contribution(x: Option<real>, lo: real, hi: real, w: Weight, invert: bool): real
    requires lo != hi
  {
    if x.Some? then
      (w as real) * (if invert then 1.0 - UnitScale(x.value, lo, hi) else UnitScale(x.value, lo, hi))
    else 0.0
  }

  /**
   * A layer pixel inside the country is that pixel's contribution, so a
   * pixel without data adds 0 and is not removed; outside the country the
   * layer is masked.
   */
  lemma LayerIsContribution(img: RealImage, country: Region, lo: real, hi: real, w: Weight, invert: bool, i: int)
    requires |img| == |country|
    requires lo != hi
    requires 0 <= i < |img|
    ensures |Layer(img, country, lo, hi, w, invert)| == |img|
    ensures Layer(img, country, lo, hi, w, invert)[i] ==
      if country[i] then Some(Contribution(img[i], lo, hi, w, invert)) else None
  {
    var clipped := ClipReal(img, country);
    var scaled := ScaleImage(clipped, lo, hi);
    var oriented := if invert then Invert(scaled) else scaled;
    var weighted := Times(oriented, w as real);
    assert Layer(img, country, lo, hi, w, invert) == UnmaskWithin(weighted, country);
    if country[i] {
      assert clipped[i] == img[i];
      if img[i].Some? {
        var u := UnitScale(img[i].value, lo, hi);
        assert scaled[i] == Some(u);
        var v := if invert then 1.0 - u else u;
        assert oriented[i] == Some(v);
        assert weighted[i].Some?;
        assert weighted[i].value == v * (w as real);
        assert weighted[i] == Some(v * (w as real));
        assert Contribution(img[i], lo, hi, w, invert) == (w as real) * v;
      } else {
        assert weighted[i].None?;
      }
    }
  }

  /** Lines 547-572: the weighted sum of the three scaled layers, before re-scaling. */
  function Unscaled(dist: RealImage, cost: RealImage, rate: RealImage, country: Region,
                    b: LayerBounds, wDist: Weight, wCost: Weight, wRate: Weight): (r: RealImage)
    requires |dist| == |cost| == |rate| == |country|
    requires ProperBounds(b)
    ensures |r| == |country| && forall i :: 0 <= i < |country| ==> (r[i].Some? <==> country[i])
  {
    Sum3(Layer(dist, country, b.distMin, b.distMax, wDist, true),
         Layer(cost, country, b.costMin, b.costMax, wCost, true),
         Layer(rate, country, b.rateMin, b.rateMax, wRate, false))
  }

  /**
   * Every pixel of the country holds the sum of the three layers'
   * contributions; every pixel outside it is masked.
   */
  lemma UnscaledIsSumOfContributions(dist: RealImage, cost: RealImage, rate: RealImage, country: Region,
                                     b: LayerBounds, wDist: Weight, wCost: Weight, wRate: Weight, i: int)
    requires |dist| == |cost| == |rate| == |country|
    requires ProperBounds(b)
    requires 0 <= i < |country|
    ensures |Unscaled(dist, cost, rate, country, b, wDist, wCost, wRate)| == |country|
    ensures Unscaled(dist, cost, rate, country, b, wDist, wCost, wRate)[i] ==
      if !country[i] then None
      else Some(Contribution(dist[i], b.distMin, b.distMax, wDist, true) +
                Contribution(cost[i], b.costMin, b.costMax, wCost, true) +
                Contribution(rate[i], b.rateMin, b.rateMax, wRate, false))
  {
    LayerIsContribution(dist, country, b.distMin, b.distMax, wDist, true, i);
    LayerIsContribution(cost, country, b.costMin, b.costMax, wCost, true, i);
    LayerIsContribution(rate, country, b.rateMin, b.rateMax, wRate, false, i);
  }

  /** With every weight at 0 the unscaled sum is 0 at every pixel of the country. */
  lemma ZeroWeightsZeroSum(dist: RealImage, cost: RealImage, rate: RealImage, country: Region, b: LayerBounds)
    requires |dist| == |cost| == |rate| == |country|
    requires ProperBounds(b)
    ensures forall i :: 0 <= i < |country| && country[i] ==> Unscaled(dist, cost, rate, country, b, 0, 0, 0)[i] == Some(0.0)
  {
    forall i | 0 <= i < |country| && country[i]
      ensures Unscaled(dist, cost, rate, country, b, 0, 0, 0)[i] == Some(0.0)
    {
      UnscaledIsSumOfContributions(dist, cost, rate, country, b, 0, 0, 0, i);
    }
  }

  /** The least of two reals. */
  function Min(a: real, b: real): real { if a <= b then a else b }

  /** The greatest of two reals. */
  function Max(a: real, b: real): real { if a <= b then b else a }

  /** Some pixel of the image holds `v`. */
  ghost predicate Attained(img: RealImage, v: real) {
    exists k :: 0 <= k < |img| && img[k] == Some(v)
  }

  /**
   * The `minMax` region reducer: the least and greatest unmasked value, or
   * None when every pixel is masked.
   */
  function MinMax(img: RealImage): (r: Option<(real, real)>)
    ensures r.None? <==> forall k :: 0 <= k < |img| ==> img[k].None?
    ensures r.Some? ==> forall k :: 0 <= k < |img| && img[k].Some? ==> r.value.0 <= img[k].value <= r.value.1
    ensures r.Some? ==> Attained(img, r.value.0) && Attained(img, r.value.1)
    decreases |img|
  {
    if img == [] then None
    else
      var front := img[..|img| - 1];
      var last := img[|img| - 1];
      var rest := MinMax(front);
      assert forall k :: 0 <= k < |front| ==> front[k] == img[k];
      if last.None? then rest
      else if rest.None? then Some((last.value, last.value))
      else
        var lo := Min(rest.value.0, last.value);
        var hi := Max(rest.value.1, last.value);
        assert Attained(img, lo) by {
          if lo == last.value { assert img[|img| - 1] == Some(lo); }
          else { var k :| 0 <= k < |front| && front[k] == Some(lo); assert img[k] == Some(lo); }
        }
        assert Attained(img, hi) by {
          if hi == last.value { assert img[|img| - 1] == Some(hi); }
          else { var k :| 0 <= k < |front| && front[k] == Some(hi); assert img[k] == Some(hi); }
        }
        Some((lo, hi))
  }

  /** Why "Run Analysis" produces no priority layer. */
  datatype AnalysisError =
    | NoCountry          // no country selected: `clip(null)`
    | MissingBounds      // the bounds tables have no row for the country
    | NoAvailableArea    // the available-area button has not been pressed
    | NoAvailablePixels  // the available area is empty, so min and max are null
    | ZeroRange          // a unit scaling with equal bounds: the code has no guard for it

  /**
   * Lines 547-583: the restoration priority image, re-scaled within the
   * available area. The unscaled sum covers only the current country, so an
   * available area displayed for another country may leave no pixel.
   */
  function Priority(dist: RealImage, cost: RealImage, rate: RealImage, country: Region,
                    b: LayerBounds, wDist: Weight, wCost: Weight, wRate: Weight,
                    available: Image): (r: Result<RealImage, AnalysisError>)
    requires |dist| == |cost| == |rate| == |country| == |available|
    ensures !ProperBounds(b) ==> r == Err(ZeroRange)
    ensures r == Err(NoAvailablePixels) <==>
      ProperBounds(b) && forall i :: 0 <= i < |available| ==> !(Keeps(available[i]) && country[i])
    ensures r.Ok? ==> |r.value| == |available|
  {
    if !ProperBounds(b) then Err(ZeroRange)
    else
      var masked := MaskTo(Unscaled(dist, cost, rate, country, b, wDist, wCost, wRate), available);
      match MinMax(masked)
      case None => Err(NoAvailablePixels)
      case Some((lo, hi)) => if lo == hi then Err(ZeroRange) else Ok(ScaleImage(masked, lo, hi))
  }

  /**
   * A successful analysis is defined exactly on the available pixels of the
   * current country, every value lies in [0, 1], and both 0 and 1 are reached.
   */
  lemma PriorityInUnitInterval(dist: RealImage, cost: RealImage, rate: RealImage, country: Region,
                               b: LayerBounds, wDist: Weight, wCost: Weight, wRate: Weight, available: Image)
    requires |dist| == |cost| == |rate| == |country| == |available|
    requires Priority(dist, cost, rate, country, b, wDist, wCost, wRate, available).Ok?
    ensures var p := Priority(dist, cost, rate, country, b, wDist, wCost, wRate, available).value;
      && |p| == |available|
      && (forall i :: 0 <= i < |p| ==> (p[i].Some? <==> Keeps(available[i]) && country[i]))
      && (forall i :: 0 <= i < |p| && p[i].Some? ==> 0.0 <= p[i].value <= 1.0)
      && Attained(p, 0.0) && Attained(p, 1.0)
  {
    assert ProperBounds(b);
    var u := Unscaled(dist, cost, rate, country, b, wDist, wCost, wRate);
    var masked := MaskTo(u, available);
    var mm := MinMax(masked);
    var lo, hi := mm.value.0, mm.value.1;
    var p := ScaleImage(masked, lo, hi);
    assert lo < hi by {
      var k :| 0 <= k < |masked| && masked[k] == Some(lo);
      assert lo <= masked[k].value <= hi;
    }
    assert Priority(dist, cost, rate, country, b, wDist, wCost, wRate, available) == Ok(p);
    forall i | 0 <= i < |p|
      ensures p[i].Some? <==> Keeps(available[i]) && country[i]
    {
      assert p[i].Some? <==> masked[i].Some?;
      assert u[i].Some? <==> country[i];
    }
    forall i | 0 <= i < |p| && p[i].Some?
      ensures 0.0 <= p[i].value <= 1.0
    {
      UnitScaleInside(masked[i].value, lo, hi);
    }
    var k0 :| 0 <= k0 < |masked| && masked[k0] == Some(lo);
    var k1 :| 0 <= k1 < |masked| && masked[k1] == Some(hi);
    UnitScaleEnds(lo, hi);
    assert p[k0] == Some(0.0) && p[k1] == Some(1.0);
  }

  /** Re-scaling keeps the order of the unscaled sums between available pixels. */
  lemma PriorityPreservesOrder(dist: RealImage, cost: RealImage, rate: RealImage, country: Region,
                               b: LayerBounds, wDist: Weight, wCost: Weight, wRate: Weight, available: Image,
                               i: int, j: int)
    requires |dist| == |cost| == |rate| == |country| == |available|
    requires ProperBounds(b)
    requires Priority(dist, cost, rate, country, b, wDist, wCost, wRate, available).Ok?
    requires 0 <= i < |available| && 0 <= j < |available| && Keeps(available[i]) && Keeps(available[j])
    requires country[i] && country[j]
    requires Unscaled(dist, cost, rate, country, b, wDist, wCost, wRate)[i].value <
             Unscaled(dist, cost, rate, country, b, wDist, wCost, wRate)[j].value
    ensures var p := Priority(dist, cost, rate, country, b, wDist, wCost, wRate, available).value;
      p[i].Some? && p[j].Some? && p[i].value < p[j].value
  {
    var u := Unscaled(dist, cost, rate, country, b, wDist, wCost, wRate);
    var masked := MaskTo(u, available);
    var mm := MinMax(masked);
    var lo, hi := mm.value.0, mm.value.1;
    assert masked[i] == u[i] && masked[j] == u[j];
    UnitScaleMonotone(u[i].value, u[j].value, lo, hi);
  }

  /**
   * With every weight at 0 there is nothing to rank: the analysis ends in
   * the unguarded zero range when some available pixel lies in the country,
   * and with null bounds when none does.
   */
  lemma ZeroWeightsNoPriority(dist: RealImage, cost: RealImage, rate: RealImage, country: Region,
                              b: LayerBounds, available: Image)
    requires |dist| == |cost| == |rate| == |country| == |available|
    ensures Priority(dist, cost, rate, country, b, 0, 0, 0, available).Err?
    ensures ProperBounds(b) && (exists i :: 0 <= i < |available| && Keeps(available[i]) && country[i]) ==>
      Priority(dist, cost, rate, country, b, 0, 0, 0, available) == Err(ZeroRange)
  {
    if ProperBounds(b) {
      ZeroWeightsZeroSum(dist, cost, rate, country, b);
      var masked := MaskTo(Unscaled(dist, cost, rate, country, b, 0, 0, 0), available);
      var mm := MinMax(masked);
      if mm.Some? {
        var k0 :| 0 <= k0 < |masked| && masked[k0] == Some(mm.value.0);
        var k1 :| 0 <= k1 < |masked| && masked[k1] == Some(mm.value.1);
        assert mm.value.0 == 0.0 == mm.value.1;
      }
    }
  }

  /**
   * The available area is not recomputed when another country is picked:
   * an area displayed for one country and analysed with a second country
   * that shares none of its pixels leaves nothing to re-scale.
   */
  lemma OtherCountryNoPriority(dist: RealImage, cost: RealImage, rate: RealImage, b: LayerBounds, wDist: Weight)
    requires ProperBounds(b) && |dist| == |cost| == |rate| == 2
    ensures var shown := [Some(1), None];
      var second := [false, true];
      Priority(dist, cost, rate, second, b, wDist, 0, 0, shown) == Err(NoAvailablePixels)
  {
  }

  /**
   * The worked example of one pixel: distance bounds 0 and 1000, distance
   * 250, weight 5 on distance and 0 elsewhere, gives a weighted value of
   * 3.75; when that is the only available pixel, the re-scaling has min ==
   * max and the analysis ends in the zero range instead of yielding 1.
   */
  lemma SinglePixelExample(cost: Option<real>, rate: Option<real>)
    ensures var b := LayerBounds(0.0, 1000.0, 0.0, 1.0, 0.0, 1.0);
      && Unscaled([Some(250.0)], [cost], [rate], [true], b, 5, 0, 0) == [Some(3.75)]
      && Priority([Some(250.0)], [cost], [rate], [true], b, 5, 0, 0, [Some(1)]) == Err(ZeroRange)
  {
    var b := LayerBounds(0.0, 1000.0, 0.0, 1.0, 0.0, 1.0);
    var u := Unscaled([Some(250.0)], [cost], [rate], [true], b, 5, 0, 0);
    UnscaledIsSumOfContributions([Some(250.0)], [cost], [rate], [true], b, 5, 0, 0, 0);
    assert u[0] == Some(3.75);
    assert u == [Some(3.75)];
    var masked := MaskTo(u, [Some(1)]);
    assert masked == [Some(3.75)];
  }
}
