/**
 * The arithmetic of the project statistics: area, beneficiaries, carbon,
 * cost, return and their ratio for a drawn project area.
 *
 * The reductions run over the footprint of the available area clipped to
 * the drawn area, which is the part of the drawn area inside the selected
 * country. The area sum only counts available pixels, because the pixel
 * area image carries the available area's mask; population and carbon are
 * summed or averaged over the whole footprint.
 */
module Stats {
  import opened Raster
  import Species

  /** `ee.Number.round()`: the nearest integer, halves rounded up. */
  function Round(x: real): (r: int)
    ensures (r as real) - 0.5 <= x < (r as real) + 0.5
  {
    (x + 0.5).Floor
  }

  /** Whole numbers round to themselves. */
  lemma RoundWhole(n: int)
    ensures Round(n as real) == n
  {
  }

  /** Rounding keeps the order of its arguments. */
  lemma RoundMonotone(x: real, y: real)
    requires x <= y
    ensures Round(x) <= Round(y)
  {
  }

  /** The pixels of both regions. */
  function Intersection(a: Region, b: Region): (r: Region)
    requires |a| == |b|
    ensures |r| == |a| && forall i :: 0 <= i < |a| ==> (r[i] <==> a[i] && b[i])
  {
    seq(|a|, i requires 0 <= i < |a| => a[i] && b[i])
  }

  /**
   * The `sum` reducer: the unmasked values inside the region, added up. A
   * region with no unmasked pixel sums to 0.
   */
  function Sum(img: RealImage, region: Region): (r: real)
    requires |img| == |region|
    ensures Count(img, region) == 0 ==> r == 0.0
    decreases |img|
  {
    if img == [] then 0.0
    else
      var m := |img| - 1;
      var last := if region[m] && img[m].Some? then img[m].value else 0.0;
      Sum(img[..m], region[..m]) + last
  }

  /** The number of unmasked pixels inside the region. */
  function Count(img: RealImage, region: Region): nat
    requires |img| == |region|
    decreases |img|
  {
    if img == [] then 0
    else
      var m := |img| - 1;
      var last := if region[m] && img[m].Some? then 1 else 0;
      Count(img[..m], region[..m]) + last
  }

  /**
   * The `mean` reducer: null exactly when the region holds no unmasked
   * pixel; otherwise the mean times the number of pixels is their sum.
   */
  function Mean(img: RealImage, region: Region): (r: Option<real>)
    requires |img| == |region|
    ensures r.None? <==> Count(img, region) == 0
    ensures r.Some? ==> r.value * (Count(img, region) as real) == Sum(img, region)
  {
    var n := Count(img, region);
    if n == 0 then None else Some(Sum(img, region) / (n as real))
  }

  /** `k` added up `n` times. */
  function Repeat(k: real, n: nat): real {
    if n == 0 then 0.0 else Repeat(k, n - 1) + k
  }

  /** Repeated addition is multiplication. */
  lemma {:induction false} RepeatIsProduct(k: real, n: nat)
    ensures Repeat(k, n) == k * (n as real)
  {
    if n > 0 {
      RepeatIsProduct(k, n - 1);
      assert k * ((n - 1) as real) + k == k * (n as real);
    }
  }

  /** The sum lies between count times the least and count times the greatest value. */
  lemma {:induction false} SumBetween(img: RealImage, region: Region, lo: real, hi: real)
    requires |img| == |region|
    requires forall i :: 0 <= i < |img| && region[i] && img[i].Some? ==> lo <= img[i].value <= hi
    ensures Repeat(lo, Count(img, region)) <= Sum(img, region) <= Repeat(hi, Count(img, region))
    decreases |img|
  {
    if img != [] {
      var m := |img| - 1;
      SumBetween(img[..m], region[..m], lo, hi);
    }
  }

  /**
   * A mean exists exactly when some pixel of the region is unmasked, and it
   * lies between the least and the greatest value there.
   */
  lemma MeanBetween(img: RealImage, region: Region, lo: real, hi: real)
    requires |img| == |region|
    requires forall i :: 0 <= i < |img| && region[i] && img[i].Some? ==> lo <= img[i].value <= hi
    ensures Mean(img, region).None? <==> Count(img, region) == 0
    ensures Mean(img, region).Some? ==> lo <= Mean(img, region).value <= hi
  {
    var n := Count(img, region);
    if n != 0 {
      SumBetween(img, region, lo, hi);
      QuotientBetween(Sum(img, region), n, lo, hi);
    }
  }

  /** A total between n times two bounds has its n-th part between them. */
  lemma QuotientBetween(s: real, count: nat, lo: real, hi: real)
    requires 0 < count && Repeat(lo, count) <= s <= Repeat(hi, count)
    ensures lo <= s / (count as real) <= hi
  {
    RepeatIsProduct(lo, count);
    RepeatIsProduct(hi, count);
    var n := count as real;
    assert n > 0.0;
    assert lo * n <= s <= hi * n;
    var q := s / n;
    assert q * n == s;
    assert (q - lo) * n == s - lo * n;
    assert (hi - q) * n == hi * n - s;
    NonNegativeFactor(q - lo, n);
    NonNegativeFactor(hi - q, n);
  }

  /** A non-negative product with a positive factor has a non-negative other factor. */
  lemma NonNegativeFactor(x: real, n: real)
    requires n > 0.0 && x * n >= 0.0
    ensures x >= 0.0
  {
  }

  /** Line 996: the available area times the pixel area, in hectares; masked where the available area is. */
  function HectareImage(available: Image, pixelArea: seq<real>): (r: RealImage)
    requires |available| == |pixelArea|
    ensures |r| == |available|
    ensures forall i :: 0 <= i < |available| ==> (r[i].Some? <==> available[i].Some?)
    ensures forall i :: 0 <= i < |available| && available[i] == Some(1) ==> r[i] == Some(pixelArea[i] / 10000.0)
    ensures forall i :: 0 <= i < |available| && r[i].Some? && available[i].value >= 0 && pixelArea[i] >= 0.0 ==>
      r[i].value >= 0.0
  {
    seq(|available|, i requires 0 <= i < |available| =>
      if available[i].Some? then Some((available[i].value as real) * pixelArea[i] / 10000.0) else None)
  }

  /** Lines 993-1004: the restoration area in hectares, before rounding. */
  function RestorationArea(available: Image, pixelArea: seq<real>, footprint: Region): (r: real)
    requires |available| == |pixelArea| == |footprint|
    ensures ((forall i :: 0 <= i < |available| ==> pixelArea[i] >= 0.0) &&
             (forall i :: 0 <= i < |available| && available[i].Some? ==> available[i].value >= 0)) ==> r >= 0.0
  {
    var h := HectareImage(available, pixelArea);
    SumNonNegative(h, footprint);
    Sum(h, footprint)
  }

  /** A sum of values none of which is negative is not negative. */
  lemma {:induction false} SumNonNegative(img: RealImage, region: Region)
    requires |img| == |region|
    ensures (forall i :: 0 <= i < |img| && img[i].Some? ==> img[i].value >= 0.0) ==> Sum(img, region) >= 0.0
    decreases |img|
  {
    if img != [] {
      var m := |img| - 1;
      assert forall i :: 0 <= i < m ==> img[..m][i] == img[i];
      SumNonNegative(img[..m], region[..m]);
    }
  }

  /** The number of available pixels in the footprint. */
  function AvailableCount(available: Image, footprint: Region): nat
    requires |available| == |footprint|
    decreases |available|
  {
    if available == [] then 0
    else
      var m := |available| - 1;
      var last := if footprint[m] && available[m].Some? then 1 else 0;
      AvailableCount(available[..m], footprint[..m]) + last
  }

  /**
   * On a grid of one-hectare pixels where every available pixel holds 1,
   * the area in hectares is the number of available pixels in the footprint.
   */
  lemma {:induction false} AreaCountsPixels(available: Image, pixelArea: seq<real>, footprint: Region)
    requires |available| == |pixelArea| == |footprint|
    requires forall i :: 0 <= i < |available| ==> pixelArea[i] == 10000.0
    requires forall i :: 0 <= i < |available| && available[i].Some? ==> available[i].value == 1
    ensures RestorationArea(available, pixelArea, footprint) == AvailableCount(available, footprint) as real
    decreases |available|
  {
    if available != [] {
      var m := |available| - 1;
      AreaCountsPixels(available[..m], pixelArea[..m], footprint[..m]);
      assert HectareImage(available, pixelArea)[..m] == HectareImage(available[..m], pixelArea[..m]);
    }
  }

  /** With no available pixel in the footprint the area is 0. */
  lemma NoAvailablePixelsNoArea(available: Image, pixelArea: seq<real>, footprint: Region)
    requires |available| == |pixelArea| == |footprint|
    requires forall i :: 0 <= i < |available| && footprint[i] ==> available[i].None?
    ensures RestorationArea(available, pixelArea, footprint) == 0.0
  {
    var h := HectareImage(available, pixelArea);
    NoneCounted(h, footprint);
  }

  /** No unmasked pixel in the region means a count of 0. */
  lemma {:induction false} NoneCounted(img: RealImage, region: Region)
    requires |img| == |region|
    requires forall i :: 0 <= i < |img| && region[i] ==> img[i].None?
    ensures Count(img, region) == 0
    decreases |img|
  {
    if img != [] {
      NoneCounted(img[..|img| - 1], region[..|img| - 1]);
    }
  }

  /** Lines 1018-1026: the population summed over the footprint and rounded. */
  function Beneficiaries(population: RealImage, footprint: Region): (r: int)
    requires |population| == |footprint|
    ensures (r as real) - 0.5 <= Sum(population, footprint) < (r as real) + 0.5
  {
    Round(Sum(population, footprint))
  }

  /** A footprint with no pixel counts no beneficiaries, whatever the population image holds. */
  lemma EmptyFootprintNoBeneficiaries(population: RealImage, footprint: Region)
    requires |population| == |footprint|
    requires forall i :: 0 <= i < |footprint| ==> !footprint[i]
    ensures Beneficiaries(population, footprint) == 0
  {
    NoneCounted(population, footprint);
    RoundWhole(0);
  }

  /** `image.unmask()` on a real image: present values stay, masked pixels become 0. */
  function Filled(img: RealImage): (r: RealImage)
    ensures |r| == |img| && forall i :: 0 <= i < |img| ==> r[i].Some?
    ensures forall i :: 0 <= i < |img| ==> r[i] == if img[i].Some? then img[i] else Some(0.0)
  {
    seq(|img|, i requires 0 <= i < |img| => if img[i].Some? then img[i] else Some(0.0))
  }

  /**
   * Lines 1032-1037 and 1046-1051: the mean sequestration rate of the
   * footprint, unmasked to 0; null exactly when the footprint is empty,
   * since unmasking leaves no gap.
   */
  function MeanRate(carbon: RealImage, footprint: Region): (r: Option<real>)
    requires |carbon| == |footprint|
    ensures r.None? <==> forall i :: 0 <= i < |footprint| ==> !footprint[i]
  {
    FilledCountsFootprint(carbon, footprint);
    Mean(Filled(carbon), footprint)
  }

  /** Unmasking leaves no gap: the count of the filled image is 0 exactly on an empty footprint. */
  lemma {:induction false} FilledCountsFootprint(carbon: RealImage, footprint: Region)
    requires |carbon| == |footprint|
    ensures Count(Filled(carbon), footprint) == 0 <==> forall i :: 0 <= i < |footprint| ==> !footprint[i]
    decreases |carbon|
  {
    if carbon != [] {
      var m := |carbon| - 1;
      FilledCountsFootprint(carbon[..m], footprint[..m]);
      assert Filled(carbon)[..m] == Filled(carbon[..m]);
      if !footprint[m] {
        assert forall i :: 0 <= i < m ==> footprint[..m][i] == footprint[i];
      }
    }
  }

  /**
   * A gap in the carbon layer inside the footprint counts as a rate of 0:
   * a rate of 2 on one footprint pixel and none on the other averages to 1.
   */
  lemma CarbonGapCountsAsZero()
    ensures MeanRate([Some(2.0), None], [true, true]) == Some(1.0)
  {
    var f := Filled([Some(2.0), None]);
    assert f == [Some(2.0), Some(0.0)];
    assert Count(f, [true, true]) == 2;
    assert Sum(f, [true, true]) == 2.0;
  }

  /** Lines 1060 and 1066: a rate per hectare and year times the length times the area, rounded. */
  function ProjectTotal(ratePerHaYear: real, projectLength: real, area: real): (r: int)
    ensures (r as real) - 0.5 <= ratePerHaYear * projectLength * area < (r as real) + 0.5
  {
    Round(ratePerHaYear * projectLength * area)
  }

  /** Lines 1040 and 1054: area times mean rate times project length, rounded, as a project total. */
  function CarbonTotal(area: real, meanRate: real, projectLength: real): (r: int)
    ensures (r as real) - 0.5 <= area * meanRate * projectLength < (r as real) + 0.5
  {
    assert meanRate * projectLength * area == area * meanRate * projectLength;
    ProjectTotal(meanRate, projectLength, area)
  }

  /**
   * Line 1072: `ee.Number.divide`, which yields 0 for a zero divisor. The
   * ratio of two non-negative totals is not negative, and a return no
   * larger than a non-zero cost gives at most 1.
   */
  function Ratio(totalReturn: int, totalCost: int): (r: real)
    ensures 0 <= totalReturn && 0 <= totalCost ==> r >= 0.0
    ensures 0 <= totalReturn <= totalCost && totalCost != 0 ==> r <= 1.0
  {
    if totalCost == 0 then 0.0
    else
      var q := (totalReturn as real) / (totalCost as real);
      assert 0 <= totalReturn <= totalCost ==> q * (totalCost as real) <= 1.0 * (totalCost as real);
      q
  }

  /** Line 1075: `toFixed(1)`, as the number of tenths shown: within half a tenth of the value. */
  function OneDecimal(x: real): (r: int)
    ensures (r as real) / 10.0 - 0.05 <= x < (r as real) / 10.0 + 0.05
  {
    Round(x * 10.0)
  }

  /** A total is within one half of the exact product and grows with the area. */
  lemma ProjectTotalProperties(ratePerHaYear: real, projectLength: real, area: real, larger: real)
    requires 0.0 <= ratePerHaYear && 0.0 <= projectLength && area <= larger
    ensures (ProjectTotal(ratePerHaYear, projectLength, area) as real) - 0.5 <= ratePerHaYear * projectLength * area
    ensures ratePerHaYear * projectLength * area < (ProjectTotal(ratePerHaYear, projectLength, area) as real) + 0.5
    ensures ProjectTotal(ratePerHaYear, projectLength, area) <= ProjectTotal(ratePerHaYear, projectLength, larger)
  {
    var k := ratePerHaYear * projectLength;
    assert 0.0 <= k;
    assert k * area <= k * larger;
    RoundMonotone(k * area, k * larger);
  }

  /** The ratio recovers the return from the cost, and is 0 when the cost rounds to 0. */
  lemma RatioInverse(totalReturn: int, totalCost: int)
    ensures totalCost != 0 ==> Ratio(totalReturn, totalCost) * (totalCost as real) == totalReturn as real
    ensures totalCost == 0 ==> Ratio(totalReturn, totalCost) == 0.0
  {
  }

  /** The default project parameters of the textboxes (lines 765, 782, 799). */
  const DefaultLength: real := 15.0
  const DefaultCost: real := 1686.0
  const DefaultReturn: real := 3788.0

  /**
   * The defaults over 100 hectares: a cost of 2,529,000, a return of
   * 5,682,000 and a ratio shown as 2.2.
   */
  lemma DefaultScenario()
    ensures ProjectTotal(DefaultCost, DefaultLength, 100.0) == 2529000
    ensures ProjectTotal(DefaultReturn, DefaultLength, 100.0) == 5682000
    ensures OneDecimal(Ratio(5682000, 2529000)) == 22
  {
    RoundWhole(2529000);
    RoundWhole(5682000);
    var x := (5682000 as real) / (2529000 as real) * 10.0;
    assert 22.0 <= x + 0.5 < 23.0;
  }

  /**
   * The totals use the unrounded area: 0.4 hectares show as an area of 0
   * but cost 10,116 with the defaults.
   */
  lemma UnroundedAreaInTotals()
    ensures Round(0.4) == 0
    ensures ProjectTotal(DefaultCost, DefaultLength, 0.4) == 10116
  {
    RoundWhole(10116);
  }

  /**
   * The species count is taken over the whole drawn area: an area with no
   * available pixel has a restoration area of 0 and can still count a
   * threatened species.
   */
  lemma SpeciesWithoutArea(groups: seq<Species.Collection>)
    requires |groups| == |Species.StatusFields|
    requires groups[0] == [Species.Feature("Atelopus varius", map["category" := "CR"], {0})]
    ensures RestorationArea([None], [10000.0], [true]) == 0.0
    ensures Species.SpeciesCount(groups, [true]) >= 1
  {
    NoAvailablePixelsNoArea([None], [10000.0], [true]);
    var frog := Species.Feature("Atelopus varius", map["category" := "CR"], {0});
    assert Species.Qualifies(frog, "category", [true]);
    assert Species.Names([frog], "category", [true]) == {"Atelopus varius"};
    assert Species.GroupCount(groups[0], "category", [true]) == 1;
  }
}
