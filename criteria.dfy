/**
 * The restoration criteria: two accumulator images that checkbox handlers
 * update by adding or subtracting a mask, and the combination of the two
 * into the available area.
 *
 * `restorationLandcover` collects the 2018 grassland and cropland masks,
 * `historicalLandcover` the 1992 forest and not-forest masks. Each checkbox
 * handler unmasks the accumulator and the mask to 0 and then adds (box
 * checked) or subtracts (box unchecked) the mask.
 */
module Criteria {
  import opened Raster
  import opened Landcover

  /** One checkbox handler applied to an accumulator. */
  function Toggle(acc: Image, mask: Image, checked: bool): (r: Image)
    requires |acc| == |mask|
    ensures |r| == |acc|
    ensures forall i :: 0 <= i < |acc| ==> r[i].Some?
    ensures forall i :: 0 <= i < |acc| ==>
              Unmask(r)[i] == Unmask(acc)[i] + (if checked then Unmask(mask)[i] else -Unmask(mask)[i])
  {
    if checked then Full(Add(Unmask(acc), Unmask(mask)))
    else Full(Subtract(Unmask(acc), Unmask(mask)))
  }

  /** Checking a box and then unchecking it leaves every pixel as it was before (masked as 0). */
  lemma CheckThenUncheck(acc: Image, mask: Image)
    requires |acc| == |mask|
    ensures Toggle(Toggle(acc, mask, true), mask, false) == Full(Unmask(acc))
    ensures Toggle(Toggle(acc, mask, false), mask, true) == Full(Unmask(acc))
  {
  }

  /** The contribution of one box: its mask, unmasked to 0, when checked; nothing otherwise. */
  function Part(mask: Image, on: bool): seq<int> {
    if on then Unmask(mask) else Zeros(|mask|)
  }

  /** The sum of the masks of the boxes that are checked, pixel by pixel. */
  function CheckedSum(m1: Image, on1: bool, m2: Image, on2: bool): seq<int>
    requires |m1| == |m2|
  {
    Add(Part(m1, on1), Part(m2, on2))
  }

  /**
   * Flipping the first box runs its handler, and the accumulator then still
   * equals the sum of the checked masks.
   */
  lemma ToggleFirst(acc: Image, m1: Image, on1: bool, m2: Image, on2: bool)
    requires |acc| == |m1| == |m2|
    requires Unmask(acc) == CheckedSum(m1, on1, m2, on2)
    ensures Unmask(Toggle(acc, m1, !on1)) == CheckedSum(m1, !on1, m2, on2)
  {
  }

  /** The same for the second box. */
  lemma ToggleSecond(acc: Image, m1: Image, on1: bool, m2: Image, on2: bool)
    requires |acc| == |m1| == |m2|
    requires Unmask(acc) == CheckedSum(m1, on1, m2, on2)
    ensures Unmask(Toggle(acc, m2, !on2)) == CheckedSum(m1, on1, m2, !on2)
  {
  }

  /** A user action on one of the two boxes of an accumulator: the value the box is set to. */
  datatype BoxEvent = SetFirst(value: bool) | SetSecond(value: bool)

  /** The accumulator and the two box states. */
  datatype BoxState = BoxState(acc: Image, on1: bool, on2: bool)

  /**
   * Replays a sequence of user actions. A box runs its handler only when its
   * value changes: an assumption about the checkbox widget, which the
   * script does not show.
   */
  function Replay(s: BoxState, m1: Image, m2: Image, events: seq<BoxEvent>): (r: BoxState)
    requires |s.acc| == |m1| == |m2|
    ensures |r.acc| == |m1|
    ensures r.on1 == LastValue(s.on1, events, true) && r.on2 == LastValue(s.on2, events, false)
    ensures events == [] ==> r == s
    decreases |events|
  {
    if events == [] then s
    else
      var e := events[0];
      var next :=
        match e
        case SetFirst(v) => if v == s.on1 then s else BoxState(Toggle(s.acc, m1, v), v, s.on2)
        case SetSecond(v) => if v == s.on2 then s else BoxState(Toggle(s.acc, m2, v), s.on1, v);
      LastValueFirstEvent(s.on1, events, true);
      LastValueFirstEvent(s.on2, events, false);
      Replay(next, m1, m2, events[1..])
  }

  /** The value a box was last set to by the actions, or its initial value when none sets it. */
  function LastValue(init: bool, events: seq<BoxEvent>, first: bool): bool {
    if events == [] then init
    else if events[|events| - 1].SetFirst? == first then events[|events| - 1].value
    else LastValue(init, events[..|events| - 1], first)
  }

  /** The last value after a sequence of actions is the last value of the rest, started from the first action's effect. */
  lemma {:induction false} LastValueFirstEvent(init: bool, events: seq<BoxEvent>, first: bool)
    requires events != []
    ensures LastValue(init, events, first) ==
            LastValue(if events[0].SetFirst? == first then events[0].value else init, events[1..], first)
    decreases |events|
  {
    if |events| > 1 {
      var front := events[..|events| - 1];
      assert front[0] == events[0] && front[1..] == events[1..][..|events[1..]| - 1];
      LastValueFirstEvent(init, front, first);
    }
  }

  /**
   * After any sequence of user actions, starting from a consistent state,
   * every pixel of the accumulator equals the sum of the masks of the boxes
   * that are checked at the end.
   */
  lemma {:induction false} ReplayTracksCheckedSum(s: BoxState, m1: Image, m2: Image, events: seq<BoxEvent>)
    requires |s.acc| == |m1| == |m2|
    requires Unmask(s.acc) == CheckedSum(m1, s.on1, m2, s.on2)
    ensures var r := Replay(s, m1, m2, events);
      Unmask(r.acc) == CheckedSum(m1, r.on1, m2, r.on2)
    decreases |events|
  {
    if events != [] {
      match events[0]
      case SetFirst(v) =>
        if v != s.on1 {
          ToggleFirst(s.acc, m1, s.on1, m2, s.on2);
          ReplayTracksCheckedSum(BoxState(Toggle(s.acc, m1, v), v, s.on2), m1, m2, events[1..]);
        } else {
          ReplayTracksCheckedSum(s, m1, m2, events[1..]);
        }
      case SetSecond(v) =>
        if v != s.on2 {
          ToggleSecond(s.acc, m1, s.on1, m2, s.on2);
          ReplayTracksCheckedSum(BoxState(Toggle(s.acc, m2, v), s.on1, v), m1, m2, events[1..]);
        } else {
          ReplayTracksCheckedSum(s, m1, m2, events[1..]);
        }
    }
  }

  /** The script's initial state: both boxes unchecked and the accumulator `ee.Image(0)`. */
  lemma InitialStateConsistent(m1: Image, m2: Image)
    requires |m1| == |m2|
    ensures Unmask(Full(Zeros(|m1|))) == CheckedSum(m1, false, m2, false)
  {
  }

  /**
   * With two binary, disjoint masks the sum of the checked ones is 0 or 1 at
   * every pixel: 1 exactly where a checked box's mask is set.
   */
  lemma CheckedSumBinary(m1: Image, on1: bool, m2: Image, on2: bool, i: int)
    requires Binary(m1) && Binary(m2) && Disjoint(m1, m2)
    requires 0 <= i < |m1|
    ensures CheckedSum(m1, on1, m2, on2)[i] in {0, 1}
    ensures CheckedSum(m1, on1, m2, on2)[i] == 1 <==> (on1 && m1[i] == Some(1)) || (on2 && m2[i] == Some(1))
  {
  }

  /** `acc.updateMask(acc)`: the zero pixels of an accumulator become masked. */
  function MaskZeros(acc: Image): (r: Image)
    ensures |r| == |acc|
    ensures forall i :: 0 <= i < |acc| ==> (r[i].Some? <==> Keeps(acc[i])) && (r[i].Some? ==> r[i] == acc[i])
    ensures Unmask(r) == Unmask(acc)
  {
    UpdateMask(acc, acc)
  }

  /**
   * Lines 255 and 258 of the available-area button: where the land-cover
   * accumulator is 0 (or masked) the historical accumulator is set to 0;
   * the result is clipped to the country and its zero pixels are masked.
   */
  function Combine(restoration: Image, historical: Image, country: Region): (r: Image)
    requires |restoration| == |historical| == |country|
    ensures |r| == |country|
    ensures forall i :: 0 <= i < |country| ==>
              r[i] == if country[i] && Keeps(historical[i]) && Unmask(restoration)[i] != 0 then historical[i] else None
  {
    var aa := Where(historical, Eq(Full(Unmask(restoration)), 0), 0);
    UpdateMask(Clip(aa, country), aa)
  }

  /**
   * A pixel is available exactly where the land-cover accumulator and the
   * historical accumulator are both non-zero and the pixel is inside the
   * country; it then keeps the historical value. Every other pixel is masked.
   */
  lemma CombineExactly(restoration: Image, historical: Image, country: Region, i: int)
    requires |restoration| == |historical| == |country|
    requires 0 <= i < |country|
    ensures var a := Combine(MaskZeros(restoration), MaskZeros(historical), country);
      a[i] == if Keeps(restoration[i]) && Keeps(historical[i]) && country[i] then historical[i] else None
  {
  }

  /**
   * A pixel the selections ask for: its 2018 class is a checked land-cover
   * class, its 1992 class matches a checked restoration type, and it lies
   * in the country.
   */
  predicate Wanted(lc2018: Image, lc1992: Image, country: Region,
                   grass: bool, crop: bool, reforest: bool, afforest: bool, i: int)
    requires 0 <= i < |lc2018| == |lc1992| == |country|
  {
    && ((grass && lc2018[i] == Some(Grassland)) || (crop && lc2018[i] == Some(Cropland)))
    && ((reforest && lc1992[i] == Some(Forest)) || (afforest && lc1992[i].Some? && 2 <= lc1992[i].value <= 7))
    && country[i]
  }

  /**
   * The available area in terms of the boxes and the two land-cover years:
   * a pixel holds 1 exactly when the selections ask for it; every other
   * pixel is masked.
   */
  lemma AvailableFromSelections(lc2018: Image, lc1992: Image, country: Region,
                                grass: bool, crop: bool, reforest: bool, afforest: bool,
                                restoration: Image, historical: Image, i: int)
    requires |lc2018| == |lc1992| == |country| == |restoration| == |historical|
    requires Unmask(restoration) == CheckedSum(GrasslandMask(lc2018), grass, CroplandMask(lc2018), crop)
    requires Unmask(historical) == CheckedSum(HistoricalForestMask(lc1992), reforest, NotHistoricalForestMask(lc1992), afforest)
    requires 0 <= i < |country|
    ensures var a := Combine(MaskZeros(restoration), MaskZeros(historical), country);
      var wanted := Wanted(lc2018, lc1992, country, grass, crop, reforest, afforest, i);
      (a[i] == Some(1) <==> wanted) && (!wanted ==> a[i] == None)
  {
    MasksDisjoint(lc2018, lc1992);
    CheckedSumBinary(GrasslandMask(lc2018), grass, CroplandMask(lc2018), crop, i);
    CheckedSumBinary(HistoricalForestMask(lc1992), reforest, NotHistoricalForestMask(lc1992), afforest, i);
    assert Unmask(restoration)[i] == CheckedSum(GrasslandMask(lc2018), grass, CroplandMask(lc2018), crop)[i];
    assert Unmask(historical)[i] == CheckedSum(HistoricalForestMask(lc1992), reforest, NotHistoricalForestMask(lc1992), afforest)[i];
    CombineExactly(restoration, historical, country, i);
  }

  /** The same at every pixel at once. */
  lemma AvailableEverywhere(lc2018: Image, lc1992: Image, country: Region,
                            grass: bool, crop: bool, reforest: bool, afforest: bool,
                            restoration: Image, historical: Image)
    requires |lc2018| == |lc1992| == |country| == |restoration| == |historical|
    requires Unmask(restoration) == CheckedSum(GrasslandMask(lc2018), grass, CroplandMask(lc2018), crop)
    requires Unmask(historical) == CheckedSum(HistoricalForestMask(lc1992), reforest, NotHistoricalForestMask(lc1992), afforest)
    ensures var a := Combine(MaskZeros(restoration), MaskZeros(historical), country);
      forall i :: 0 <= i < |country| ==>
        (a[i] == Some(1) <==> Wanted(lc2018, lc1992, country, grass, crop, reforest, afforest, i)) &&
        (!Wanted(lc2018, lc1992, country, grass, crop, reforest, afforest, i) ==> a[i] == None)
  {
    forall i | 0 <= i < |country| {
      AvailableFromSelections(lc2018, lc1992, country, grass, crop, reforest, afforest, restoration, historical, i);
    }
  }

  /**
   * When no land-cover box or no restoration-type box is checked, nothing
   * is available: every pixel is masked.
   */
  lemma NothingCheckedNothingAvailable(lc2018: Image, lc1992: Image, country: Region,
                                       grass: bool, crop: bool, reforest: bool, afforest: bool,
                                       restoration: Image, historical: Image)
    requires |lc2018| == |lc1992| == |country| == |restoration| == |historical|
    requires Unmask(restoration) == CheckedSum(GrasslandMask(lc2018), grass, CroplandMask(lc2018), crop)
    requires Unmask(historical) == CheckedSum(HistoricalForestMask(lc1992), reforest, NotHistoricalForestMask(lc1992), afforest)
    requires (!grass && !crop) || (!reforest && !afforest)
    ensures forall i :: 0 <= i < |country| ==> Combine(MaskZeros(restoration), MaskZeros(historical), country)[i] == None
  {
    forall i | 0 <= i < |country|
      ensures Combine(MaskZeros(restoration), MaskZeros(historical), country)[i] == None
    {
      AvailableFromSelections(lc2018, lc1992, country, grass, crop, reforest, afforest, restoration, historical, i);
    }
  }
}
