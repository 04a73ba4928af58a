/**
 * The script's session state and its widget handlers.
 *
 * The script keeps its state in module-level variables that the widget
 * callbacks reassign: the four criteria checkboxes and the two
 * accumulators they update, the selected country and its six bounds, the
 * available area, the three slider weights, the three project parameters
 * and the eight result boxes. `PlanningTool` holds those variables as
 * fields and each callback as a method.
 */
module Session {
  import opened Raster
  import opened Landcover
  import opened Criteria
  import opened Bounds
  import opened Overlay
  import Species
  import Stats

  /** The datasets the script loads, on one grid of pixels. */
  datatype Datasets = Datasets(
    codes2018: Image,                  // ESA CCI land cover, band y2018
    codes1992: Image,                  // ESA CCI land cover, band y1992
    dist2forest: RealImage,            // distance to forest
    oppCost: RealImage,                // opportunity cost
    carbonAGB: RealImage,              // above-ground sequestration rate
    carbonBGB: RealImage,              // below-ground sequestration rate
    population: RealImage,             // WorldPop 2020
    pixelArea: seq<real>,              // `ee.Image.pixelArea()`, in square metres
    countries: seq<CountryShape>,      // the country boundaries collection
    distMinTable: seq<TableRow>,       // per-country minimum distance, field 'min'
    distMaxTable: seq<TableRow>,       // per-country 95th percentile distance, field 'p95'
    costTable: seq<TableRow>,          // per-country 'min_cost' and 'max_cost'
    rateTable: seq<TableRow>,          // per-country 'min_rate' and 'max_rate'
    species: seq<Species.Collection>)  // the 13 taxon collections, merged where the script merges

  /** All images share the grid of the land cover, and there are 13 species collections. */
  predicate WellFormed(d: Datasets) {
    var n := |d.codes2018|;
    |d.codes1992| == n && |d.dist2forest| == n && |d.oppCost| == n && |d.carbonAGB| == n &&
    |d.carbonBGB| == n && |d.population| == n && |d.pixelArea| == n &&
    (forall k :: 0 <= k < |d.countries| ==> |d.countries[k].inside| == n) &&
    |d.species| == |Species.StatusFields|
  }

  /** The six bounds `redraw` reads; None where the table has no value. */
  datatype CountryBounds = CountryBounds(minDist: Option<real>, maxDist: Option<real>,
                                         minCost: Option<real>, maxCost: Option<real>,
                                         minRate: Option<real>, maxRate: Option<real>)

  /** No bounds read yet. */
  const NoBounds := CountryBounds(None, None, None, None, None, None)

  /** The available area image and the footprint it was clipped to. */
  datatype AvailableArea = AvailableArea(pixels: Image, footprint: Region)

  /**
   * The eight result boxes; None is an empty box. The ratio box shows one
   * decimal, kept here as a number of tenths.
   */
  datatype ResultBoxes = ResultBoxes(area: Option<int>, species: Option<nat>, beneficiaries: Option<int>,
                                     agCarbon: Option<int>, bgCarbon: Option<int>,
                                     totalCost: Option<int>, totalReturn: Option<int>, ratioTenths: Option<int>)

  const EmptyBoxes := ResultBoxes(None, None, None, None, None, None, None, None)

  /**
   * Lines 1040-1075: the carbon boxes and the three financial boxes, filled
   * one after the other. A missing above-ground mean leaves all five as they
   * were, a missing below-ground mean all but the first.
   */
  method ShowTotals(shown: ResultBoxes, area: real, agMean: Option<real>, bgMean: Option<real>,
                    projectLength: real, averageCost: real, averageReturn: real) returns (r: ResultBoxes)
    ensures r.area == shown.area && r.species == shown.species && r.beneficiaries == shown.beneficiaries
    ensures agMean.None? ==> r == shown
    ensures agMean.Some? && bgMean.None? ==>
              r == shown.(agCarbon := Some(Stats.CarbonTotal(area, agMean.value, projectLength)))
    ensures agMean.Some? && bgMean.Some? ==>
              var cost := Stats.ProjectTotal(averageCost, projectLength, area);
              var ret := Stats.ProjectTotal(averageReturn, projectLength, area);
              && r.agCarbon == Some(Stats.CarbonTotal(area, agMean.value, projectLength))
              && r.bgCarbon == Some(Stats.CarbonTotal(area, bgMean.value, projectLength))
              && r.totalCost == Some(cost)
              && r.totalReturn == Some(ret)
              && r.ratioTenths == Some(Stats.OneDecimal(Stats.Ratio(ret, cost)))
  {
    r := shown;
    if agMean.Some? {
      r := r.(agCarbon := Some(Stats.CarbonTotal(area, agMean.value, projectLength)));
      if bgMean.Some? {
        r := r.(bgCarbon := Some(Stats.CarbonTotal(area, bgMean.value, projectLength)));
        var cost := Stats.ProjectTotal(averageCost, projectLength, area);
        r := r.(totalCost := Some(cost));
        var ret := Stats.ProjectTotal(averageReturn, projectLength, area);
        r := r.(totalReturn := Some(ret));
        r := r.(ratioTenths := Some(Stats.OneDecimal(Stats.Ratio(ret, cost))));
      }
    }
  }

  /** The analysis error for a missing bound, or the six values. */
  function AllBounds(b: CountryBounds): Option<LayerBounds> {
    if b.minDist.Some? && b.maxDist.Some? && b.minCost.Some? && b.maxCost.Some? &&
       b.minRate.Some? && b.maxRate.Some?
    then Some(LayerBounds(b.minDist.value, b.maxDist.value, b.minCost.value, b.maxCost.value,
                     b.minRate.value, b.maxRate.value))
    else None
  }

  class PlanningTool {
    const data: Datasets

    var grassChecked: bool
    var cropChecked: bool
    var reforestChecked: bool
    var afforestChecked: bool
    var restorationLandcover: Image
    var historicalLandcover: Image

    var selectedCountry: Option<Region>
    var bounds: CountryBounds

    var availableArea: Option<AvailableArea>

    var forestDistanceImportance: Weight
    var opportunityCostImportance: Weight
    var carbonSeqImportance: Weight

    var projectLength: real
    var averageCost: real
    var averageReturn: real

    var boxes: ResultBoxes

    /** The number of pixels of the grid. */
    function N(): nat { |data.codes2018| }

    /** Lines 127-128 and 186-190: the four criteria masks, derived once at the start. */
    const grassland: Image
    const cropland: Image
    const historicalForest: Image
    const notHistoricalForest: Image

    /** The masks are those of the reclassified land cover. */
    predicate MasksDerived() {
      && grassland == GrasslandMask(Reclassify2018(data.codes2018))
      && cropland == CroplandMask(Reclassify2018(data.codes2018))
      && historicalForest == HistoricalForestMask(Reclassify1992(data.codes1992))
      && notHistoricalForest == NotHistoricalForestMask(Reclassify1992(data.codes1992))
    }

    /**
     * The session invariant: every image is on the grid, and each
     * accumulator, unmasked to 0, is the sum of the masks of its checked boxes.
     */
    predicate Valid()
      reads this
    {
      WellFormed(data) &&
      |grassland| == |cropland| == |historicalForest| == |notHistoricalForest| == N() &&
      |restorationLandcover| == N() && |historicalLandcover| == N() &&
      Unmask(restorationLandcover) == CheckedSum(grassland, grassChecked, cropland, cropChecked) &&
      Unmask(historicalLandcover) == CheckedSum(historicalForest, reforestChecked, notHistoricalForest, afforestChecked) &&
      (selectedCountry.Some? ==> |selectedCountry.value| == N()) &&
      (availableArea.Some? ==> |availableArea.value.pixels| == N() && |availableArea.value.footprint| == N())
    }

    /** The four checkboxes. */
    function Checks(): (bool, bool, bool, bool)
      reads this
    {
      (grassChecked, cropChecked, reforestChecked, afforestChecked)
    }

    /** The country selection and its bounds. */
    function Country(): (Option<Region>, CountryBounds)
      reads this
    {
      (selectedCountry, bounds)
    }

    /** The three slider weights. */
    function Weights(): (Weight, Weight, Weight)
      reads this
    {
      (forestDistanceImportance, opportunityCostImportance, carbonSeqImportance)
    }

    /** The three project parameters. */
    function Parameters(): (real, real, real)
      reads this
    {
      (projectLength, averageCost, averageReturn)
    }

    /** The script's start: nothing selected, the accumulators `ee.Image(0)`, defaults in the textboxes. */
    constructor (d: Datasets)
      requires WellFormed(d)
      ensures Valid() && MasksDerived()
      ensures data == d
      ensures Checks() == (false, false, false, false)
      ensures restorationLandcover == Full(Zeros(|d.codes2018|)) && historicalLandcover == Full(Zeros(|d.codes2018|))
      ensures Country() == (None, NoBounds) && availableArea == None
      ensures Weights() == (0, 0, 0)
      ensures Parameters() == (Stats.DefaultLength, Stats.DefaultCost, Stats.DefaultReturn)
      ensures boxes == EmptyBoxes
    {
      data := d;
      grassland := GrasslandMask(Reclassify2018(d.codes2018));
      cropland := CroplandMask(Reclassify2018(d.codes2018));
      historicalForest := HistoricalForestMask(Reclassify1992(d.codes1992));
      notHistoricalForest := NotHistoricalForestMask(Reclassify1992(d.codes1992));
      grassChecked, cropChecked, reforestChecked, afforestChecked := false, false, false, false;
      restorationLandcover := Full(Zeros(|d.codes2018|));
      historicalLandcover := Full(Zeros(|d.codes2018|));
      selectedCountry, bounds := None, NoBounds;
      availableArea := None;
      forestDistanceImportance, opportunityCostImportance, carbonSeqImportance := 0, 0, 0;
      projectLength, averageCost, averageReturn := Stats.DefaultLength, Stats.DefaultCost, Stats.DefaultReturn;
      boxes := EmptyBoxes;
      new;
      InitialStateConsistent(grassland, cropland);
      InitialStateConsistent(historicalForest, notHistoricalForest);
    }

    /**
     * Lines 82-108, the country dropdown's `redraw`: the first shape of the
     * country and the first table row of the country for each bound.
     */
    method Redraw(name: string)
      requires Valid()
      modifies this
      ensures Valid()
      ensures selectedCountry == CountryGeometry(data.countries, name)
      ensures bounds == CountryBounds(Bound(data.distMinTable, name, "min"), Bound(data.distMaxTable, name, "p95"),
                                      Bound(data.costTable, name, "min_cost"), Bound(data.costTable, name, "max_cost"),
                                      Bound(data.rateTable, name, "min_rate"), Bound(data.rateTable, name, "max_rate"))
      ensures Checks() == old(Checks()) && restorationLandcover == old(restorationLandcover)
      ensures historicalLandcover == old(historicalLandcover) && availableArea == old(availableArea)
      ensures Weights() == old(Weights()) && Parameters() == old(Parameters()) && boxes == old(boxes)
    {
      selectedCountry := CountryGeometry(data.countries, name);
      var minDist := Bound(data.distMinTable, name, "min");
      var maxDist := Bound(data.distMaxTable, name, "p95");
      var minCost := Bound(data.costTable, name, "min_cost");
      var maxCost := Bound(data.costTable, name, "max_cost");
      var minRate := Bound(data.rateTable, name, "min_rate");
      var maxRate := Bound(data.rateTable, name, "max_rate");
      bounds := CountryBounds(minDist, maxDist, minCost, maxCost, minRate, maxRate);
    }

    /** Lines 143-153: setting the grassland box; the handler runs only when the value changes. */
    method SetGrassland(checked: bool)
      requires Valid()
      modifies this
      ensures Valid()
      ensures Checks() == (checked, old(cropChecked), old(reforestChecked), old(afforestChecked))
      ensures restorationLandcover ==
        if checked == old(grassChecked) then old(restorationLandcover)
        else Toggle(old(restorationLandcover), grassland, checked)
      ensures historicalLandcover == old(historicalLandcover) && Country() == old(Country())
      ensures availableArea == old(availableArea) && Weights() == old(Weights())
      ensures Parameters() == old(Parameters()) && boxes == old(boxes)
    {
      if checked != grassChecked {
        ToggleFirst(restorationLandcover, grassland, grassChecked, cropland, cropChecked);
        if checked {
          restorationLandcover := Full(Add(Unmask(restorationLandcover), Unmask(grassland)));
        } else {
          restorationLandcover := Full(Subtract(Unmask(restorationLandcover), Unmask(grassland)));
        }
        grassChecked := checked;
      }
    }

    /** Lines 156-167: setting the cropland box. */
    method SetCropland(checked: bool)
      requires Valid()
      modifies this
      ensures Valid()
      ensures Checks() == (old(grassChecked), checked, old(reforestChecked), old(afforestChecked))
      ensures restorationLandcover ==
        if checked == old(cropChecked) then old(restorationLandcover)
        else Toggle(old(restorationLandcover), cropland, checked)
      ensures historicalLandcover == old(historicalLandcover) && Country() == old(Country())
      ensures availableArea == old(availableArea) && Weights() == old(Weights())
      ensures Parameters() == old(Parameters()) && boxes == old(boxes)
    {
      if checked != cropChecked {
        ToggleSecond(restorationLandcover, grassland, grassChecked, cropland, cropChecked);
        if checked {
          restorationLandcover := Full(Add(Unmask(restorationLandcover), Unmask(cropland)));
        } else {
          restorationLandcover := Full(Subtract(Unmask(restorationLandcover), Unmask(cropland)));
        }
        cropChecked := checked;
      }
    }

    /** Lines 199-209: setting the reforestation box. */
    method SetReforestation(checked: bool)
      requires Valid()
      modifies this
      ensures Valid()
      ensures Checks() == (old(grassChecked), old(cropChecked), checked, old(afforestChecked))
      ensures historicalLandcover ==
        if checked == old(reforestChecked) then old(historicalLandcover)
        else Toggle(old(historicalLandcover), historicalForest, checked)
      ensures restorationLandcover == old(restorationLandcover) && Country() == old(Country())
      ensures availableArea == old(availableArea) && Weights() == old(Weights())
      ensures Parameters() == old(Parameters()) && boxes == old(boxes)
    {
      if checked != reforestChecked {
        ToggleFirst(historicalLandcover, historicalForest, reforestChecked, notHistoricalForest, afforestChecked);
        if checked {
          historicalLandcover := Full(Add(Unmask(historicalLandcover), Unmask(historicalForest)));
        } else {
          historicalLandcover := Full(Subtract(Unmask(historicalLandcover), Unmask(historicalForest)));
        }
        reforestChecked := checked;
      }
    }

    /** Lines 212-222: setting the afforestation box. */
    method SetAfforestation(checked: bool)
      requires Valid()
      modifies this
      ensures Valid()
      ensures Checks() == (old(grassChecked), old(cropChecked), old(reforestChecked), checked)
      ensures historicalLandcover ==
        if checked == old(afforestChecked) then old(historicalLandcover)
        else Toggle(old(historicalLandcover), notHistoricalForest, checked)
      ensures restorationLandcover == old(restorationLandcover) && Country() == old(Country())
      ensures availableArea == old(availableArea) && Weights() == old(Weights())
      ensures Parameters() == old(Parameters()) && boxes == old(boxes)
    {
      if checked != afforestChecked {
        ToggleSecond(historicalLandcover, historicalForest, reforestChecked, notHistoricalForest, afforestChecked);
        if checked {
          historicalLandcover := Full(Add(Unmask(historicalLandcover), Unmask(notHistoricalForest)));
        } else {
          historicalLandcover := Full(Subtract(Unmask(historicalLandcover), Unmask(notHistoricalForest)));
        }
        afforestChecked := checked;
      }
    }

    /** Lines 327-329: the forest distance slider. */
    method SetForestDistanceImportance(w: Weight)
      requires Valid()
      modifies this
      ensures Valid()
      ensures Weights() == (w, old(opportunityCostImportance), old(carbonSeqImportance))
      ensures Checks() == old(Checks()) && restorationLandcover == old(restorationLandcover)
      ensures historicalLandcover == old(historicalLandcover) && Country() == old(Country())
      ensures availableArea == old(availableArea) && Parameters() == old(Parameters()) && boxes == old(boxes)
    {
      forestDistanceImportance := w;
    }

    /** Lines 399-401: the opportunity cost slider. */
    method SetOpportunityCostImportance(w: Weight)
      requires Valid()
      modifies this
      ensures Valid()
      ensures Weights() == (old(forestDistanceImportance), w, old(carbonSeqImportance))
      ensures Checks() == old(Checks()) && restorationLandcover == old(restorationLandcover)
      ensures historicalLandcover == old(historicalLandcover) && Country() == old(Country())
      ensures availableArea == old(availableArea) && Parameters() == old(Parameters()) && boxes == old(boxes)
    {
      opportunityCostImportance := w;
    }

    /** Lines 470-472: the carbon sequestration slider. */
    method SetCarbonSeqImportance(w: Weight)
      requires Valid()
      modifies this
      ensures Valid()
      ensures Weights() == (old(forestDistanceImportance), old(opportunityCostImportance), w)
      ensures Checks() == old(Checks()) && restorationLandcover == old(restorationLandcover)
      ensures historicalLandcover == old(historicalLandcover) && Country() == old(Country())
      ensures availableArea == old(availableArea) && Parameters() == old(Parameters()) && boxes == old(boxes)
    {
      carbonSeqImportance := w;
    }

    /** Lines 770-772: the project length textbox. */
    method SetProjectLength(years: real)
      requires Valid()
      modifies this
      ensures Valid()
      ensures Parameters() == (years, old(averageCost), old(averageReturn))
      ensures Checks() == old(Checks()) && restorationLandcover == old(restorationLandcover)
      ensures historicalLandcover == old(historicalLandcover) && Country() == old(Country())
      ensures availableArea == old(availableArea) && Weights() == old(Weights()) && boxes == old(boxes)
    {
      projectLength := years;
    }

    /** Lines 787-789: the average cost textbox. */
    method SetAverageCost(perHaYear: real)
      requires Valid()
      modifies this
      ensures Valid()
      ensures Parameters() == (old(projectLength), perHaYear, old(averageReturn))
      ensures Checks() == old(Checks()) && restorationLandcover == old(restorationLandcover)
      ensures historicalLandcover == old(historicalLandcover) && Country() == old(Country())
      ensures availableArea == old(availableArea) && Weights() == old(Weights()) && boxes == old(boxes)
    {
      averageCost := perHaYear;
    }

    /** Lines 804-806: the average return textbox. */
    method SetAverageReturn(perHaYear: real)
      requires Valid()
      modifies this
      ensures Valid()
      ensures Parameters() == (old(projectLength), old(averageCost), perHaYear)
      ensures Checks() == old(Checks()) && restorationLandcover == old(restorationLandcover)
      ensures historicalLandcover == old(historicalLandcover) && Country() == old(Country())
      ensures availableArea == old(availableArea) && Weights() == old(Weights()) && boxes == old(boxes)
    {
      averageReturn := perHaYear;
    }

    /**
     * Lines 244-258, the "Display Available Area" button: the accumulators
     * get their zeros masked, and the available area is their combination
     * clipped to the selected country. Without a country `clip(null)`
     * leaves no usable image.
     */
    method DisplayAvailableArea()
      requires Valid() && MasksDerived()
      modifies this
      ensures Valid()
      ensures restorationLandcover == MaskZeros(old(restorationLandcover))
      ensures historicalLandcover == MaskZeros(old(historicalLandcover))
      ensures availableArea ==
        if selectedCountry.None? then None
        else Some(AvailableArea(Combine(restorationLandcover, historicalLandcover, selectedCountry.value),
                                selectedCountry.value))
      ensures availableArea.Some? ==> forall i :: 0 <= i < N() ==>
        var wanted := Wanted(Reclassify2018(data.codes2018), Reclassify1992(data.codes1992), selectedCountry.value,
                             grassChecked, cropChecked, reforestChecked, afforestChecked, i);
        (availableArea.value.pixels[i] == Some(1) <==> wanted) && (!wanted ==> availableArea.value.pixels[i] == None)
      ensures availableArea.Some? ==> availableArea.value.footprint == selectedCountry.value
      ensures Checks() == old(Checks()) && Country() == old(Country())
      ensures Weights() == old(Weights()) && Parameters() == old(Parameters()) && boxes == old(boxes)
    {
      var before, hBefore := restorationLandcover, historicalLandcover;
      restorationLandcover := MaskZeros(restorationLandcover);
      historicalLandcover := MaskZeros(historicalLandcover);
      if selectedCountry.Some? {
        var country := selectedCountry.value;
        availableArea := Some(AvailableArea(Combine(restorationLandcover, historicalLandcover, country), country));
        AvailableEverywhere(Reclassify2018(data.codes2018), Reclassify1992(data.codes1992), country,
                            grassChecked, cropChecked, reforestChecked, afforestChecked, before, hBefore);
      } else {
        availableArea := None;
      }
    }

    /**
     * Lines 543-583, the "Run Analysis" button: the priority image of the
     * current selections, or why there is none. The layers are clipped to
     * the country selected now, which need not be the one the available
     * area was displayed for. It changes no variable; the image goes on the map.
     */
    method RunAnalysis() returns (r: Result<RealImage, AnalysisError>)
      requires Valid()
      ensures selectedCountry.None? ==> r == Err(NoCountry)
      ensures selectedCountry.Some? && AllBounds(bounds).None? ==> r == Err(MissingBounds)
      ensures selectedCountry.Some? && AllBounds(bounds).Some? && availableArea.None? ==> r == Err(NoAvailableArea)
      ensures selectedCountry.Some? && AllBounds(bounds).Some? && availableArea.Some? ==>
        r == Priority(data.dist2forest, data.oppCost, data.carbonAGB, selectedCountry.value, AllBounds(bounds).value,
                      forestDistanceImportance, opportunityCostImportance, carbonSeqImportance,
                      availableArea.value.pixels)
      ensures r.Ok? ==>
        && |r.value| == N()
        && (forall i :: 0 <= i < N() ==>
              (r.value[i].Some? <==> Keeps(availableArea.value.pixels[i]) && selectedCountry.value[i]))
        && (forall i :: 0 <= i < N() && r.value[i].Some? ==> 0.0 <= r.value[i].value <= 1.0)
    {
      if selectedCountry.None? {
        return Err(NoCountry);
      }
      var b := AllBounds(bounds);
      if b.None? {
        return Err(MissingBounds);
      }
      if availableArea.None? {
        return Err(NoAvailableArea);
      }
      r := Priority(data.dist2forest, data.oppCost, data.carbonAGB, selectedCountry.value, b.value,
                    forestDistanceImportance, opportunityCostImportance, carbonSeqImportance, availableArea.value.pixels);
      if r.Ok? {
        PriorityInUnitInterval(data.dist2forest, data.oppCost, data.carbonAGB, selectedCountry.value, b.value,
                               forestDistanceImportance, opportunityCostImportance, carbonSeqImportance,
                               availableArea.value.pixels);
      }
    }

    /**
     * Lines 620-640, the "Reset" button: the four boxes are unchecked
     * (running their handlers only where they were checked, on the
     * assumption that a checkbox fires only on a change) and the sliders set to
     * 0. The dropdown is cleared without running `redraw`, so the country,
     * its bounds and the available area stay as they were.
     */
    method Reset()
      requires Valid()
      modifies this
      ensures Valid()
      ensures Checks() == (false, false, false, false) && Weights() == (0, 0, 0)
      ensures Unmask(restorationLandcover) == Zeros(N()) && Unmask(historicalLandcover) == Zeros(N())
      ensures Country() == old(Country()) && availableArea == old(availableArea)
      ensures Parameters() == old(Parameters()) && boxes == old(boxes)
    {
      SetGrassland(false);
      SetCropland(false);
      SetReforestation(false);
      SetAfforestation(false);
      SetForestDistanceImportance(0);
      SetOpportunityCostImportance(0);
      SetCarbonSeqImportance(0);
      assert Unmask(restorationLandcover) == CheckedSum(grassland, false, cropland, false);
    }

    /**
     * Lines 694-708, clearing the drawings: every result box is emptied.
     */
    method ClearGeometry()
      requires Valid()
      modifies this
      ensures Valid()
      ensures boxes == EmptyBoxes
      ensures Checks() == old(Checks()) && restorationLandcover == old(restorationLandcover)
      ensures historicalLandcover == old(historicalLandcover) && Country() == old(Country())
      ensures availableArea == old(availableArea) && Weights() == old(Weights()) && Parameters() == old(Parameters())
    {
      boxes := EmptyBoxes;
    }

    /**
     * Lines 988-1076, run when an area is drawn: the result boxes are filled
     * one after the other. Without an available area the first step fails
     * and no box changes; when the drawn area misses the country the mean
     * rates are null, so the boxes from the carbon totals on keep their old
     * values.
     */
    method CalculateStats(aoi: Region)
      requires Valid()
      requires |aoi| == N()
      modifies this
      ensures Valid()
      ensures availableArea.None? ==> boxes == old(boxes)
      ensures availableArea.Some? ==>
        var fp := Stats.Intersection(availableArea.value.footprint, aoi);
        var area := Stats.RestorationArea(availableArea.value.pixels, data.pixelArea, fp);
        && boxes.area == Some(Stats.Round(area))
        && boxes.species == Some(Species.SpeciesCount(data.species, aoi))
        && boxes.beneficiaries == Some(Stats.Beneficiaries(data.population, fp))
        && ((forall i :: 0 <= i < N() ==> !fp[i]) ==>
              && boxes.agCarbon == old(boxes).agCarbon && boxes.bgCarbon == old(boxes).bgCarbon
              && boxes.totalCost == old(boxes).totalCost && boxes.totalReturn == old(boxes).totalReturn
              && boxes.ratioTenths == old(boxes).ratioTenths)
        && ((exists i :: 0 <= i < N() && fp[i]) ==>
              var cost := Stats.ProjectTotal(averageCost, projectLength, area);
              var ret := Stats.ProjectTotal(averageReturn, projectLength, area);
              && boxes.agCarbon == Some(Stats.CarbonTotal(area, Stats.MeanRate(data.carbonAGB, fp).value, projectLength))
              && boxes.bgCarbon == Some(Stats.CarbonTotal(area, Stats.MeanRate(data.carbonBGB, fp).value, projectLength))
              && boxes.totalCost == Some(cost)
              && boxes.totalReturn == Some(ret)
              && boxes.ratioTenths == Some(Stats.OneDecimal(Stats.Ratio(ret, cost))))
      ensures Checks() == old(Checks()) && restorationLandcover == old(restorationLandcover)
      ensures historicalLandcover == old(historicalLandcover) && Country() == old(Country())
      ensures availableArea == old(availableArea) && Weights() == old(Weights()) && Parameters() == old(Parameters())
    {
      if availableArea.None? {
        return;
      }
      var available := availableArea.value;
      var fp := Stats.Intersection(available.footprint, aoi);
      var area := Stats.RestorationArea(available.pixels, data.pixelArea, fp);
      var shown := boxes;
      shown := shown.(area := Some(Stats.Round(area)));
      shown := shown.(species := Some(Species.SpeciesCount(data.species, aoi)));
      shown := shown.(beneficiaries := Some(Stats.Beneficiaries(data.population, fp)));
      var agMean := Stats.MeanRate(data.carbonAGB, fp);
      var bgMean := Stats.MeanRate(data.carbonBGB, fp);
      boxes := ShowTotals(shown, area, agMean, bgMean, projectLength, averageCost, averageReturn);
    }
  }
}
