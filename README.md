# Spatial planning tool: a Dafny model of its decision pipeline

The Spatial Planning Tool is one Earth Engine script. It helps plan forest
restoration in a chosen country. The user:

- picks a country;
- ticks the current land covers to restore (grassland, cropland);
- ticks the restoration types (reforestation of land that was forest in
  1992, afforestation of land that was not);
- displays the resulting available area;
- weighs three priority layers (distance to forest, opportunity cost,
  carbon sequestration rate) on sliders from 0 to 5;
- runs a weighted overlay;
- draws a project area and reads eight statistics.

Under the widgets sits a small raster pipeline. This project models that
pipeline. A raster is a sequence of pixels on one grid, and each pixel is
masked (`None`) or holds a value. A country or a drawn area is a sequence
of booleans on the same grid.

Modules:

- `Raster`: the Earth Engine image operations the script uses, pixel by
  pixel. These are `remap`, `eq`, `updateMask`, `unmask`, `add`,
  `subtract`, `where` and `clip`.
- `Landcover`: the 37-entry reclassification table, and the four masks
  derived from it. The table is proved equal to a range-by-range
  classification of the codes.
- `Criteria`: the two checkbox accumulators and the available-area
  combination. The key invariant is that each accumulator, unmasked to 0,
  equals the sum of the masks of its checked boxes. This holds after any
  sequence of clicks, and the sum stays in {0, 1}.
- `Bounds`: the per-country lookups of `redraw`. Each one takes the first
  row of a table whose country name matches.
- `Overlay`: unit scaling, inversion, weighting, `unmask()`, the sum, and
  the re-scaling by the minimum and maximum over the available area. The
  analysis errors the script runs into are modelled as a `Result`.
- `Species`: the threatened-species count, as distinct names per taxon
  collection summed over 13 collections.
- `Stats`: the arithmetic of `calculateStats`. This covers area, sums,
  means, rounding, and the totals and their ratio.
- `Session`: the script's module-level variables, as the fields of the
  class `PlanningTool`. Each widget callback is a method. Its contract
  gives the whole abstract new state and keeps the accumulator invariant.
  For the accumulators that abstract state is their value with masked
  pixels read as 0, which is all any later callback reads. `Reset` in
  particular promises only that both accumulators read as 0.

All source references are to `SpatialPlanningTool.js`.

Where behaviour may surprise a reader, the model follows the code:

- `unitScale` does not clamp. The distance maximum is the 95th percentile
  (line 95), so a distance above it scales past 1, and its inverse goes
  below 0.
- `ee.Number.divide` yields 0 for a zero divisor. When the rounded cost is
  0 the ratio box therefore shows `0.0`, not "not available".
- The Reset button clears the dropdown with `setValue(null, false)`, which
  does not run `redraw`. The selected country, its bounds, the available
  area and the result boxes survive a reset.
- The model assumes that a checkbox runs its `onChange` handler only when
  its value actually changes. Reset's `setValue(false)` on the four boxes
  (lines 626-629) then fires a handler only for a box that was checked, and
  that handler subtracts the box's mask once. `Criteria.Replay` and
  `Session.PlanningTool.Reset` rest on this widget behaviour. It is not
  visible in the script, and a widget that fired on an unchanged value
  would subtract a mask that was never added.
- The unscaled sum has no guard for an empty range. With all weights 0, or
  with a single available pixel, its minimum equals its maximum. The script
  has no guard for a zero range, and what `unitScale` returns then is not
  modelled; the model reports `ZeroRange`.
- The three layers are clipped to the country selected when the analysis
  runs, and `unmask()` keeps that clip, so the sum is masked outside it.
  Choosing another country does not recompute the available area. An
  available area displayed for the previous country therefore gives a
  priority only where it overlaps the new country, and none when the two
  do not overlap.
- The population sum and the mean carbon rates are reduced over the
  geometry of `availableArea.clip(aoi)`, which is the country intersected
  with the drawn area. They are not restricted to the available pixels.
  Only the area sum uses the available-area mask itself.
- The species count uses the whole drawn area, not the available part.

## Model

| member | source | states |
|---|---|---|
| Raster.LookupFirstMatch | SpatialPlanningTool.js:123-124 | a table lookup finds a value exactly when the code is listed, and the value is the target of the first entry for that code |
| Raster.Remap | SpatialPlanningTool.js:123-124 | a pixel keeps a value exactly when it is present and its value is listed; the value is the target of the first matching entry |
| Raster.Eq | SpatialPlanningTool.js:127-128 | masked stays masked; a present pixel is non-zero exactly when it equals the constant |
| Raster.UpdateMask | SpatialPlanningTool.js:127-128 | a pixel survives exactly when it is present and the mask is present and non-zero there; survivors keep their value |
| Raster.UpdateMaskIdempotent | SpatialPlanningTool.js:246-249 | masking by the same mask a second time changes nothing |
| Raster.Unmask | SpatialPlanningTool.js:147 | no pixel is masked afterwards: present pixels keep their value and masked ones read 0 |
| Raster.Full | SpatialPlanningTool.js:147 | an image with no masked pixel, which `unmask(0)` reads back unchanged |
| Raster.Add | SpatialPlanningTool.js:147 | subtracting the second operand from the sum gives back the first |
| Raster.Subtract | SpatialPlanningTool.js:151 | adding the second operand back to the difference gives the first, pixel by pixel |
| Raster.Where | SpatialPlanningTool.js:255 | a masked input stays masked; a present input is replaced by the value exactly where the test is present and non-zero |
| Raster.Clip | SpatialPlanningTool.js:258 | a pixel survives exactly when it is present and inside the region, and keeps its value |
| Raster.ClipTwice | SpatialPlanningTool.js:993 | clipping a clipped image is clipping to the intersection of the two regions |
| Landcover.TablesAgree | SpatialPlanningTool.js:123-124 | both tables have 37 entries, and the 1992 table equals the 2018 table |
| Landcover.TableByRuns | SpatialPlanningTool.js:123-124 | looking a code up in the table gives exactly its range class (codes 10-40 to class 3, 50-100 to 1, 110-153 to 2, 160-180 to 4, 190 to 5, 200-202 and 220 to 6, 210 to 7, any other code masked) |
| Landcover.ReclassifyByRange | SpatialPlanningTool.js:182-183 | both years' tables classify every code as the range classification does |
| Landcover.Reclassify2018 | SpatialPlanningTool.js:123-124 | each pixel of the 2018 image becomes its code's class; a masked or unlisted code becomes masked |
| Landcover.Reclassify1992 | SpatialPlanningTool.js:182-183 | the same for the 1992 image |
| Landcover.ClassesInRange | SpatialPlanningTool.js:123-124 | every classified pixel holds a class in 1..7, and the two years classify alike |
| Landcover.GrasslandMask | SpatialPlanningTool.js:127 | 1 exactly where the 2018 class is 2, masked elsewhere |
| Landcover.CroplandMask | SpatialPlanningTool.js:128 | 1 exactly where the 2018 class is 3, masked elsewhere |
| Landcover.HistoricalForestMask | SpatialPlanningTool.js:186 | 1 exactly where the 1992 class is 1, masked elsewhere |
| Landcover.NotForestTable | SpatialPlanningTool.js:189 | the remap of line 189 sends class 1 to 0, classes 2..7 to 1, and anything else to masked |
| Landcover.NotHistoricalForestMask | SpatialPlanningTool.js:189-190 | 1 exactly where the 1992 class is in 2..7, masked elsewhere |
| Landcover.MasksDisjoint | SpatialPlanningTool.js:127-128 | all four masks are binary; grassland and cropland never share a pixel, and neither do historical forest and non-forest |
| Landcover.HistoricalMasksCover | SpatialPlanningTool.js:186-190 | every classified 1992 pixel is in exactly one of the two historical masks |
| Criteria.Toggle | SpatialPlanningTool.js:144-153 | after a handler no pixel of the accumulator is masked, and each pixel, with masked read as 0, moves up by the mask when the box is checked and down when it is unchecked |
| Criteria.CheckThenUncheck | SpatialPlanningTool.js:144-153 | checking and then unchecking a box, or the reverse, restores every pixel of the accumulator, with masked pixels read as 0 |
| Criteria.ToggleFirst | SpatialPlanningTool.js:144-153 | flipping the first box keeps "the accumulator is the sum of the checked masks" |
| Criteria.ToggleSecond | SpatialPlanningTool.js:158-167 | flipping the second box keeps the same invariant |
| Criteria.Replay | SpatialPlanningTool.js:143-167 | after a sequence of clicks each box holds the value it was last set to (its old value when never set), and no clicks change nothing |
| Criteria.ReplayTracksCheckedSum | SpatialPlanningTool.js:200-222 | after any sequence of box clicks, the accumulator equals the sum of the masks of the boxes checked at the end |
| Criteria.InitialStateConsistent | SpatialPlanningTool.js:138-140 | the starting `ee.Image(0)` with no box checked satisfies the invariant |
| Criteria.CheckedSumBinary | SpatialPlanningTool.js:147-165 | with binary, disjoint masks every pixel of the sum is 0 or 1, and it is 1 exactly where a checked box's mask is set |
| Criteria.MaskZeros | SpatialPlanningTool.js:246-249 | `acc.updateMask(acc)` keeps exactly the present non-zero pixels and leaves the unmasked values unchanged |
| Criteria.Combine | SpatialPlanningTool.js:255-258 | a pixel keeps the historical value exactly when it lies in the country, the historical accumulator is present and non-zero there, and the land-cover accumulator, with masked read as 0, is non-zero; every other pixel is masked |
| Criteria.CombineExactly | SpatialPlanningTool.js:255-258 | a pixel is kept exactly when both accumulators are non-zero there and it lies in the country; it then holds the historical value |
| Criteria.AvailableFromSelections | SpatialPlanningTool.js:244-258 | a pixel of the available area is 1 exactly when its 2018 class matches a checked land cover, its 1992 class matches a checked restoration type, and it lies in the country; every other pixel is masked |
| Criteria.AvailableEverywhere | SpatialPlanningTool.js:244-258 | the same at every pixel at once |
| Criteria.NothingCheckedNothingAvailable | SpatialPlanningTool.js:255-258 | with no land-cover box, or no restoration-type box, checked, every pixel of the available area is masked |
| Bounds.FirstRow | SpatialPlanningTool.js:94-107 | the filter-then-`first()` finds nothing exactly when no row names the country; otherwise it finds a matching row with no match before it |
| Bounds.FirstIndex | SpatialPlanningTool.js:94-107 | the first position holding the name, if any; nothing exactly when the name is absent |
| Bounds.Bound | SpatialPlanningTool.js:94-107 | without a row for the country the bound is missing; a found bound is the field of the first row naming the country |
| Bounds.BoundFromFirstRow | SpatialPlanningTool.js:94-107 | a bound is the field of the first matching row, or missing when that row lacks the field |
| Bounds.LaterRowsIgnored | SpatialPlanningTool.js:94-107 | rows after the first match never change a bound |
| Bounds.CountryGeometry | SpatialPlanningTool.js:83 | the country geometry is that of the first shape with the name, and is missing exactly when no shape bears it |
| Overlay.UnitScale | SpatialPlanningTool.js:547 | the scaled value is the fraction of the way from the minimum to the maximum: times (max - min) it gives x - min, with no clamping |
| Overlay.ClipReal | SpatialPlanningTool.js:547-561 | `clip(selectedCountry)` keeps a pixel exactly inside the country and masks every other pixel |
| Overlay.ScaleImage | SpatialPlanningTool.js:547-561 | a scaled image is present exactly where the input is, and each present pixel is its unit-scaled value |
| Overlay.Invert | SpatialPlanningTool.js:550-557 | `ee.Image(1).subtract(x)` is present exactly where x is, with value 1 - x |
| Overlay.Times | SpatialPlanningTool.js:565-569 | `multiply(weight)` is present exactly where the layer is, with value the weight times the layer value |
| Overlay.UnitScaleEnds | SpatialPlanningTool.js:547 | unit scaling sends the minimum to 0 and the maximum to 1 |
| Overlay.UnitScaleMonotone | SpatialPlanningTool.js:547-557 | unit scaling is strictly increasing, and the inverted `1 - x` layers are strictly decreasing |
| Overlay.UnitScaleInside | SpatialPlanningTool.js:561 | a value between the bounds scales into [0, 1] |
| Overlay.UnitScaleNotClamped | SpatialPlanningTool.js:95 | a value above the maximum (the 95th-percentile distance) scales above 1, and its inverse below 0 |
| Overlay.UnmaskWithin | SpatialPlanningTool.js:572 | `unmask()` gives a value exactly inside the footprint: the present value, or 0 where the pixel was masked |
| Overlay.Sum3 | SpatialPlanningTool.js:572 | the sum of three layers is present exactly where all three are |
| Overlay.MaskTo | SpatialPlanningTool.js:575-583 | a pixel survives `updateMask(availableArea)` exactly when it is present and the available area is present and non-zero there |
| Overlay.Layer | SpatialPlanningTool.js:547-572 | a weighted layer is defined exactly on the country |
| Overlay.LayerIsContribution | SpatialPlanningTool.js:547-572 | inside the country each pixel of a weighted layer is weight times the (inverted) scaled value, and 0 where the layer has no data; outside the country the pixel is masked |
| Overlay.UnscaledIsSumOfContributions | SpatialPlanningTool.js:565-572 | inside the country each pixel of the unscaled sum is the sum of the three contributions, and a layer without data adds 0; outside the country the sum is masked |
| Overlay.Unscaled | SpatialPlanningTool.js:572 | the unscaled sum is defined exactly on the country |
| Overlay.ZeroWeightsZeroSum | SpatialPlanningTool.js:565-572 | with all weights 0 the unscaled sum is 0 at every pixel of the country |
| Overlay.MinMax | SpatialPlanningTool.js:575-580 | the reduction finds nothing exactly when every pixel is masked; otherwise every present pixel lies between the two values, and both values occur |
| Overlay.Priority | SpatialPlanningTool.js:543-583 | a zero range among the six bounds fails with `ZeroRange`; the analysis fails with `NoAvailablePixels` exactly when the bounds are proper and no available pixel lies in the country; a result covers the grid |
| Overlay.PriorityInUnitInterval | SpatialPlanningTool.js:575-583 | a priority pixel is defined exactly on the available pixels of the current country, lies in [0, 1], and some pixel is 0 and some is 1 |
| Overlay.PriorityPreservesOrder | SpatialPlanningTool.js:583 | the re-scaling keeps the order of the unscaled values of any two available pixels of the country |
| Overlay.ZeroWeightsNoPriority | SpatialPlanningTool.js:565-583 | with all weights 0 the analysis fails with an empty range whenever some available pixel lies in the country |
| Overlay.OtherCountryNoPriority | SpatialPlanningTool.js:575-583 | an available area that lies outside the current country gives no priority: the analysis fails with `NoAvailablePixels` |
| Overlay.SinglePixelExample | SpatialPlanningTool.js:547-583 | distance 250 on bounds 0..1000 with weight 5 gives 3.75 unscaled, and a single available pixel makes the re-scaling fail |
| Species.GroupCount | SpatialPlanningTool.js:968-980 | the size of a collection's dictionary of names is 0 exactly when no feature of the collection qualifies |
| Species.Names | SpatialPlanningTool.js:968-980 | a name is counted exactly when some feature with that name touches the area and has status CR, EN or VU in the collection's field |
| Species.MergeNames | SpatialPlanningTool.js:968-980 | the names of merged collections are the union of their names |
| Species.MergeCountsSharedOnce | SpatialPlanningTool.js:968-980 | the count of a merge is the sum of the counts less the shared names |
| Species.DuplicateCountsOnce | SpatialPlanningTool.js:968-980 | a further feature of a species already counted leaves the count unchanged |
| Species.UnqualifiedIgnored | SpatialPlanningTool.js:968-980 | a feature outside the area or with another status changes nothing, wherever it is inserted |
| Species.LargerAreaNoFewer | SpatialPlanningTool.js:968-980 | a larger area counts at least the same names |
| Species.Total | SpatialPlanningTool.js:981 | the summed count is at least the count of every collection |
| Species.TotalSingle | SpatialPlanningTool.js:981 | the total of one collection is its own count |
| Species.TotalAppend | SpatialPlanningTool.js:981 | the total over two runs of collections is the sum of their totals, so counts are added and never united |
| Species.TotalIsSumOfCounts | SpatialPlanningTool.js:981 | the total is the plain sum of the per-collection counts |
| Species.TotalMonotone | SpatialPlanningTool.js:966-984 | the summed count grows with the area |
| Species.EmptyAreaNoSpecies | SpatialPlanningTool.js:966-984 | an area with no cell counts no species |
| Species.SpeciesCount | SpatialPlanningTool.js:966-984 | the species count is at least the bird count on `RedList_28` and at least every other collection's count on `category` |
| Species.SpeciesCountIsSum | SpatialPlanningTool.js:966-984 | the species count is the sum of the 13 distinct counts: the birds on `RedList_28` and every other collection on `category` |
| Species.SameSpeciesInTwoCollections | SpatialPlanningTool.js:981 | one species threatened in two collections counts twice: a frog among the amphibians and the freshwater species gives 2 |
| Species.FieldsOfGroups | SpatialPlanningTool.js:968-980 | 13 collections; the second, the birds, is filtered on `RedList_28` and every other on `category` |
| Species.BirdsUseRedList28 | SpatialPlanningTool.js:969 | birds are filtered on `RedList_28` and every other collection on `category`; a bird counts by its `RedList_28` status alone |
| Species.EmptyGroups | SpatialPlanningTool.js:981 | collections without features add nothing |
| Stats.Round | SpatialPlanningTool.js:1007 | `round()` gives the integer within one half of the value: r - 1/2 <= x < r + 1/2, so halves round up |
| Stats.RoundWhole | SpatialPlanningTool.js:1007 | whole numbers round to themselves |
| Stats.RoundMonotone | SpatialPlanningTool.js:1040 | rounding keeps order |
| Stats.SumBetween | SpatialPlanningTool.js:1021-1026 | a sum over a region lies between the count times the smallest value and the count times the largest |
| Stats.Intersection | SpatialPlanningTool.js:993 | `availableArea.clip(aoi)` leaves exactly the pixels in both regions |
| Stats.Sum | SpatialPlanningTool.js:999-1004 | the `sum` reducer adds the present values inside the region, and a region with no present pixel sums to 0 |
| Stats.Mean | SpatialPlanningTool.js:1032-1037 | the `mean` reducer is null exactly when no pixel of the region is present; otherwise the mean times the number of present pixels is their sum |
| Stats.MeanBetween | SpatialPlanningTool.js:1032-1037 | a mean is missing exactly when no pixel counts, and otherwise lies between the smallest and largest values |
| Stats.AreaCountsPixels | SpatialPlanningTool.js:996-1004 | with one-hectare pixels the area in hectares is the number of available pixels in the footprint |
| Stats.NoAvailablePixelsNoArea | SpatialPlanningTool.js:996-1004 | with no available pixel in the footprint the area is 0 |
| Stats.HectareImage | SpatialPlanningTool.js:996 | the hectare image is present exactly where the available area is, holds the pixel area over 10,000 where the available area is 1, and is non-negative for non-negative inputs |
| Stats.SumNonNegative | SpatialPlanningTool.js:999-1004 | a sum of non-negative values is non-negative |
| Stats.RestorationArea | SpatialPlanningTool.js:999-1004 | the restoration area is non-negative when the pixel areas and the available values are |
| Stats.Beneficiaries | SpatialPlanningTool.js:1021-1026 | the beneficiaries are the population sum over the footprint, rounded to within one half |
| Stats.EmptyFootprintNoBeneficiaries | SpatialPlanningTool.js:1021-1026 | an empty footprint has no beneficiaries |
| Stats.Filled | SpatialPlanningTool.js:1032 | `unmask()` leaves no pixel masked: a present value stays and a masked pixel becomes 0 |
| Stats.MeanRate | SpatialPlanningTool.js:1032-1051 | the mean rate over the footprint is missing exactly when the footprint is empty |
| Stats.FilledCountsFootprint | SpatialPlanningTool.js:1032-1051 | after `unmask()` every footprint pixel counts, so the count is 0 exactly when the footprint is empty |
| Stats.CarbonGapCountsAsZero | SpatialPlanningTool.js:1032-1037 | a footprint pixel without a rate counts as 0 in the mean: rates 2 and none give a mean of 1 |
| Stats.CarbonTotal | SpatialPlanningTool.js:1040-1054 | a carbon total is within one half of area times mean rate times project length |
| Stats.ProjectTotal | SpatialPlanningTool.js:1060-1066 | a cost or return total is within one half of rate times project length times area |
| Stats.ProjectTotalProperties | SpatialPlanningTool.js:1060-1066 | a cost or return total is within one half of rate times length times area, and grows with the area |
| Stats.RatioInverse | SpatialPlanningTool.js:1072 | a non-zero cost times the ratio gives the return back; a zero cost gives ratio 0 |
| Stats.Ratio | SpatialPlanningTool.js:1072 | the ratio of non-negative totals is non-negative, and at most 1 when the return does not exceed a non-zero cost |
| Stats.OneDecimal | SpatialPlanningTool.js:1075 | the tenths shown are within half a tenth of the value |
| Stats.DefaultScenario | SpatialPlanningTool.js:764-798 | the default parameters on 100 ha give cost 2,529,000, return 5,682,000 and ratio 2.2 |
| Stats.UnroundedAreaInTotals | SpatialPlanningTool.js:1007-1060 | the totals use the unrounded area: 0.4 ha shows as area 0 but costs 10,116 |
| Stats.SpeciesWithoutArea | SpatialPlanningTool.js:963-1012 | a drawn area with no available pixel has area 0 and can still count a threatened species |
| Session.PlanningTool.constructor | SpatialPlanningTool.js:138-196 | the start state: no box checked, both accumulators `ee.Image(0)`, no country, weights 0, default parameters, empty boxes; the invariant holds |
| Session.PlanningTool.Redraw | SpatialPlanningTool.js:82-108 | the selected country is the first shape with the name, and the six bounds are the fields `min`, `p95`, `min_cost`, `max_cost`, `min_rate` and `max_rate` of the first matching rows; nothing else changes |
| Session.PlanningTool.SetGrassland | SpatialPlanningTool.js:143-153 | a changed value runs the handler, an unchanged one does nothing; the accumulator invariant is kept |
| Session.PlanningTool.SetCropland | SpatialPlanningTool.js:156-167 | the same for the cropland box |
| Session.PlanningTool.SetReforestation | SpatialPlanningTool.js:199-209 | the same for the reforestation box on the historical accumulator |
| Session.PlanningTool.SetAfforestation | SpatialPlanningTool.js:212-222 | the same for the afforestation box |
| Session.PlanningTool.SetForestDistanceImportance | SpatialPlanningTool.js:327-329 | only the distance weight changes |
| Session.PlanningTool.SetOpportunityCostImportance | SpatialPlanningTool.js:399-401 | only the cost weight changes |
| Session.PlanningTool.SetCarbonSeqImportance | SpatialPlanningTool.js:470-472 | only the carbon weight changes |
| Session.PlanningTool.SetProjectLength | SpatialPlanningTool.js:770-772 | only the project length changes |
| Session.PlanningTool.SetAverageCost | SpatialPlanningTool.js:787-789 | only the average cost changes |
| Session.PlanningTool.SetAverageReturn | SpatialPlanningTool.js:804-806 | only the average return changes |
| Session.PlanningTool.DisplayAvailableArea | SpatialPlanningTool.js:244-258 | the accumulators get their zeros masked; the available area is 1 exactly where the current selections and the country ask for it and masked elsewhere, and its footprint is the country; without a country there is none |
| Session.PlanningTool.RunAnalysis | SpatialPlanningTool.js:543-583 | fails without a country, without all six bounds, or without an available area; otherwise gives the overlay, defined exactly on the available pixels of the current country and within [0, 1] |
| Session.PlanningTool.Reset | SpatialPlanningTool.js:620-640 | all boxes unchecked with both accumulators back to 0, weights 0; country, bounds, available area, parameters and boxes kept |
| Session.PlanningTool.ClearGeometry | SpatialPlanningTool.js:694-708 | all eight result boxes emptied, nothing else changed |
| Session.PlanningTool.CalculateStats | SpatialPlanningTool.js:988-1076 | without an available area no box changes; otherwise the footprint is the available area intersected with the drawn area (`Stats.Intersection`), and area, species and beneficiaries are set from it; the five boxes from the carbon totals on are set by their formulas when the footprint is non-empty and keep their old values when it is empty |
| Session.ShowTotals | SpatialPlanningTool.js:1040-1075 | no above-ground mean leaves the five total boxes as they were; with both means the two carbon totals, the cost, the return and the ratio are filled by their formulas; the first three boxes never change |

## Left out

- Widget, panel, legend, thumbnail and palette construction, and adding or clearing map layers: they hold no logic. This includes the layers the Reset button re-adds (lines 633-638).
- Drawing-tool wiring and the 500 ms debounce. The second `calculateStats` registration (line 1081) only repeats the same computation.
- Loading datasets by asset ID, and `getInfo()`: the datasets are inputs of the model (`Session.Datasets`).
- Geometry. Polygons are sets of grid pixels, `filterBounds` is "shares a pixel", and the geodesic pixel area is a given input.
- `reduceRegion`'s `scale` and `maxPixels`. The `minMax` reduction without a geometry (line 575) is taken over the whole grid.
- WorldPop year filtering and mosaicking (line 1018): the population is an input image.
- Textbox parsing with `Number(value)`: a non-numeric entry gives NaN in the script, but the model takes the parameters as reals.
- Floating point: all arithmetic is on exact reals.
- Stats.Round: models `round()` as rounding half up. One-decimal `toFixed` is modelled as the rounded number of tenths, and its half-away-from-zero rounding of negative values is not modelled.
- Overlay.Priority: the script has no guard for a zero range in a `unitScale`. What `unitScale` returns then is not modelled; the model reports `ZeroRange`.
- Session.PlanningTool.CalculateStats: a failing server call aborts the callback, which the model states as the later boxes keeping their values.
- The country name `countryOfInterest` is not kept as a field; only what `redraw` derives from it is.
- The dropdown's placeholder text (line 625).
