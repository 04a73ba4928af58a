/**
 * Land-cover reclassification and the four binary masks derived from it.
 *
 * The land-cover dataset holds one source code per pixel for 1992 and for
 * 2018. A fixed 37-entry table maps those codes to seven classes:
 * 1 forest, 2 grassland, 3 cropland, 4 wetland, 5 settlement,
 * 6 other land, 7 water. Codes not in the table become masked.
 */
module Landcover {
  import opened Raster

  const Forest := 1
  const Grassland := 2
  const Cropland := 3

  /** Source codes of the 2018 reclassification. */
  const From2018: seq<int> := [10, 11, 12, 20, 30, 40, 50, 60, 61, 62, 70, 71, 72, 80, 81, 82, 90, 100,
    110, 120, 121, 122, 130, 140, 150, 151, 152, 153, 160, 170, 180, 190, 200, 201, 202, 210, 220]
  /** Target classes of the 2018 reclassification. */
  const To2018: seq<int> := [3, 3, 3, 3, 3, 3, 1, 1, 1, 1, 1, 1, 1, 1, 1, 1, 1, 1,
    2, 2, 2, 2, 2, 2, 2, 2, 2, 2, 4, 4, 4, 5, 6, 6, 6, 7, 6]

  /** Source codes of the 1992 reclassification, written out separately in the script. */
  const From1992: seq<int> := [10, 11, 12, 20, 30, 40, 50, 60, 61, 62, 70, 71, 72, 80, 81, 82, 90, 100,
    110, 120, 121, 122, 130, 140, 150, 151, 152, 153, 160, 170, 180, 190, 200, 201, 202, 210, 220]
  /** Target classes of the 1992 reclassification. */
  const To1992: seq<int> := [3, 3, 3, 3, 3, 3, 1, 1, 1, 1, 1, 1, 1, 1, 1, 1, 1, 1,
    2, 2, 2, 2, 2, 2, 2, 2, 2, 2, 4, 4, 4, 5, 6, 6, 6, 7, 6]

  /** Independent statement of the table, by ranges of source codes. */
  function ClassOfCode(code: int): Option<int> {
    if code in {10, 11, 12, 20, 30, 40} then Some(3)
    else if code in {50, 60, 61, 62, 70, 71, 72, 80, 81, 82, 90, 100} then Some(1)
    else if code in {110, 120, 121, 122, 130, 140, 150, 151, 152, 153} then Some(2)
    else if code in {160, 170, 180} then Some(4)
    else if code == 190 then Some(5)
    else if code in {200, 201, 202, 220} then Some(6)
    else if code == 210 then Some(7)
    else None
  }

  /** The two tables of the script are the same table, 37 entries each. */
  lemma TablesAgree()
    ensures |From2018| == |To2018| == 37
    ensures From1992 == From2018 && To1992 == To2018
  {
  }

  /** A table whose entries all map to one class `v`. */
  lemma {:induction false} LookupUniform(from: seq<int>, to: seq<int>, v: int, x: int)
    requires |from| == |to|
    requires forall y :: y in to ==> y == v
    ensures Lookup(from, to, x) == if x in from then Some(v) else None
  {
    if from != [] && from[0] == x {
      assert to[0] in to && from[0] in from;
      assert Lookup(from, to, x) == Some(to[0]);
      assert to[0] == v;
    } else if from != [] {
      assert forall y :: y in to[1..] ==> y in to;
      assert from == [from[0]] + from[1..];
      LookupUniform(from[1..], to[1..], v, x);
    }
  }

  /** Looking up in a table made of two parts: the first part is searched first. */
  lemma {:induction false} LookupAppend(f1: seq<int>, t1: seq<int>, f2: seq<int>, t2: seq<int>, x: int)
    requires |f1| == |t1| && |f2| == |t2|
    ensures Lookup(f1 + f2, t1 + t2, x) == if x in f1 then Lookup(f1, t1, x) else Lookup(f2, t2, x)
  {
    if f1 != [] {
      assert (f1 + f2)[1..] == f1[1..] + f2 && (t1 + t2)[1..] == t1[1..] + t2;
      if f1[0] != x {
        LookupAppend(f1[1..], t1[1..], f2, t2, x);
      }
    } else {
      assert f1 + f2 == f2 && t1 + t2 == t2;
    }
  }

  /** One run of equal classes in front of the rest of the table. */
  lemma RunStep(f: seq<int>, t: seq<int>, v: int, rf: seq<int>, rt: seq<int>, x: int)
    requires |f| == |t| && |rf| == |rt|
    requires forall y :: y in t ==> y == v
    ensures Lookup(f + rf, t + rt, x) == if x in f then Some(v) else Lookup(rf, rt, x)
  {
    LookupAppend(f, t, rf, rt, x);
    LookupUniform(f, t, v, x);
  }

  /** Runs 1 and 2 of the table (cropland, forest) in front of any rest. */
  lemma Runs12(rf: seq<int>, rt: seq<int>, x: int)
    requires |rf| == |rt|
    ensures Lookup([10, 11, 12, 20, 30, 40] + ([50, 60, 61, 62, 70, 71, 72, 80, 81, 82, 90, 100] + rf),
                   [3, 3, 3, 3, 3, 3] + ([1, 1, 1, 1, 1, 1, 1, 1, 1, 1, 1, 1] + rt), x)
      == if x in {10, 11, 12, 20, 30, 40} then Some(3)
         else if x in {50, 60, 61, 62, 70, 71, 72, 80, 81, 82, 90, 100} then Some(1)
         else Lookup(rf, rt, x)
  {
    RunStep([50, 60, 61, 62, 70, 71, 72, 80, 81, 82, 90, 100], [1, 1, 1, 1, 1, 1, 1, 1, 1, 1, 1, 1], 1, rf, rt, x);
    RunStep([10, 11, 12, 20, 30, 40], [3, 3, 3, 3, 3, 3], 3,
      [50, 60, 61, 62, 70, 71, 72, 80, 81, 82, 90, 100] + rf, [1, 1, 1, 1, 1, 1, 1, 1, 1, 1, 1, 1] + rt, x);
  }

  /** Runs 3 and 4 of the table (grassland, wetland) in front of any rest. */
  lemma Runs34(rf: seq<int>, rt: seq<int>, x: int)
    requires |rf| == |rt|
    ensures Lookup([110, 120, 121, 122, 130, 140, 150, 151, 152, 153] + ([160, 170, 180] + rf),
                   [2, 2, 2, 2, 2, 2, 2, 2, 2, 2] + ([4, 4, 4] + rt), x)
      == if x in {110, 120, 121, 122, 130, 140, 150, 151, 152, 153} then Some(2)
         else if x in {160, 170, 180} then Some(4)
         else Lookup(rf, rt, x)
  {
    RunStep([160, 170, 180], [4, 4, 4], 4, rf, rt, x);
    RunStep([110, 120, 121, 122, 130, 140, 150, 151, 152, 153], [2, 2, 2, 2, 2, 2, 2, 2, 2, 2], 2,
      [160, 170, 180] + rf, [4, 4, 4] + rt, x);
  }

  /** Runs 5 to 8 of the table (settlement, other land, water, other land). */
  lemma Runs5678(x: int)
    ensures Lookup([190] + ([200, 201, 202] + ([210] + [220])), [5] + ([6, 6, 6] + ([7] + [6])), x)
      == if x == 190 then Some(5) else if x in {200, 201, 202, 220} then Some(6)
         else if x == 210 then Some(7) else None
  {
    LookupUniform([220], [6], 6, x);
    RunStep([210], [7], 7, [220], [6], x);
    RunStep([200, 201, 202], [6, 6, 6], 6, [210] + [220], [7] + [6], x);
    RunStep([190], [5], 5, [200, 201, 202] + ([210] + [220]), [6, 6, 6] + ([7] + [6]), x);
  }

  /** The source codes of the table, written as its eight runs. */
  lemma FromAsRuns()
    ensures From2018 == [10, 11, 12, 20, 30, 40] + ([50, 60, 61, 62, 70, 71, 72, 80, 81, 82, 90, 100] +
      ([110, 120, 121, 122, 130, 140, 150, 151, 152, 153] + ([160, 170, 180] +
      ([190] + ([200, 201, 202] + ([210] + [220]))))))
  {
  }

  /** The classes of the table, written as its eight runs. */
  lemma ToAsRuns()
    ensures To2018 == [3, 3, 3, 3, 3, 3] + ([1, 1, 1, 1, 1, 1, 1, 1, 1, 1, 1, 1] +
      ([2, 2, 2, 2, 2, 2, 2, 2, 2, 2] + ([4, 4, 4] + ([5] + ([6, 6, 6] + ([7] + [6]))))))
  {
  }

  /** The table read as eight runs of source codes, each run mapped to one class. */
  lemma TableByRuns(code: int)
    ensures Lookup(From2018, To2018, code) == ClassOfCode(code)
  {
    var f5, t5 := [190] + ([200, 201, 202] + ([210] + [220])), [5] + ([6, 6, 6] + ([7] + [6]));
    var f3, t3 := [110, 120, 121, 122, 130, 140, 150, 151, 152, 153] + ([160, 170, 180] + f5),
                  [2, 2, 2, 2, 2, 2, 2, 2, 2, 2] + ([4, 4, 4] + t5);
    FromAsRuns();
    ToAsRuns();
    Runs12(f3, t3, code);
    Runs34(f5, t5, code);
    Runs5678(code);
  }

  /**
   * `remap` with either year's table classifies a code exactly as the range
   * description says, and masks every unlisted code.
   */
  lemma ReclassifyByRange(code: int)
    ensures Lookup(From2018, To2018, code) == ClassOfCode(code)
    ensures Lookup(From1992, To1992, code) == ClassOfCode(code)
  {
    TablesAgree();
    TableByRuns(code);
  }

  /** The 2018 land-cover image, reclassified to the seven classes. */
  function Reclassify2018(codes: Image): (r: Image)
    ensures |r| == |codes|
    ensures forall i :: 0 <= i < |codes| ==>
      r[i] == (if codes[i].Some? then ClassOfCode(codes[i].value) else None)
  {
    var r := Remap(codes, From2018, To2018);
    assert forall i :: 0 <= i < |codes| && codes[i].Some? ==>
      Lookup(From2018, To2018, codes[i].value) == ClassOfCode(codes[i].value) by {
      forall i | 0 <= i < |codes| && codes[i].Some? {
        ReclassifyByRange(codes[i].value);
      }
    }
    r
  }

  /** The 1992 land-cover image, reclassified with the (identical) 1992 table. */
  function Reclassify1992(codes: Image): (r: Image)
    ensures |r| == |codes|
    ensures forall i :: 0 <= i < |codes| ==>
      r[i] == (if codes[i].Some? then ClassOfCode(codes[i].value) else None)
  {
    var r := Remap(codes, From1992, To1992);
    assert forall i :: 0 <= i < |codes| && codes[i].Some? ==>
      Lookup(From1992, To1992, codes[i].value) == ClassOfCode(codes[i].value) by {
      forall i | 0 <= i < |codes| && codes[i].Some? {
        ReclassifyByRange(codes[i].value);
      }
    }
    r
  }

  /** Every reclassified pixel is masked or holds a class in 1..7. */
  lemma ClassesInRange(codes: Image, i: int)
    requires 0 <= i < |codes|
    ensures Reclassify2018(codes)[i].Some? ==> 1 <= Reclassify2018(codes)[i].value <= 7
    ensures Reclassify1992(codes)[i] == Reclassify2018(codes)[i]
  {
    var r18, r92 := Reclassify2018(codes), Reclassify1992(codes);
    assert r18[i] == (if codes[i].Some? then ClassOfCode(codes[i].value) else None);
    assert r92[i] == (if codes[i].Some? then ClassOfCode(codes[i].value) else None);
  }

  /** `lc2018.updateMask(lc2018.eq(2)).remap([0,2],[0,1])`. */
  function GrasslandMask(lc2018: Image): (r: Image)
    ensures |r| == |lc2018|
    ensures forall i :: 0 <= i < |lc2018| ==>
      (r[i] == Some(1) <==> lc2018[i] == Some(Grassland)) && (r[i] != Some(1) ==> r[i] == None)
  {
    Remap(UpdateMask(lc2018, Eq(lc2018, Grassland)), [0, 2], [0, 1])
  }

  /** `lc2018.updateMask(lc2018.eq(3)).remap([0,3],[0,1])`. */
  function CroplandMask(lc2018: Image): (r: Image)
    ensures |r| == |lc2018|
    ensures forall i :: 0 <= i < |lc2018| ==>
      (r[i] == Some(1) <==> lc2018[i] == Some(Cropland)) && (r[i] != Some(1) ==> r[i] == None)
  {
    Remap(UpdateMask(lc2018, Eq(lc2018, Cropland)), [0, 3], [0, 1])
  }

  /** `lc1992.updateMask(lc1992.eq(1))`: the class value itself, 1, where forest. */
  function HistoricalForestMask(lc1992: Image): (r: Image)
    ensures |r| == |lc1992|
    ensures forall i :: 0 <= i < |lc1992| ==>
      (r[i] == Some(1) <==> lc1992[i] == Some(Forest)) && (r[i] != Some(1) ==> r[i] == None)
  {
    UpdateMask(lc1992, Eq(lc1992, Forest))
  }

  /** What `remap([1..7],[0,1,1,1,1,1,1])` gives for a class value. */
  function NotForestClass(v: int): Option<int> {
    if v == 1 then Some(0) else if 2 <= v <= 7 then Some(1) else None
  }

  lemma NotForestTable(v: int)
    ensures Lookup([1, 2, 3, 4, 5, 6, 7], [0, 1, 1, 1, 1, 1, 1], v) == NotForestClass(v)
  {
    assert [1, 2, 3, 4, 5, 6, 7] == [1] + [2, 3, 4, 5, 6, 7];
    assert [0, 1, 1, 1, 1, 1, 1] == [0] + [1, 1, 1, 1, 1, 1];
    RunStep([1], [0], 0, [2, 3, 4, 5, 6, 7], [1, 1, 1, 1, 1, 1], v);
    LookupUniform([2, 3, 4, 5, 6, 7], [1, 1, 1, 1, 1, 1], 1, v);
  }

  /** `lc1992.remap([1..7],[0,1,1,1,1,1,1])`, then masked where not 1. */
  function NotHistoricalForestMask(lc1992: Image): (r: Image)
    ensures |r| == |lc1992|
    ensures forall i :: 0 <= i < |lc1992| ==>
      (r[i] == Some(1) <==> lc1992[i].Some? && 2 <= lc1992[i].value <= 7) && (r[i] != Some(1) ==> r[i] == None)
  {
    var nhf := Remap(lc1992, [1, 2, 3, 4, 5, 6, 7], [0, 1, 1, 1, 1, 1, 1]);
    assert forall i :: 0 <= i < |lc1992| && lc1992[i].Some? ==>
      nhf[i] == NotForestClass(lc1992[i].value) by {
      forall i | 0 <= i < |lc1992| && lc1992[i].Some? {
        NotForestTable(lc1992[i].value);
      }
    }
    UpdateMask(nhf, Eq(nhf, 1))
  }

  /** A binary mask: every pixel is 1 or masked. */
  ghost predicate Binary(m: Image) {
    forall i :: 0 <= i < |m| ==> m[i] == None || m[i] == Some(1)
  }

  /** No pixel is set in both masks. */
  ghost predicate Disjoint(a: Image, b: Image) {
    |a| == |b| && forall i :: 0 <= i < |a| ==> !(a[i].Some? && b[i].Some?)
  }

  /** Grassland and cropland never overlap; nor do forest and non-forest of 1992. */
  lemma MasksDisjoint(lc2018: Image, lc1992: Image)
    ensures Binary(GrasslandMask(lc2018)) && Binary(CroplandMask(lc2018))
    ensures Binary(HistoricalForestMask(lc1992)) && Binary(NotHistoricalForestMask(lc1992))
    ensures Disjoint(GrasslandMask(lc2018), CroplandMask(lc2018))
    ensures Disjoint(HistoricalForestMask(lc1992), NotHistoricalForestMask(lc1992))
  {
  }

  /**
   * On reclassified data the two 1992 masks cover every classified pixel:
   * each pixel with a class is exactly one of forest or not forest.
   */
  lemma HistoricalMasksCover(codes: Image, i: int)
    requires 0 <= i < |codes|
    ensures var lc := Reclassify1992(codes);
      lc[i].Some? <==> (HistoricalForestMask(lc)[i] == Some(1)) != (NotHistoricalForestMask(lc)[i] == Some(1))
  {
    ClassesInRange(codes, i);
  }
}
