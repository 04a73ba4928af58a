/**
 * The threatened-species count of a drawn project area: for each of the 13
 * taxon collections, the number of distinct species names among the
 * features that touch the area and whose Red List status is critically
 * endangered, endangered or vulnerable; the 13 numbers are summed.
 */
module Species {
  import opened Raster

  /** A range polygon of one species: its name, its properties, and the grid cells it covers. */
  datatype Feature = Feature(binomial: string, attrs: map<string, string>, cells: set<int>)

  /** A feature collection; `a.merge(b)` is `a + b`. */
  type Collection = seq<Feature>

  /** The categories `inList` keeps. */
  const ThreatStatuses: set<string> := {"CR", "EN", "VU"}

  /**
   * The status property of each of the 13 collections, in the order of the
   * sum: amphibians, birds, corals, cone snails, freshwater, lobsters,
   * mammals, mangroves, marine fishes, reptiles, sea cucumbers, seagrasses,
   * sharks and rays. Birds keep their status in `RedList_28`.
   */
  const StatusFields: seq<string> := ["category", "RedList_28", "category", "category", "category",
                                      "category", "category", "category", "category", "category",
                                      "category", "category", "category"]

  /** `filterBounds(aoi)`: the feature covers some cell of the area. */
  predicate Intersects(f: Feature, aoi: Region) {
    exists i | i in f.cells :: 0 <= i < |aoi| && aoi[i]
  }

  /** `filter(inList(field, ["CR","EN","VU"]))`. */
  predicate Listed(f: Feature, field: string) {
    field in f.attrs && f.attrs[field] in ThreatStatuses
  }

  /** The feature passes both filters. */
  predicate Qualifies(f: Feature, field: string, aoi: Region) {
    Intersects(f, aoi) && Listed(f, field)
  }

  /** The keys of `aggregate_histogram('binomial')` after both filters: the names that qualify. */
  function Names(c: Collection, field: string, aoi: Region): (r: set<string>)
    ensures forall x :: x in r <==> exists k :: 0 <= k < |c| && c[k].binomial == x && Qualifies(c[k], field, aoi)
  {
    if c == [] then {}
    else
      var rest := Names(c[1..], field, aoi);
      assert forall k :: 0 < k < |c| ==> c[k] == c[1..][k - 1];
      assert forall x :: x in rest ==> exists k :: 0 <= k < |c| && c[k].binomial == x && Qualifies(c[k], field, aoi) by {
        forall x | x in rest ensures exists k :: 0 <= k < |c| && c[k].binomial == x && Qualifies(c[k], field, aoi) {
          var k :| 0 <= k < |c[1..]| && c[1..][k].binomial == x && Qualifies(c[1..][k], field, aoi);
          assert c[k + 1] == c[1..][k];
        }
      }
      if Qualifies(c[0], field, aoi) then {c[0].binomial} + rest else rest
  }

  /**
   * `ee.Dictionary(...).size()`: the number of distinct qualifying names of
   * one collection, 0 exactly when no feature qualifies.
   */
  function GroupCount(c: Collection, field: string, aoi: Region): (r: nat)
    ensures r == 0 <==> forall k :: 0 <= k < |c| ==> !Qualifies(c[k], field, aoi)
  {
    var n := Names(c, field, aoi);
    assert n == {} <==> forall k :: 0 <= k < |c| ==> !Qualifies(c[k], field, aoi) by {
      if n != {} {
        var x :| x in n;
      }
      if k :| 0 <= k < |c| && Qualifies(c[k], field, aoi) {
        assert c[k].binomial in n;
      }
    }
    |n|
  }

  /** Merging collections unites their name sets. */
  lemma {:induction false} MergeNames(a: Collection, b: Collection, field: string, aoi: Region)
    ensures Names(a + b, field, aoi) == Names(a, field, aoi) + Names(b, field, aoi)
  {
    var l, r := Names(a + b, field, aoi), Names(a, field, aoi) + Names(b, field, aoi);
    forall x | x in l ensures x in r {
      var k :| 0 <= k < |a + b| && (a + b)[k].binomial == x && Qualifies((a + b)[k], field, aoi);
      if k < |a| { assert a[k] == (a + b)[k]; } else { assert b[k - |a|] == (a + b)[k]; }
    }
    forall x | x in r ensures x in l {
      if x in Names(a, field, aoi) {
        var k :| 0 <= k < |a| && a[k].binomial == x && Qualifies(a[k], field, aoi);
        assert (a + b)[k] == a[k];
      } else {
        var k :| 0 <= k < |b| && b[k].binomial == x && Qualifies(b[k], field, aoi);
        assert (a + b)[|a| + k] == b[k];
      }
    }
  }

  /**
   * A species listed in two merged collections is counted once: the count
   * of a merge is the sum of the counts less the shared names.
   */
  lemma MergeCountsSharedOnce(a: Collection, b: Collection, field: string, aoi: Region)
    ensures GroupCount(a + b, field, aoi) ==
      GroupCount(a, field, aoi) + GroupCount(b, field, aoi) - |Names(a, field, aoi) * Names(b, field, aoi)|
  {
    MergeNames(a, b, field, aoi);
    var na, nb := Names(a, field, aoi), Names(b, field, aoi);
    assert na + nb == na + (nb - na);
    assert nb == (nb - na) + (na * nb);
    assert (nb - na) * (na * nb) == {};
  }

  /** A further qualifying feature of a species already counted leaves the count unchanged. */
  lemma DuplicateCountsOnce(c: Collection, f: Feature, field: string, aoi: Region)
    requires exists k :: 0 <= k < |c| && c[k].binomial == f.binomial && Qualifies(c[k], field, aoi)
    ensures GroupCount(c + [f], field, aoi) == GroupCount(c, field, aoi)
  {
    MergeNames(c, [f], field, aoi);
    var k :| 0 <= k < |c| && c[k].binomial == f.binomial && Qualifies(c[k], field, aoi);
    assert f.binomial in Names(c, field, aoi);
    assert Names([f], field, aoi) <= Names(c, field, aoi);
    assert Names(c + [f], field, aoi) == Names(c, field, aoi);
  }

  /** A feature outside the area, or with another status, changes nothing wherever it is inserted. */
  lemma UnqualifiedIgnored(a: Collection, f: Feature, b: Collection, field: string, aoi: Region)
    requires !Qualifies(f, field, aoi)
    ensures Names(a + [f] + b, field, aoi) == Names(a + b, field, aoi)
  {
    MergeNames(a + [f], b, field, aoi);
    MergeNames(a, [f], field, aoi);
    MergeNames(a, b, field, aoi);
    assert Names([f], field, aoi) == {};
  }

  /** A region that contains another one counts at least the same names. */
  lemma LargerAreaNoFewer(c: Collection, field: string, small: Region, large: Region)
    requires |small| == |large|
    requires forall i :: 0 <= i < |small| && small[i] ==> large[i]
    ensures Names(c, field, small) <= Names(c, field, large)
    ensures GroupCount(c, field, small) <= GroupCount(c, field, large)
  {
    forall x | x in Names(c, field, small) ensures x in Names(c, field, large) {
      var k :| 0 <= k < |c| && c[k].binomial == x && Qualifies(c[k], field, small);
      var i :| i in c[k].cells && 0 <= i < |small| && small[i];
      assert Qualifies(c[k], field, large);
    }
    SubsetCard(Names(c, field, small), Names(c, field, large));
  }

  /** A subset is no larger than its superset. */
  lemma SubsetCard(a: set<string>, b: set<string>)
    requires a <= b
    ensures |a| <= |b|
  {
    assert b == a + (b - a);
  }

  /**
   * The sum of the group counts of the collections, each with its own
   * status field: every collection's count is part of it.
   */
  function Total(groups: seq<Collection>, fields: seq<string>, aoi: Region): (r: nat)
    requires |groups| == |fields|
    ensures forall g :: 0 <= g < |groups| ==> GroupCount(groups[g], fields[g], aoi) <= r
  {
    if groups == [] then 0
    else
      var rest := Total(groups[1..], fields[1..], aoi);
      assert forall g :: 0 < g < |groups| ==> groups[g] == groups[1..][g - 1] && fields[g] == fields[1..][g - 1];
      GroupCount(groups[0], fields[0], aoi) + rest
  }

  /**
   * `speciesCountAnalysis` (lines 966-984): the 13 counts of the project
   * area summed; the bird collection is counted on `RedList_28` and every
   * other collection on `category`.
   */
  function SpeciesCount(groups: seq<Collection>, aoi: Region): (r: nat)
    requires |groups| == |StatusFields|
    ensures GroupCount(groups[1], "RedList_28", aoi) <= r
    ensures forall g :: 0 <= g < |groups| && g != 1 ==> GroupCount(groups[g], "category", aoi) <= r
  {
    FieldsOfGroups();
    Total(groups, StatusFields, aoi)
  }

  /** The status field of each of the 13 collections: `RedList_28` for the birds, `category` for the rest. */
  lemma FieldsOfGroups()
    ensures |StatusFields| == 13 && StatusFields[1] == "RedList_28"
    ensures forall g :: 0 <= g < |StatusFields| && g != 1 ==> StatusFields[g] == "category"
  {
  }

  /** The total of one collection is that collection's count. */
  lemma TotalSingle(c: Collection, field: string, aoi: Region)
    ensures Total([c], [field], aoi) == GroupCount(c, field, aoi)
  {
    assert [c][1..] == [] && [field][1..] == [];
  }

  /** The total over two runs of collections is the sum of their totals: counts are added, never united. */
  lemma {:induction false} TotalAppend(g1: seq<Collection>, f1: seq<string>, g2: seq<Collection>, f2: seq<string>,
                                       aoi: Region)
    requires |g1| == |f1| && |g2| == |f2|
    ensures Total(g1 + g2, f1 + f2, aoi) == Total(g1, f1, aoi) + Total(g2, f2, aoi)
    decreases |g1|
  {
    if g1 == [] {
      assert g1 + g2 == g2 && f1 + f2 == f2;
    } else {
      assert (g1 + g2)[0] == g1[0] && (f1 + f2)[0] == f1[0];
      assert (g1 + g2)[1..] == g1[1..] + g2 && (f1 + f2)[1..] == f1[1..] + f2;
      TotalAppend(g1[1..], f1[1..], g2, f2, aoi);
    }
  }

  /** The count of each collection on its own field, in order. */
  function Counts(groups: seq<Collection>, fields: seq<string>, aoi: Region): (r: seq<nat>)
    requires |groups| == |fields|
    ensures |r| == |groups| && forall g :: 0 <= g < |groups| ==> r[g] == GroupCount(groups[g], fields[g], aoi)
  {
    seq(|groups|, g requires 0 <= g < |groups| => GroupCount(groups[g], fields[g], aoi))
  }

  /** The sum of a sequence of counts. */
  function SumOf(s: seq<nat>): nat {
    if s == [] then 0 else s[0] + SumOf(s[1..])
  }

  /** The total is the plain sum of the collections' counts: a name in two collections is counted in both. */
  lemma {:induction false} TotalIsSumOfCounts(groups: seq<Collection>, fields: seq<string>, aoi: Region)
    requires |groups| == |fields|
    ensures Total(groups, fields, aoi) == SumOf(Counts(groups, fields, aoi))
    decreases |groups|
  {
    if groups != [] {
      assert Counts(groups, fields, aoi)[1..] == Counts(groups[1..], fields[1..], aoi);
      TotalIsSumOfCounts(groups[1..], fields[1..], aoi);
    }
  }

  /** A sum of 13 counts written out term by term. */
  lemma SumOfThirteen(s: seq<nat>)
    requires |s| == 13
    ensures SumOf(s) == s[0] + s[1] + s[2] + s[3] + s[4] + s[5] + s[6] + s[7] + s[8] + s[9] + s[10] + s[11] + s[12]
  {
    assert s[0..] == s;
    SumOfFrom(s, 0);
    SumOfFrom(s, 1);
    SumOfFrom(s, 2);
    SumOfFrom(s, 3);
    SumOfFrom(s, 4);
    SumOfFrom(s, 5);
    SumOfFrom(s, 6);
    SumOfFrom(s, 7);
    SumOfFrom(s, 8);
    SumOfFrom(s, 9);
    SumOfFrom(s, 10);
    SumOfFrom(s, 11);
    SumOfFrom(s, 12);
    assert s[13..] == [];
  }

  /** The sum from position `k` on is the count at `k` plus the sum after it. */
  lemma SumOfFrom(s: seq<nat>, k: nat)
    requires k < |s|
    ensures SumOf(s[k..]) == s[k] + SumOf(s[k + 1..])
  {
    assert s[k..][1..] == s[k + 1..];
  }

  /**
   * Line 981: the species count is the sum of the 13 distinct counts, the
   * birds on `RedList_28` and every other collection on `category`.
   */
  lemma SpeciesCountIsSum(groups: seq<Collection>, aoi: Region)
    requires |groups| == |StatusFields|
    ensures SpeciesCount(groups, aoi) ==
      GroupCount(groups[0], "category", aoi) + GroupCount(groups[1], "RedList_28", aoi) +
      GroupCount(groups[2], "category", aoi) + GroupCount(groups[3], "category", aoi) +
      GroupCount(groups[4], "category", aoi) + GroupCount(groups[5], "category", aoi) +
      GroupCount(groups[6], "category", aoi) + GroupCount(groups[7], "category", aoi) +
      GroupCount(groups[8], "category", aoi) + GroupCount(groups[9], "category", aoi) +
      GroupCount(groups[10], "category", aoi) + GroupCount(groups[11], "category", aoi) +
      GroupCount(groups[12], "category", aoi)
  {
    FieldsOfGroups();
    TotalIsSumOfCounts(groups, StatusFields, aoi);
    SumOfThirteen(Counts(groups, StatusFields, aoi));
  }

  /**
   * A species threatened in two collections is counted once in each: a
   * frog listed among the amphibians and among the freshwater species
   * makes a count of 2.
   */
  lemma SameSpeciesInTwoCollections(groups: seq<Collection>)
    requires |groups| == |StatusFields|
    requires groups[0] == [Feature("Atelopus varius", map["category" := "CR"], {0})]
    requires groups[4] == [Feature("Atelopus varius", map["category" := "EN"], {0})]
    requires forall g :: 0 <= g < |groups| && g != 0 && g != 4 ==> groups[g] == []
    ensures SpeciesCount(groups, [true]) == 2
  {
    var amphibian := Feature("Atelopus varius", map["category" := "CR"], {0});
    var freshwater := Feature("Atelopus varius", map["category" := "EN"], {0});
    assert Qualifies(amphibian, "category", [true]) && Qualifies(freshwater, "category", [true]);
    assert Names(groups[0], "category", [true]) == {"Atelopus varius"};
    assert Names(groups[4], "category", [true]) == {"Atelopus varius"};
    SpeciesCountIsSum(groups, [true]);
  }

  /** The total grows with the area, group by group. */
  lemma {:induction false} TotalMonotone(groups: seq<Collection>, fields: seq<string>, small: Region, large: Region)
    requires |groups| == |fields|
    requires |small| == |large|
    requires forall i :: 0 <= i < |small| && small[i] ==> large[i]
    ensures Total(groups, fields, small) <= Total(groups, fields, large)
  {
    if groups != [] {
      LargerAreaNoFewer(groups[0], fields[0], small, large);
      TotalMonotone(groups[1..], fields[1..], small, large);
    }
  }

  /** A project area with no cell counts no species. */
  lemma {:induction false} EmptyAreaNoSpecies(groups: seq<Collection>, fields: seq<string>, aoi: Region)
    requires |groups| == |fields|
    requires forall i :: 0 <= i < |aoi| ==> !aoi[i]
    ensures Total(groups, fields, aoi) == 0
  {
    if groups != [] {
      assert Names(groups[0], fields[0], aoi) == {};
      EmptyAreaNoSpecies(groups[1..], fields[1..], aoi);
    }
  }

  /**
   * A bird is counted by its `RedList_28` status; its `category` property,
   * the field every other collection uses, is not read.
   */
  lemma BirdsUseRedList28(aoi: Region)
    requires |aoi| == 1 && aoi[0]
    ensures StatusFields[1] == "RedList_28"
    ensures forall g :: 0 <= g < |StatusFields| && g != 1 ==> StatusFields[g] == "category"
    ensures var bird := Feature("Aquila heliaca", map["RedList_28" := "VU", "category" := "LC"], {0});
      var other := Feature("Aquila heliaca", map["RedList_28" := "LC", "category" := "VU"], {0});
      GroupCount([bird], StatusFields[1], aoi) == 1 && GroupCount([other], StatusFields[1], aoi) == 0
  {
    var bird := Feature("Aquila heliaca", map["RedList_28" := "VU", "category" := "LC"], {0});
    var other := Feature("Aquila heliaca", map["RedList_28" := "LC", "category" := "VU"], {0});
    assert Qualifies(bird, "RedList_28", aoi);
    assert Names([bird], "RedList_28", aoi) == {"Aquila heliaca"};
    assert Names([other], "RedList_28", aoi) == {};
  }

  /** Collections without features count nothing. */
  lemma {:induction false} EmptyGroups(groups: seq<Collection>, fields: seq<string>, aoi: Region)
    requires |groups| == |fields|
    requires forall g :: 0 <= g < |groups| ==> groups[g] == []
    ensures Total(groups, fields, aoi) == 0
  {
    if groups != [] {
      assert groups[0] == [];
      EmptyGroups(groups[1..], fields[1..], aoi);
    }
  }
}
