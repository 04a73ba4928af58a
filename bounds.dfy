/**
 * The per-country lookups of the country selector: the country geometry and
 * the six bounds of the priority layers, each read from a table by
 * filtering on the country name and taking the first matching row.
 */
module Bounds {
  import opened Raster

  /** A row of a country table: the country name and its numeric properties. */
  datatype TableRow = TableRow(country: string, fields: map<string, real>)

  /** A row of the country boundaries collection: a name and the pixels it covers. */
  datatype CountryShape = CountryShape(name: string, inside: Region)

  /** The position of the first name equal to `name`, if any: the `first()` of a filter on the name. */
  function FirstIndex(names: seq<string>, name: string): (r: Option<nat>)
    ensures r.None? <==> name !in names
    ensures r.Some? ==> r.value < |names| && names[r.value] == name &&
                        forall j :: 0 <= j < r.value ==> names[j] != name
  {
    if names == [] then None
    else if names[0] == name then Some(0)
    else
      var rest := FirstIndex(names[1..], name);
      assert forall j :: 0 < j < |names| ==> names[j] == names[1..][j - 1];
      if rest.Some? then Some(rest.value + 1) else None
  }

  /** `table.filter(eq('COUNTRY_NA', name)).first()`: the first row for the country, if any. */
  function FirstRow(table: seq<TableRow>, name: string): (r: Option<TableRow>)
    ensures r.None? <==> forall k :: 0 <= k < |table| ==> table[k].country != name
    ensures r.Some? ==> exists k :: 0 <= k < |table| && table[k] == r.value && r.value.country == name &&
                                   (forall j :: 0 <= j < k ==> table[j].country != name)
  {
    var names := seq(|table|, k requires 0 <= k < |table| => table[k].country);
    match FirstIndex(names, name)
    case None =>
      assert forall k :: 0 <= k < |table| ==> names[k] == table[k].country;
      None
    case Some(k) =>
      assert forall j :: 0 <= j < k ==> names[j] == table[j].country;
      Some(table[k])
  }

  /**
   * `...first().get(field)`: the field of the first row for the country.
   * None when the country has no row or that row lacks the field; such a
   * value makes every later computation with it fail.
   */
  function Bound(table: seq<TableRow>, name: string, field: string): (r: Option<real>)
    ensures (forall k :: 0 <= k < |table| ==> table[k].country != name) ==> r.None?
    ensures r.Some? ==> exists k :: 0 <= k < |table| && table[k].country == name &&
                                   (forall j :: 0 <= j < k ==> table[j].country != name) &&
                                   field in table[k].fields && r.value == table[k].fields[field]
  {
    match FirstRow(table, name)
    case None => None
    case Some(row) => if field in row.fields then Some(row.fields[field]) else None
  }

  /**
   * A bound is found exactly when some row names the country and the first
   * such row holds the field; its value is that row's.
   */
  lemma BoundFromFirstRow(table: seq<TableRow>, name: string, field: string, k: int)
    requires 0 <= k < |table| && table[k].country == name
    requires forall j :: 0 <= j < k ==> table[j].country != name
    ensures Bound(table, name, field) == if field in table[k].fields then Some(table[k].fields[field]) else None
  {
    var r := FirstRow(table, name);
    var m :| 0 <= m < |table| && table[m] == r.value && r.value.country == name &&
      forall j :: 0 <= j < m ==> table[j].country != name;
    assert m == k;
  }

  /** Later rows for the same country are never read. */
  lemma LaterRowsIgnored(table: seq<TableRow>, more: seq<TableRow>, name: string, field: string)
    requires exists k :: 0 <= k < |table| && table[k].country == name
    ensures Bound(table + more, name, field) == Bound(table, name, field)
  {
    var r := FirstRow(table, name);
    var k :| 0 <= k < |table| && table[k] == r.value && r.value.country == name &&
      forall j :: 0 <= j < k ==> table[j].country != name;
    assert forall j :: 0 <= j < k ==> (table + more)[j].country != name;
    BoundFromFirstRow(table, name, field, k);
    BoundFromFirstRow(table + more, name, field, k);
  }

  /** `countries.filter(eq('COUNTRY_NA', name)).first()`: the geometry of the first shape of the country. */
  function CountryGeometry(shapes: seq<CountryShape>, name: string): (r: Option<Region>)
    ensures r.None? <==> forall k :: 0 <= k < |shapes| ==> shapes[k].name != name
    ensures r.Some? ==> exists k :: 0 <= k < |shapes| && shapes[k].name == name && shapes[k].inside == r.value &&
                                   (forall j :: 0 <= j < k ==> shapes[j].name != name)
  {
    var names := seq(|shapes|, k requires 0 <= k < |shapes| => shapes[k].name);
    match FirstIndex(names, name)
    case None =>
      assert forall k :: 0 <= k < |shapes| ==> names[k] == shapes[k].name;
      None
    case Some(k) =>
      assert forall j :: 0 <= j < k ==> names[j] == shapes[j].name;
      Some(shapes[k].inside)
  }
}
