/**
 * The band catalog: five fixed tables mapping a source band index of the
 * daily ERA5-Land raster to the output variable name, one table per output
 * category, and the long name and unit of every catalogued band.
 */
module Catalog {
  import opened Wrappers

  datatype Category = Evaporation | Vegetation | Radiation | Soil | RunoffPrecip

  /** The order in which the day loop visits (and writes) the categories. */
  const Categories: seq<Category> := [Evaporation, Vegetation, Radiation, Soil, RunoffPrecip]

  /** Every category appears in the day loop's order. */
  lemma CategoryListed(c: Category)
    ensures c in Categories
  {
    match c
    case Evaporation => assert Categories[0] == c;
    case Vegetation => assert Categories[1] == c;
    case Radiation => assert Categories[2] == c;
    case Soil => assert Categories[3] == c;
    case RunoffPrecip => assert Categories[4] == c;
  }

  /**
   * A row of a table: the 1-based source band index and the output variable
   * name. The row's long name and unit are kept apart, in AttributeTable.
   */
  datatype BandSpec = BandSpec(index: nat, varName: string)

  const EvapBands: seq<BandSpec> := [
    BandSpec(35, "Es"),
    BandSpec(36, "Ew"),
    BandSpec(37, "Ec"),
    BandSpec(38, "Et"),
    BandSpec(39, "Ep"),
    BandSpec(44, "E")
  ]

  const VegBands: seq<BandSpec> := [
    BandSpec(49, "lai_high"),
    BandSpec(50, "lai_low"),
    BandSpec(147, "lai_high_min"),
    BandSpec(148, "lai_high_max"),
    BandSpec(149, "lai_low_min"),
    BandSpec(150, "lai_low_max")
  ]

  const RadBands: seq<BandSpec> := [
    BandSpec(28, "albedo"),
    BandSpec(29, "lhf_sum"),
    BandSpec(30, "nsr_sum"),
    BandSpec(31, "ntr_sum"),
    BandSpec(32, "shf_sum"),
    BandSpec(33, "srd_sum"),
    BandSpec(34, "trd_sum"),
    BandSpec(105, "albedo_min"),
    BandSpec(106, "albedo_max"),
    BandSpec(107, "lhf_min"),
    BandSpec(108, "lhf_max"),
    BandSpec(109, "nsr_min"),
    BandSpec(110, "nsr_max"),
    BandSpec(111, "ntr_min"),
    BandSpec(112, "ntr_max"),
    BandSpec(113, "shf_min"),
    BandSpec(114, "shf_max"),
    BandSpec(115, "srd_min"),
    BandSpec(116, "srd_max"),
    BandSpec(117, "trd_min"),
    BandSpec(118, "trd_max")
  ]

  const SoilBands: seq<BandSpec> := [
    BandSpec(4, "stl1"),
    BandSpec(5, "stl2"),
    BandSpec(6, "stl3"),
    BandSpec(7, "stl4"),
    BandSpec(57, "stl1_min"),
    BandSpec(58, "stl1_max"),
    BandSpec(59, "stl2_min"),
    BandSpec(60, "stl2_max"),
    BandSpec(61, "stl3_min"),
    BandSpec(62, "stl3_max"),
    BandSpec(63, "stl4_min"),
    BandSpec(64, "stl4_max"),
    BandSpec(24, "vsw1"),
    BandSpec(25, "vsw2"),
    BandSpec(26, "vsw3"),
    BandSpec(27, "vsw4"),
    BandSpec(97, "vsw1_min"),
    BandSpec(98, "vsw1_max"),
    BandSpec(99, "vsw2_min"),
    BandSpec(100, "vsw2_max"),
    BandSpec(101, "vsw3_min"),
    BandSpec(102, "vsw3_max"),
    BandSpec(103, "vsw4_min"),
    BandSpec(104, "vsw4_max")
  ]

  const RunoffPrecipBands: seq<BandSpec> := [
    BandSpec(40, "ro"),
    BandSpec(42, "ro_sub"),
    BandSpec(43, "ro_sfc"),
    BandSpec(48, "tp"),
    BandSpec(129, "ro_min"),
    BandSpec(130, "ro_max"),
    BandSpec(133, "ro_sub_min"),
    BandSpec(134, "ro_sub_max"),
    BandSpec(135, "ro_sfc_min"),
    BandSpec(136, "ro_sfc_max"),
    BandSpec(145, "tp_min"),
    BandSpec(146, "tp_max")
  ]

  /**
   * The `LongName` and `Units` columns of a table row. They are kept in
   * tables of their own, row for row beside the band tables, so that
   * reasoning about indices and names does not carry the long strings along.
   */
  datatype Attributes = Attributes(longName: string, units: string)

  const EvapAttributes: seq<Attributes> := [
    Attributes("Evaporation from bare soil", "mm day-1"),
    Attributes("Evaporation from open water surfaces excluding oceans", "mm day-1"),
    Attributes("Evaporation from the top of canopy", "mm day-1"),
    Attributes("Evaporation from vegetation transpiration", "mm day-1"),
    Attributes("Potential evaporation", "mm day-1"),
    Attributes("Total evaporation", "mm day-1")
  ]

  const VegAttributes: seq<Attributes> := [
    Attributes("Leaf area index of high vegetation (half of total green leaf area)", "1"),
    Attributes("Leaf area index of low vegetation (half of total green leaf area)", "1"),
    Attributes("Daily minimum leaf_area_index_high_vegetation", "1"),
    Attributes("Daily maximum leaf_area_index_high_vegetation", "1"),
    Attributes("Daily minimum leaf_area_index_low_vegetation", "1"),
    Attributes("Daily maximum leaf_area_index_low_vegetation", "1")
  ]

  const RadAttributes: seq<Attributes> := [
    Attributes("Forecast albedo", "1"),
    Attributes("Surface latent heat flux sum", "J m-2"),
    Attributes("Surface net solar radiation sum", "J m-2"),
    Attributes("Surface net thermal radiation sum", "J m-2"),
    Attributes("Surface sensible heat flux sum", "J m-2"),
    Attributes("Surface solar radiation downwards sum", "J m-2"),
    Attributes("Surface thermal radiation downwards sum", "J m-2"),
    Attributes("Daily minimum forecast albedo", "1"),
    Attributes("Daily maximum forecast albedo", "1"),
    Attributes("Daily minimum surface latent heat flux", "J m-2"),
    Attributes("Daily maximum surface latent heat flux", "J m-2"),
    Attributes("Daily minimum surface net solar radiation", "J m-2"),
    Attributes("Daily maximum surface net solar radiation", "J m-2"),
    Attributes("Daily minimum surface net thermal radiation", "J m-2"),
    Attributes("Daily maximum surface net thermal radiation", "J m-2"),
    Attributes("Daily minimum surface sensible heat flux", "J m-2"),
    Attributes("Daily maximum surface sensible heat flux", "J m-2"),
    Attributes("Daily minimum surface solar radiation downwards", "J m-2"),
    Attributes("Daily maximum surface solar radiation downwards", "J m-2"),
    Attributes("Daily minimum surface thermal radiation downwards", "J m-2"),
    Attributes("Daily maximum surface thermal radiation downwards", "J m-2")
  ]

  const SoilAttributes: seq<Attributes> := [
    Attributes("Soil temperature level 1 (0-7 cm)", "K"),
    Attributes("Soil temperature level 2 (7-28 cm)", "K"),
    Attributes("Soil temperature level 3 (28-100 cm)", "K"),
    Attributes("Soil temperature level 4 (100-289 cm)", "K"),
    Attributes("Daily minimum soil temperature level 1", "K"),
    Attributes("Daily maximum soil temperature level 1", "K"),
    Attributes("Daily minimum soil temperature level 2", "K"),
    Attributes("Daily maximum soil temperature level 2", "K"),
    Attributes("Daily minimum soil temperature level 3", "K"),
    Attributes("Daily maximum soil temperature level 3", "K"),
    Attributes("Daily minimum soil temperature level 4", "K"),
    Attributes("Daily maximum soil temperature level 4", "K"),
    Attributes("Volumetric soil water layer 1 (0-7 cm)", "m3 m-3"),
    Attributes("Volumetric soil water layer 2 (7-28 cm)", "m3 m-3"),
    Attributes("Volumetric soil water layer 3 (28-100 cm)", "m3 m-3"),
    Attributes("Volumetric soil water layer 4 (100-289 cm)", "m3 m-3"),
    Attributes("Daily minimum volumetric soil water layer 1", "m3 m-3"),
    Attributes("Daily maximum volumetric soil water layer 1", "m3 m-3"),
    Attributes("Daily minimum volumetric soil water layer 2", "m3 m-3"),
    Attributes("Daily maximum volumetric soil water layer 2", "m3 m-3"),
    Attributes("Daily minimum volumetric soil water layer 3", "m3 m-3"),
    Attributes("Daily maximum volumetric soil water layer 3", "m3 m-3"),
    Attributes("Daily minimum volumetric soil water layer 4", "m3 m-3"),
    Attributes("Daily maximum volumetric soil water layer 4", "m3 m-3")
  ]

  const RunoffPrecipAttributes: seq<Attributes> := [
    Attributes("Runoff (total)", "m"),
    Attributes("Sub-surface runoff", "m"),
    Attributes("Surface runoff", "m"),
    Attributes("Total precipitation", "m"),
    Attributes("Daily minimum runoff", "m"),
    Attributes("Daily maximum runoff", "m"),
    Attributes("Daily minimum sub-surface runoff", "m"),
    Attributes("Daily maximum sub-surface runoff", "m"),
    Attributes("Daily minimum surface runoff", "m"),
    Attributes("Daily maximum surface runoff", "m"),
    Attributes("Daily minimum total precipitation", "m"),
    Attributes("Daily maximum total precipitation", "m")
  ]

  /** The attribute columns of a category's table, row for row. */
  function AttributeTable(c: Category): seq<Attributes>
  {
    match c
    case Evaporation => EvapAttributes
    case Vegetation => VegAttributes
    case Radiation => RadAttributes
    case Soil => SoilAttributes
    case RunoffPrecip => RunoffPrecipAttributes
  }

  /** Every row of every table has its long name and unit. */
  lemma AttributesCatalogued(c: Category)
    ensures |AttributeTable(c)| == |Bands(c)|
  {
  }

  /** The attributes of the first row of `bands` whose index is x, read from the parallel column `attrs`. */
  function LookupAttributes(bands: seq<BandSpec>, attrs: seq<Attributes>, x: nat): (r: Option<Attributes>)
    requires |attrs| == |bands|
    ensures r.None? <==> forall i :: 0 <= i < |bands| ==> bands[i].index != x
    ensures r.Some? ==> exists i :: 0 <= i < |bands| && bands[i].index == x && r.value == attrs[i]
  {
    if bands == [] then None
    else if bands[0].index == x then Some(attrs[0])
    else
      var rest := LookupAttributes(bands[1..], attrs[1..], x);
      assert rest.Some? ==> exists i :: 0 <= i < |bands| && bands[i].index == x && rest.value == attrs[i] by {
        if rest.Some? {
          var i :| 0 <= i < |bands[1..]| && bands[1..][i].index == x && rest.value == attrs[1..][i];
          assert bands[i + 1].index == x && rest.value == attrs[i + 1];
        }
      }
      assert rest.None? ==> forall i :: 0 <= i < |bands| ==> bands[i].index != x by {
        if rest.None? {
          forall i | 0 <= i < |bands| ensures bands[i].index != x {
            if i > 0 { assert bands[i] == bands[1..][i - 1]; }
          }
        }
      }
      rest
  }

  /** In a table with distinct indices, looking up a row's index finds that row's attributes. */
  lemma LookupFindsRow(bands: seq<BandSpec>, attrs: seq<Attributes>, i: nat)
    requires |attrs| == |bands| && IndicesDistinct(bands) && i < |bands|
    ensures LookupAttributes(bands, attrs, bands[i].index) == Some(attrs[i])
  {
  }

  /** `{'long_name': b['LongName'], 'units': b['Units']}` for the band of category c with source index x. */
  function AttributesOf(c: Category, x: nat): (r: Option<Attributes>)
    ensures r.Some? <==> x in IndexSet(c)
  {
    AttributesCatalogued(c);
    LookupAttributes(Bands(c), AttributeTable(c), x)
  }

  /** Each row of each table carries its own long name and unit. */
  lemma AttributesOfRow(c: Category, i: nat)
    requires i < |Bands(c)|
    ensures |AttributeTable(c)| == |Bands(c)|
    ensures AttributesOf(c, Bands(c)[i].index) == Some(AttributeTable(c)[i])
  {
    AttributesCatalogued(c);
    TableWellFormed(c);
    LookupFindsRow(Bands(c), AttributeTable(c), i);
  }

  /** The table of a category. */
  function Bands(c: Category): seq<BandSpec>
  {
    match c
    case Evaporation => EvapBands
    case Vegetation => VegBands
    case Radiation => RadBands
    case Soil => SoilBands
    case RunoffPrecip => RunoffPrecipBands
  }

  /** The source band indices of a table, in table order. */
  function Indices(bands: seq<BandSpec>): (r: seq<nat>)
    ensures |r| == |bands|
    ensures forall k :: 0 <= k < |bands| ==> r[k] == bands[k].index
  {
    if bands == [] then [] else [bands[0].index] + Indices(bands[1..])
  }

  /** The variable names of a table, in table order. */
  function VarNames(bands: seq<BandSpec>): (r: seq<string>)
    ensures |r| == |bands|
    ensures forall k :: 0 <= k < |bands| ==> r[k] == bands[k].varName
  {
    if bands == [] then [] else [bands[0].varName] + VarNames(bands[1..])
  }

  /** The set of source band indices a category reads. */
  function IndexSet(c: Category): set<nat>
  {
    set b | b in Bands(c) :: b.index
  }

  /** `evap_index_set`: the indices that receive the evaporation unit correction. */
  function EvapIndexSet(): set<nat>
  {
    IndexSet(Evaporation)
  }

  /** No two rows of a table share a source band index. */
  predicate IndicesDistinct(bands: seq<BandSpec>)
  {
    forall i, j :: 0 <= i < j < |bands| ==> bands[i].index != bands[j].index
  }

  /** No two rows of a table share a variable name. */
  predicate VarNamesDistinct(bands: seq<BandSpec>)
  {
    forall i, j :: 0 <= i < j < |bands| ==> bands[i].varName != bands[j].varName
  }

  /** No row of table a shares its source band index with a row of table b. */
  predicate TablesDisjoint(a: seq<BandSpec>, b: seq<BandSpec>)
  {
    forall i, j :: 0 <= i < |a| && 0 <= j < |b| ==> a[i].index != b[j].index
  }

  /** Every table uses positive band indices (raster bands are numbered from 1). */
  lemma IndicesPositive(c: Category)
    ensures forall i :: 0 <= i < |Bands(c)| ==> Bands(c)[i].index >= 1
  {
  }

  /** Within each table the band indices and the variable names are unique. */
  lemma TableWellFormed(c: Category)
    ensures IndicesDistinct(Bands(c)) && VarNamesDistinct(Bands(c))
  {
    match c
    case Evaporation => EvapIndicesDistinct(); EvapVarNamesDistinct();
    case Vegetation => VegIndicesDistinct(); VegVarNamesDistinct();
    case Radiation => RadIndicesDistinct(); RadVarNamesDistinct();
    case Soil => SoilIndicesDistinct(); SoilVarNamesDistinct();
    case RunoffPrecip => RunoffPrecipIndicesDistinct(); RunoffPrecipVarNamesDistinct();
  }

  /**
   * The distinctness facts per table. The three largest tables are checked in
   * slices of rows so that each proof obligation stays small.
   */
  lemma EvapIndicesDistinct() ensures IndicesDistinct(EvapBands) {}
  lemma EvapVarNamesDistinct() ensures VarNamesDistinct(EvapBands) {}
  lemma VegIndicesDistinct() ensures IndicesDistinct(VegBands) {}
  lemma VegVarNamesDistinct() ensures VarNamesDistinct(VegBands) {}
  lemma RadIndicesDistinct() ensures IndicesDistinct(RadBands)
  {
    RadIndicesDistinctFrom(0, 7);
    RadIndicesDistinctFrom(7, 14);
    RadIndicesDistinctFrom(14, 21);
  }
  lemma RadIndicesDistinctFrom(lo: nat, hi: nat)
    requires (lo, hi) in {(0, 7), (7, 14), (14, 21)}
    ensures forall i, j :: lo <= i < hi && i < j < |RadBands| ==> RadBands[i].index != RadBands[j].index
  {
  }
  lemma RadVarNamesDistinct() ensures VarNamesDistinct(RadBands)
  {
    RadVarNamesDistinctFrom(0, 7);
    RadVarNamesDistinctFrom(7, 14);
    RadVarNamesDistinctFrom(14, 21);
  }
  lemma RadVarNamesDistinctFrom(lo: nat, hi: nat)
    requires (lo, hi) in {(0, 7), (7, 14), (14, 21)}
    ensures forall i, j :: lo <= i < hi && i < j < |RadBands| ==> RadBands[i].varName != RadBands[j].varName
  {
  }
  lemma SoilIndicesDistinct() ensures IndicesDistinct(SoilBands)
  {
    SoilIndicesDistinctFrom(0, 8);
    SoilIndicesDistinctFrom(8, 16);
    SoilIndicesDistinctFrom(16, 24);
  }
  lemma SoilIndicesDistinctFrom(lo: nat, hi: nat)
    requires (lo, hi) in {(0, 8), (8, 16), (16, 24)}
    ensures forall i, j :: lo <= i < hi && i < j < |SoilBands| ==> SoilBands[i].index != SoilBands[j].index
  {
  }
  lemma SoilVarNamesDistinct() ensures VarNamesDistinct(SoilBands)
  {
    SoilVarNamesDistinctFrom(0, 8);
    SoilVarNamesDistinctFrom(8, 16);
    SoilVarNamesDistinctFrom(16, 24);
  }
  lemma SoilVarNamesDistinctFrom(lo: nat, hi: nat)
    requires (lo, hi) in {(0, 8), (8, 16), (16, 24)}
    ensures forall i, j :: lo <= i < hi && i < j < |SoilBands| ==> SoilBands[i].varName != SoilBands[j].varName
  {
  }
  lemma RunoffPrecipIndicesDistinct() ensures IndicesDistinct(RunoffPrecipBands)
  {
    RunoffPrecipIndicesDistinctFrom(0, 6);
    RunoffPrecipIndicesDistinctFrom(6, 12);
  }
  lemma RunoffPrecipIndicesDistinctFrom(lo: nat, hi: nat)
    requires (lo, hi) in {(0, 6), (6, 12)}
    ensures forall i, j :: lo <= i < hi && i < j < |RunoffPrecipBands| ==> RunoffPrecipBands[i].index != RunoffPrecipBands[j].index
  {
  }
  lemma RunoffPrecipVarNamesDistinct() ensures VarNamesDistinct(RunoffPrecipBands)
  {
    RunoffPrecipVarNamesDistinctFrom(0, 6);
    RunoffPrecipVarNamesDistinctFrom(6, 12);
  }
  lemma RunoffPrecipVarNamesDistinctFrom(lo: nat, hi: nat)
    requires (lo, hi) in {(0, 6), (6, 12)}
    ensures forall i, j :: lo <= i < hi && i < j < |RunoffPrecipBands| ==> RunoffPrecipBands[i].varName != RunoffPrecipBands[j].varName
  {
  }

  lemma DisjointTablesHaveDisjointSets(c1: Category, c2: Category)
    requires TablesDisjoint(Bands(c1), Bands(c2))
    ensures IndexSet(c1) !! IndexSet(c2)
  {
    forall x | x in IndexSet(c1) ensures x !in IndexSet(c2) {
      var b1 :| b1 in Bands(c1) && b1.index == x;
      var i :| 0 <= i < |Bands(c1)| && Bands(c1)[i] == b1;
      forall b2 | b2 in Bands(c2) ensures b2.index != x {
        var j :| 0 <= j < |Bands(c2)| && Bands(c2)[j] == b2;
      }
    }
  }

  /** The position of a category in the day loop's order. */
  function Position(c: Category): (k: nat)
    ensures k < |Categories| && Categories[k] == c
  {
    match c
    case Evaporation => 0
    case Vegetation => 1
    case Radiation => 2
    case Soil => 3
    case RunoffPrecip => 4
  }

  /**
   * The source band ranges each table draws from; the ranges of different
   * categories do not overlap.
   */
  predicate InIndexRanges(c: Category, x: nat)
  {
    match c
    case Evaporation => 35 <= x <= 39 || x == 44
    case Vegetation => 49 <= x <= 50 || 147 <= x <= 150
    case Radiation => 28 <= x <= 34 || 105 <= x <= 118
    case Soil => 4 <= x <= 7 || 24 <= x <= 27 || 57 <= x <= 64 || 97 <= x <= 104
    case RunoffPrecip => x == 40 || 42 <= x <= 43 || x == 48 || 129 <= x <= 130 || 133 <= x <= 136 || 145 <= x <= 146
  }

  /** Every row of a table lies in the table's ranges. */
  lemma IndicesInRanges(c: Category)
    ensures forall i :: 0 <= i < |Bands(c)| ==> InIndexRanges(c, Bands(c)[i].index)
  {
    match c
    case Evaporation =>
    case Vegetation =>
    case Radiation =>
    case Soil =>
    case RunoffPrecip =>
  }

  /** A band index lies in the ranges of one category at most. */
  lemma RangesDisjoint(c1: Category, c2: Category, x: nat)
    requires InIndexRanges(c1, x) && InIndexRanges(c2, x)
    ensures c1 == c2
  {
  }

  lemma TablesPairwiseDisjoint(c1: Category, c2: Category)
    requires c1 != c2
    ensures TablesDisjoint(Bands(c1), Bands(c2))
  {
    IndicesInRanges(c1);
    IndicesInRanges(c2);
    forall i, j | 0 <= i < |Bands(c1)| && 0 <= j < |Bands(c2)|
      ensures Bands(c1)[i].index != Bands(c2)[j].index
    {
      if Bands(c1)[i].index == Bands(c2)[j].index {
        RangesDisjoint(c1, c2, Bands(c1)[i].index);
      }
    }
  }

  /** The five tables are pairwise disjoint: no band index belongs to two categories. */
  lemma CategoriesDisjoint(c1: Category, c2: Category)
    requires c1 != c2
    ensures IndexSet(c1) !! IndexSet(c2)
  {
    TablesPairwiseDisjoint(c1, c2);
    DisjointTablesHaveDisjointSets(c1, c2);
  }

  /** The three variables that the evaporation swap exchanges are in the evaporation table. */
  lemma SwapVariablesCatalogued()
    ensures "Es" in VarNames(EvapBands) && "Ew" in VarNames(EvapBands) && "Et" in VarNames(EvapBands)
  {
    assert VarNames(EvapBands)[0] == "Es";
    assert VarNames(EvapBands)[1] == "Ew";
    assert VarNames(EvapBands)[3] == "Et";
  }
}
