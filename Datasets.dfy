/**
 * Dataset building: one variable per catalog row, bound to its slice of the
 * merged array with its long name and unit, and the optional evaporation swap,
 * which exchanges data among Es, Ew and Et but keeps each variable's name and
 * attributes.
 */
module Datasets {
  import opened Wrappers
  import opened Catalog
  import opened Tiles
  import opened Correction

  /** Lengths of the initial latitude and longitude coordinate vectors. */
  const LatCount: nat := 1800
  const LonCount: nat := 3600

  /**
   * A data variable: its grid and the source band index of the catalog row it
   * was built from; AttributesOf of that index gives its `long_name` and
   * `units` attributes.
   */
  datatype Variable = Variable(data: Grid, source: nat)

  /** The data variables of a dataset, by name. */
  type Vars = map<string, Variable>

  datatype BuildError = GridMismatch

  /** A band matches the (lat, lon) coordinates of the dataset. */
  predicate FitsGrid(g: Grid)
  {
    |g| == LatCount && forall r :: 0 <= r < |g| ==> |g[r]| == LonCount
  }

  /**
   * Every slice of the merged array matches the coordinates. The merged array
   * is one numpy array, so all its slices share one shape, and each
   * `build_dataset` call succeeds exactly when this holds.
   */
  predicate StackFits(full: Stack)
  {
    forall k :: 0 <= k < |full| ==> FitsGrid(full[k])
  }

  /** Every band of the table has a slice in the merged array. */
  predicate Covers(bands: seq<BandSpec>, full: Stack, pos: map<nat, nat>)
  {
    forall b :: b in bands ==> b.index in pos && pos[b.index] < |full|
  }

  /** Some row of the table declares variable v. */
  predicate Declares(bands: seq<BandSpec>, v: string)
  {
    exists i :: 0 <= i < |bands| && bands[i].varName == v
  }

  /**
   * `build_dataset`: the `data_vars` dictionary, one entry per variable name of
   * the table, filled row by row (a later row with the same name would
   * replace an earlier one).
   */
  function DataVars(bands: seq<BandSpec>, full: Stack, pos: map<nat, nat>): Vars
    requires Covers(bands, full, pos)
  {
    if bands == [] then map[]
    else
      var init := bands[..|bands| - 1];
      var b := bands[|bands| - 1];
      assert forall x :: x in init ==> x in bands;
      DataVars(init, full, pos)[b.varName := Variable(BandData(full, pos, b.index), b.index)]
  }

  /** The dataset has exactly the variable names the table declares. */
  lemma {:induction false} DataVarsKeys(bands: seq<BandSpec>, full: Stack, pos: map<nat, nat>)
    requires Covers(bands, full, pos)
    ensures forall v :: v in DataVars(bands, full, pos) <==> Declares(bands, v)
  {
    if bands != [] {
      var init := bands[..|bands| - 1];
      var b := bands[|bands| - 1];
      assert forall x :: x in init ==> x in bands;
      DataVarsKeys(init, full, pos);
      var ds := DataVars(bands, full, pos);
      assert ds == DataVars(init, full, pos)[b.varName := Variable(full[pos[b.index]], b.index)];
      forall v ensures v in ds <==> Declares(bands, v) {
        if Declares(bands, v) && v != b.varName {
          var i :| 0 <= i < |bands| && bands[i].varName == v;
          assert init[i].varName == v;
        }
        if v in ds && v != b.varName {
          assert Declares(init, v);
          var i :| 0 <= i < |init| && init[i].varName == v;
          assert bands[i].varName == v;
        }
        if v == b.varName {
          assert bands[|bands| - 1].varName == v;
        }
      }
    }
  }

  /**
   * With unique variable names, each row's variable holds the row's slice of
   * the merged array and the row's attributes.
   */
  lemma {:induction false} DataVarsBindsEachRow(bands: seq<BandSpec>, full: Stack, pos: map<nat, nat>, i: nat)
    requires Covers(bands, full, pos) && VarNamesDistinct(bands) && i < |bands|
    ensures bands[i].varName in DataVars(bands, full, pos)
    ensures DataVars(bands, full, pos)[bands[i].varName]
         == Variable(full[pos[bands[i].index]], bands[i].index)
  {
    var init := bands[..|bands| - 1];
    assert forall x :: x in init ==> x in bands;
    DataVarsKeys(bands, full, pos);
    assert Declares(bands, bands[i].varName);
    if i < |bands| - 1 {
      assert VarNamesDistinct(init);
      DataVarsBindsEachRow(init, full, pos, i);
      assert bands[i].varName != bands[|bands| - 1].varName;
    }
  }

  predicate HasSwapVariables(vars: Vars)
  {
    "Es" in vars && "Ew" in vars && "Et" in vars
  }

  /**
   * The evaporation swap: new Es data = old Ew data, new Ew data = old Et data,
   * new Et data = old Es data; names, attributes and every other variable are
   * unchanged.
   */
  function EvapSwapped(vars: Vars): (r: Vars)
    requires HasSwapVariables(vars)
    ensures r.Keys == vars.Keys
    ensures r["Es"] == vars["Es"].(data := vars["Ew"].data)
    ensures r["Ew"] == vars["Ew"].(data := vars["Et"].data)
    ensures r["Et"] == vars["Et"].(data := vars["Es"].data)
    ensures forall v :: v in vars && v != "Es" && v != "Ew" && v != "Et" ==> r[v] == vars[v]
  {
    vars["Es" := vars["Es"].(data := vars["Ew"].data)]
        ["Ew" := vars["Ew"].(data := vars["Et"].data)]
        ["Et" := vars["Et"].(data := vars["Es"].data)]
  }

  /** The swap is a three-cycle: applying it three times restores the dataset. */
  lemma SwapThriceIsIdentity(vars: Vars)
    requires HasSwapVariables(vars)
    ensures EvapSwapped(EvapSwapped(EvapSwapped(vars))) == vars
  {
    var once := EvapSwapped(vars);
    var twice := EvapSwapped(once);
    var thrice := EvapSwapped(twice);
    assert twice["Es"].data == vars["Et"].data;
    assert twice["Ew"].data == vars["Es"].data;
    assert twice["Et"].data == vars["Ew"].data;
    assert thrice["Es"] == vars["Es"] && thrice["Ew"] == vars["Ew"] && thrice["Et"] == vars["Et"];
  }

  /**
   * The cycle length is exactly three: when the three data differ, neither one
   * nor two applications restore the dataset.
   */
  lemma SwapCycleLengthThree(vars: Vars)
    requires HasSwapVariables(vars)
    requires vars["Es"].data != vars["Ew"].data && vars["Ew"].data != vars["Et"].data
    requires vars["Es"].data != vars["Et"].data
    ensures EvapSwapped(vars) != vars
    ensures EvapSwapped(EvapSwapped(vars)) != vars
  {
    assert EvapSwapped(vars)["Es"].data == vars["Ew"].data;
    assert EvapSwapped(EvapSwapped(vars))["Es"].data == vars["Et"].data;
  }

  /** The evaporation dataset holds the three variables the swap exchanges. */
  lemma EvapDatasetHasSwapVariables(full: Stack, pos: map<nat, nat>)
    requires Covers(EvapBands, full, pos)
    ensures HasSwapVariables(DataVars(EvapBands, full, pos))
  {
    assert EvapBands[0].varName == "Es" && EvapBands[1].varName == "Ew" && EvapBands[3].varName == "Et";
    DataVarsKeys(EvapBands, full, pos);
    assert Declares(EvapBands, "Es") && Declares(EvapBands, "Ew") && Declares(EvapBands, "Et");
  }

  /** In the evaporation dataset, Es, Ew and Et hold the slices of bands 35, 36 and 38. */
  lemma EvapDatasetRows(full: Stack, pos: map<nat, nat>)
    requires Covers(EvapBands, full, pos)
    ensures 35 in pos && 36 in pos && 38 in pos
    ensures pos[35] < |full| && pos[36] < |full| && pos[38] < |full|
    ensures var vars := DataVars(EvapBands, full, pos);
      "Es" in vars && "Ew" in vars && "Et" in vars &&
      vars["Es"] == Variable(full[pos[35]], 35) &&
      vars["Ew"] == Variable(full[pos[36]], 36) &&
      vars["Et"] == Variable(full[pos[38]], 38)
  {
    assert EvapBands[0] in EvapBands && EvapBands[1] in EvapBands && EvapBands[3] in EvapBands;
    EvapVarNamesDistinct();
    DataVarsBindsEachRow(EvapBands, full, pos, 0);
    DataVarsBindsEachRow(EvapBands, full, pos, 1);
    DataVarsBindsEachRow(EvapBands, full, pos, 3);
  }

  /** A dataset whose variables the code updates in place. */
  class Dataset {
    var vars: Vars

    constructor (vars: Vars)
      ensures this.vars == vars
    {
      this.vars := vars;
    }

    /** Reassigns the data of Es, Ew and Et from copies taken beforehand. */
    method SwapEvaporation()
      requires HasSwapVariables(vars)
      modifies this
      ensures vars == EvapSwapped(old(vars))
    {
      var esData := vars["Es"].data;
      var ewData := vars["Ew"].data;
      var etData := vars["Et"].data;
      vars := vars["Es" := vars["Es"].(data := ewData)];
      vars := vars["Ew" := vars["Ew"].(data := etData)];
      vars := vars["Et" := vars["Et"].(data := esData)];
    }
  }
}
