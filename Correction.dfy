/**
 * Evaporation correction and band lookup on the merged array: the slices whose
 * source index is an evaporation index are multiplied by -1000 in place
 * (metres of water to mm per day, with the sign of the downward-flux
 * convention flipped), and an index-to-position map finds each band.
 */
module Correction {
  import opened Catalog
  import opened Selection
  import opened Tiles

  const EvapFactor: real := -1000.0

  /** A band multiplied cell by cell by the evaporation factor. */
  function Scaled(g: Grid): (o: Grid)
    ensures |o| == |g|
    ensures forall r :: 0 <= r < |g| ==> |o[r]| == |g[r]|
    ensures forall r, j :: 0 <= r < |g| && 0 <= j < |g[r]| ==> o[r][j] == EvapFactor * g[r][j]
  {
    seq(|g|, r requires 0 <= r < |g| => seq(|g[r]|, j requires 0 <= j < |g[r]| => EvapFactor * g[r][j]))
  }

  /** The positions from `from` on whose index is in `selected`. */
  function PositionsFrom(needed: seq<nat>, selected: set<nat>, from: nat): (r: seq<nat>)
    decreases |needed| - from
    ensures StrictlyIncreasing(r)
    ensures forall p :: p in r <==> from <= p < |needed| && needed[p] in selected
  {
    if from >= |needed| then []
    else
      var rest := PositionsFrom(needed, selected, from + 1);
      assert forall k :: 0 <= k < |rest| ==> from < rest[k] by {
        forall k | 0 <= k < |rest| ensures from < rest[k] { assert rest[k] in rest; }
      }
      (if needed[from] in selected then [from] else []) + rest
  }

  /**
   * `evap_positions`: ascending, and exactly the positions of needed_indices
   * that hold an evaporation index.
   */
  function EvapPositions(needed: seq<nat>): (r: seq<nat>)
    ensures StrictlyIncreasing(r)
    ensures forall p :: p in r <==> 0 <= p < |needed| && needed[p] in EvapIndexSet()
  {
    PositionsFrom(needed, EvapIndexSet(), 0)
  }

  /** The merged array with the slices at indices in `selected` scaled. */
  function ScaledWhere(s: Stack, needed: seq<nat>, selected: set<nat>): (r: Stack)
    requires |s| == |needed|
    ensures |r| == |s|
    ensures forall k :: 0 <= k < |s| && needed[k] !in selected ==> r[k] == s[k]
    ensures forall k, row, j :: 0 <= k < |s| && needed[k] in selected && 0 <= row < |s[k]| && 0 <= j < |s[k][row]| ==>
      |r[k]| == |s[k]| && |r[k][row]| == |s[k][row]| && r[k][row][j] == EvapFactor * s[k][row][j]
  {
    seq(|s|, k requires 0 <= k < |s| => if needed[k] in selected then Scaled(s[k]) else s[k])
  }

  /** The merged array after the evaporation correction (the specification of the in-place update). */
  function Corrected(s: Stack, needed: seq<nat>): (r: Stack)
    requires |s| == |needed|
    ensures |r| == |s|
    ensures forall k :: 0 <= k < |s| && needed[k] !in EvapIndexSet() ==> r[k] == s[k]
  {
    ScaledWhere(s, needed, EvapIndexSet())
  }

  /**
   * `full_bands[evap_positions] *= -1000.0`, with `evap_index_set` passed as
   * `selected`: every listed slice is scaled once, every other slice is left
   * as it was.
   */
  method ScaleSlices(full: array<Grid>, needed: seq<nat>, selected: set<nat>, positions: seq<nat>)
    requires full.Length == |needed|
    requires StrictlyIncreasing(positions)
    requires forall p :: p in positions <==> 0 <= p < |needed| && needed[p] in selected
    modifies full
    ensures full[..] == ScaledWhere(old(full[..]), needed, selected)
  {
    ghost var orig := full[..];
    var j := 0;
    while j < |positions|
      invariant 0 <= j <= |positions|
      invariant forall k :: 0 <= k < full.Length ==>
        full[k] == if k in positions[..j] then Scaled(orig[k]) else orig[k]
    {
      var p := positions[j];
      assert p in positions;
      assert p !in positions[..j] by {
        forall q | 0 <= q < j ensures positions[q] != p { assert positions[q] < positions[j]; }
      }
      full[p] := Scaled(full[p]);
      assert positions[..j + 1] == positions[..j] + [p];
      j := j + 1;
    }
    assert positions[..j] == positions;
    ghost var expected := ScaledWhere(orig, needed, selected);
    assert forall k :: 0 <= k < full.Length ==> full[..][k] == expected[k];
  }

  /** `idx_to_position`: each index of needed_indices mapped to where it stands. */
  function PositionMap(needed: seq<nat>): (m: map<nat, nat>)
    ensures forall x :: x in m <==> x in needed
    ensures forall x :: x in m ==> m[x] < |needed| && needed[m[x]] == x
  {
    if needed == [] then map[]
    else
      var init := needed[..|needed| - 1];
      assert needed == init + [needed[|needed| - 1]];
      PositionMap(init)[needed[|needed| - 1] := |needed| - 1]
  }

  /** `get_band_data`: the slice of the merged array that holds band `index`. */
  function BandData(full: Stack, m: map<nat, nat>, index: nat): Grid
    requires index in m && m[index] < |full|
  {
    full[m[index]]
  }

  /**
   * Every band of every needed category has a position in idx_to_position, and
   * that position holds its index.
   */
  lemma NeededBandsHavePositions(needed: set<Category>, c: Category, b: BandSpec)
    requires c in needed && b in Bands(c)
    ensures b.index in PositionMap(NeededIndices(needed))
    ensures NeededIndices(needed)[PositionMap(NeededIndices(needed))[b.index]] == b.index
  {
    assert b.index in IndexSet(c);
  }

  /**
   * A band of a needed category is scaled by the correction exactly when its
   * category is Evaporation: the catalogs are disjoint, so no other variable
   * is ever scaled.
   */
  lemma OnlyEvaporationScaled(needed: set<Category>, s: Stack, c: Category, b: BandSpec)
    requires c in needed && b in Bands(c)
    requires |s| == |NeededIndices(needed)|
    ensures b.index in PositionMap(NeededIndices(needed))
    ensures var p := PositionMap(NeededIndices(needed))[b.index];
      Corrected(s, NeededIndices(needed))[p] == if c == Evaporation then Scaled(s[p]) else s[p]
  {
    NeededBandsHavePositions(needed, c, b);
    assert b.index in IndexSet(c);
    if c != Evaporation {
      CategoriesDisjoint(c, Evaporation);
    }
  }

  /** When the evaporation output already exists, nothing is scaled. */
  lemma NoEvaporationNoScaling(needed: set<Category>, s: Stack)
    requires Evaporation !in needed
    requires |s| == |NeededIndices(needed)|
    ensures EvapPositions(NeededIndices(needed)) == []
    ensures Corrected(s, NeededIndices(needed)) == s
  {
    var idx := NeededIndices(needed);
    var ps := EvapPositions(idx);
    assert ps != [] ==> ps[0] in ps;
    forall k | 0 <= k < |idx| ensures idx[k] !in EvapIndexSet() {
      assert idx[k] in idx;
      var c :| c in needed && idx[k] in IndexSet(c);
      CategoriesDisjoint(c, Evaporation);
    }
  }
}
