/**
 * Tile reading and merging. A tile is one hemispheric half of the day's
 * global raster; a read selects bands by their 1-based index, and the two
 * halves are concatenated along the width (longitude) axis, the first tile in
 * sorted path order supplying the western half.
 */
module Tiles {
  import opened Wrappers

  type Row = seq<real>

  /** One band: a sequence of rows (latitude), each a sequence of cells (longitude). */
  type Grid = seq<Row>

  /** Bands x height x width. */
  type Stack = seq<Grid>

  /** A raster file: its path and its bands, or None when it cannot be opened. */
  datatype TileFile = TileFile(path: string, raster: Option<Stack>)

  datatype TileError =
    | Unreadable(path: string)
    | BandOutOfRange(path: string)
    | ShapeMismatch

  /** Every band has h rows of w cells. */
  predicate IsBlock(s: Stack, h: nat, w: nat)
  {
    forall k :: 0 <= k < |s| ==> |s[k]| == h && forall r :: 0 <= r < h ==> |s[k][r]| == w
  }

  predicate IndicesInRange(indices: seq<nat>, bandCount: nat)
  {
    forall i :: 0 <= i < |indices| ==> 1 <= indices[i] <= bandCount
  }

  /**
   * `src.read(band_indices)`: the requested bands in the requested order. It
   * fails when the file cannot be opened or an index is not a band of the file.
   */
  function ReadBands(t: TileFile, indices: seq<nat>): (r: Result<Stack, TileError>)
    ensures r.Success? <==> t.raster.Some? && IndicesInRange(indices, |t.raster.value|)
    ensures r.Success? ==> |r.value| == |indices|
    ensures r.Success? ==> forall k :: 0 <= k < |indices| ==> r.value[k] == t.raster.value[indices[k] - 1]
    ensures r.Success? ==> forall h, w :: IsBlock(t.raster.value, h, w) ==> IsBlock(r.value, h, w)
  {
    match t.raster
    case None => Failure(Unreadable(t.path))
    case Some(bands) =>
      if IndicesInRange(indices, |bands|) then
        Success(seq(|indices|, k requires 0 <= k < |indices| => bands[indices[k] - 1]))
      else Failure(BandOutOfRange(t.path))
  }

  /** Two bands can be joined side by side when they have the same number of rows. */
  predicate SameHeights(s1: Stack, s2: Stack)
  {
    |s1| == |s2| && forall k :: 0 <= k < |s1| ==> |s1[k]| == |s2[k]|
  }

  function ConcatRows(a: Grid, b: Grid): (g: Grid)
    requires |a| == |b|
    ensures |g| == |a|
    ensures forall r :: 0 <= r < |a| ==> g[r] == a[r] + b[r]
  {
    seq(|a|, r requires 0 <= r < |a| => a[r] + b[r])
  }

  /**
   * `np.concatenate((s1, s2), axis=2)`: row r of band k of the result is row r
   * of band k of s1 followed by the same row of s2. It fails when the band
   * counts or the heights differ.
   */
  function Concat(s1: Stack, s2: Stack): (r: Result<Stack, TileError>)
    ensures r.Success? <==> SameHeights(s1, s2)
    ensures r.Success? ==> |r.value| == |s1|
    ensures r.Success? ==> forall k :: 0 <= k < |s1| ==> r.value[k] == ConcatRows(s1[k], s2[k])
  {
    if SameHeights(s1, s2) then
      Success(seq(|s1|, k requires 0 <= k < |s1| && SameHeights(s1, s2) => ConcatRows(s1[k], s2[k])))
    else Failure(ShapeMismatch)
  }

  /**
   * Merging two rectangular halves of equal height always succeeds and gives a
   * rectangular stack: the band count and the height are kept, the widths add.
   */
  lemma ConcatShape(s1: Stack, s2: Stack, h: nat, w1: nat, w2: nat)
    requires |s1| == |s2| && IsBlock(s1, h, w1) && IsBlock(s2, h, w2)
    ensures Concat(s1, s2).Success?
    ensures |Concat(s1, s2).value| == |s1| && IsBlock(Concat(s1, s2).value, h, w1 + w2)
  {
  }

  /**
   * The merged array splits back into its halves: the first w1 cells of each
   * row come from the first tile, the rest from the second.
   */
  lemma ConcatHalves(s1: Stack, s2: Stack, h: nat, w1: nat, w2: nat)
    requires |s1| == |s2| && IsBlock(s1, h, w1) && IsBlock(s2, h, w2)
    ensures Concat(s1, s2).Success?
    ensures forall k, r :: 0 <= k < |s1| && 0 <= r < h ==>
      Concat(s1, s2).value[k][r][..w1] == s1[k][r] && Concat(s1, s2).value[k][r][w1..] == s2[k][r]
  {
    forall k, r | 0 <= k < |s1| && 0 <= r < h
      ensures Concat(s1, s2).value[k][r][..w1] == s1[k][r] && Concat(s1, s2).value[k][r][w1..] == s2[k][r]
    {
      var row := Concat(s1, s2).value[k][r];
      assert row == s1[k][r] + s2[k][r];
    }
  }
}
