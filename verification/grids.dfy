/** Two-dimensional fields of exact real samples (one colour plane, one
    derivative, one magnitude map), and their extremal values. */
module Grids {

  /** Rows of samples; row i, column j is g[i][j]. */
  type Grid = seq<seq<real>>

  /** g has exactly h rows of exactly w samples each. */
  predicate IsGrid(g: Grid, h: nat, w: nat)
  {
    |g| == h && forall i :: 0 <= i < h ==> |g[i]| == w
  }

  /** g and g' have the same number of rows and the same row lengths. */
  predicate SameShape(g: Grid, g': Grid)
  {
    |g| == |g'| && forall i :: 0 <= i < |g| ==> |g[i]| == |g'[i]|
  }

  /** g has at least one row and no empty row, so it has a minimum and a maximum. */
  predicate NonEmpty(g: Grid)
  {
    |g| > 0 && forall i :: 0 <= i < |g| ==> |g[i]| > 0
  }

  /** Every sample of g lies in the closed interval [lo, hi]. */
  predicate Within(g: Grid, lo: real, hi: real)
  {
    forall i, j :: 0 <= i < |g| && 0 <= j < |g[i]| ==> lo <= g[i][j] <= hi
  }

  /** No sample of g is negative. */
  predicate NonNegative(g: Grid)
  {
    forall i, j :: 0 <= i < |g| && 0 <= j < |g[i]| ==> 0.0 <= g[i][j]
  }

  /** Every sample of g equals c. */
  predicate IsConstant(g: Grid, c: real)
  {
    forall i, j :: 0 <= i < |g| && 0 <= j < |g[i]| ==> g[i][j] == c
  }

  /** A field of zeros with the shape of g. */
  function ZerosLike(g: Grid): (z: Grid)
    ensures SameShape(z, g) && IsConstant(z, 0.0)
  {
    seq(|g|, i requires 0 <= i < |g| => seq(|g[i]|, _ => 0.0))
  }

  /** The least sample of a non-empty row. */
  function RowMin(r: seq<real>): (m: real)
    requires |r| > 0
    ensures forall k :: 0 <= k < |r| ==> m <= r[k]
    ensures exists k :: 0 <= k < |r| && r[k] == m
  {
    if |r| == 1 then r[0]
    else
      var rest := RowMin(r[1..]);
      assert forall k :: 1 <= k < |r| ==> r[k] == r[1..][k - 1];
      if r[0] <= rest then r[0] else rest
  }

  /** The greatest sample of a non-empty row. */
  function RowMax(r: seq<real>): (m: real)
    requires |r| > 0
    ensures forall k :: 0 <= k < |r| ==> r[k] <= m
    ensures exists k :: 0 <= k < |r| && r[k] == m
  {
    if |r| == 1 then r[0]
    else
      var rest := RowMax(r[1..]);
      assert forall k :: 1 <= k < |r| ==> r[k] == r[1..][k - 1];
      if rest <= r[0] then r[0] else rest
  }

  /** The least sample of the whole field (numpy's `min()`). */
  function GridMin(g: Grid): (m: real)
    requires NonEmpty(g)
    ensures forall i, j :: 0 <= i < |g| && 0 <= j < |g[i]| ==> m <= g[i][j]
    ensures exists i, j :: 0 <= i < |g| && 0 <= j < |g[i]| && g[i][j] == m
  {
    var first := RowMin(g[0]);
    if |g| == 1 then first
    else
      var rest := GridMin(g[1..]);
      assert forall i :: 1 <= i < |g| ==> g[i] == g[1..][i - 1];
      if first <= rest then first else rest
  }

  /** The greatest sample of the whole field (numpy's `max()`). */
  function GridMax(g: Grid): (m: real)
    requires NonEmpty(g)
    ensures forall i, j :: 0 <= i < |g| && 0 <= j < |g[i]| ==> g[i][j] <= m
    ensures exists i, j :: 0 <= i < |g| && 0 <= j < |g[i]| && g[i][j] == m
  {
    var first := RowMax(g[0]);
    if |g| == 1 then first
    else
      var rest := GridMax(g[1..]);
      assert forall i :: 1 <= i < |g| ==> g[i] == g[1..][i - 1];
      if rest <= first then first else rest
  }

  /** A constant field has equal minimum and maximum. */
  lemma ConstantHasNoSpread(g: Grid, c: real)
    requires NonEmpty(g) && IsConstant(g, c)
    ensures GridMin(g) == c && GridMax(g) == c
  {
  }

  /** If all samples are at least c and one equals c, c is the minimum. */
  lemma AttainedLowerBoundIsMin(g: Grid, c: real, i0: nat, j0: nat)
    requires NonEmpty(g) && Within(g, c, GridMax(g))
    requires i0 < |g| && j0 < |g[i0]| && g[i0][j0] == c
    ensures GridMin(g) == c
  {
  }

  /** If all samples are at most c and one equals c, c is the maximum. */
  lemma AttainedUpperBoundIsMax(g: Grid, c: real, i0: nat, j0: nat)
    requires NonEmpty(g) && Within(g, GridMin(g), c)
    requires i0 < |g| && j0 < |g[i0]| && g[i0][j0] == c
    ensures GridMax(g) == c
  {
  }
}
