/** Min-max normalisation of a magnitude field onto [0, 1]. */
module Normalization {
  import opened Grids

  /** The position of v in [lo, hi], as a fraction of its width. */
  function Rescale(v: real, lo: real, hi: real): real
    requires lo < hi
  {
    (v - lo) / (hi - lo)
  }

  lemma RescaleBounds(v: real, lo: real, hi: real)
    requires lo <= v <= hi && lo < hi
    ensures 0.0 <= Rescale(v, lo, hi) <= 1.0
    ensures Rescale(lo, lo, hi) == 0.0 && Rescale(hi, lo, hi) == 1.0
  {
    var d := hi - lo;
    assert (v - lo) / d <= 1.0 by {
      assert (v - lo) / d * d == v - lo;
    }
  }

  lemma RescaleMonotone(a: real, b: real, lo: real, hi: real)
    requires lo < hi
    ensures a <= b <==> Rescale(a, lo, hi) <= Rescale(b, lo, hi)
  {
    var d := hi - lo;
    assert Rescale(b, lo, hi) - Rescale(a, lo, hi) == (b - a) / d;
    if a <= b {
      assert 0.0 <= (b - a) / d;
    } else {
      assert (b - a) / d < 0.0;
    }
  }

  /** The field rescaled so that its minimum becomes 0 and its maximum 1; a
      field whose maximum does not exceed its minimum becomes all zeros. */
  function Normalize(g: Grid): (n: Grid)
    requires NonEmpty(g)
    ensures SameShape(n, g) && NonEmpty(n)
    ensures Within(n, 0.0, 1.0)
    ensures GridMin(g) == GridMax(g) <==> IsConstant(n, 0.0)
  {
    var lo, hi := GridMin(g), GridMax(g);
    if hi > lo then
      var n := seq(|g|, i requires 0 <= i < |g| =>
        seq(|g[i]|, j requires 0 <= j < |g[i]| => Rescale(g[i][j], lo, hi)));
      assert Within(n, 0.0, 1.0) by {
        forall i, j | 0 <= i < |g| && 0 <= j < |g[i]| ensures 0.0 <= n[i][j] <= 1.0 {
          RescaleBounds(g[i][j], lo, hi);
        }
      }
      assert !IsConstant(n, 0.0) by {
        var i, j :| 0 <= i < |g| && 0 <= j < |g[i]| && g[i][j] == hi;
        RescaleBounds(hi, lo, hi);
        assert n[i][j] == Rescale(hi, lo, hi) == 1.0;
      }
      n
    else
      ZerosLike(g)
  }

  /** When the field has spread, a sample at the field's minimum maps to 0
      and one at its maximum maps to 1. */
  lemma NormalizeExtremes(g: Grid, i: nat, j: nat)
    requires NonEmpty(g) && GridMin(g) < GridMax(g)
    requires i < |g| && j < |g[i]|
    ensures g[i][j] == GridMin(g) ==> Normalize(g)[i][j] == 0.0
    ensures g[i][j] == GridMax(g) ==> Normalize(g)[i][j] == 1.0
  {
    RescaleBounds(g[i][j], GridMin(g), GridMax(g));
  }

  /** Normalisation keeps the order of any two samples, in both directions. */
  lemma NormalizePreservesOrder(g: Grid, i: nat, j: nat, k: nat, l: nat)
    requires NonEmpty(g) && GridMin(g) < GridMax(g)
    requires i < |g| && j < |g[i]| && k < |g| && l < |g[k]|
    ensures g[i][j] <= g[k][l] <==> Normalize(g)[i][j] <= Normalize(g)[k][l]
  {
    RescaleMonotone(g[i][j], g[k][l], GridMin(g), GridMax(g));
  }

  /** When the field has spread, the original is recovered from the
      normalised field and the two extremes. */
  lemma NormalizeInvertible(g: Grid, i: nat, j: nat)
    requires NonEmpty(g) && GridMin(g) < GridMax(g)
    requires i < |g| && j < |g[i]|
    ensures Denormalize(Normalize(g)[i][j], GridMin(g), GridMax(g)) == g[i][j]
  {
    var lo, hi := GridMin(g), GridMax(g);
    assert Normalize(g)[i][j] == Rescale(g[i][j], lo, hi);
    RescaleInverse(g[i][j], lo, hi);
  }

  /** The sample at fraction x of the interval [lo, hi]. */
  function Denormalize(x: real, lo: real, hi: real): real
  {
    lo + x * (hi - lo)
  }

  lemma RescaleInverse(v: real, lo: real, hi: real)
    requires lo < hi
    ensures Denormalize(Rescale(v, lo, hi), lo, hi) == v
  {
    DivCancel(v - lo, hi - lo);
  }

  lemma DivCancel(x: real, d: real)
    requires d != 0.0
    ensures (x / d) * d == x
  {
  }

  /** A normalised field is its own normalisation. */
  lemma NormalizeIdempotent(g: Grid)
    requires NonEmpty(g)
    ensures Normalize(Normalize(g)) == Normalize(g)
  {
    if GridMin(g) < GridMax(g) {
      NormalizeIdempotentSpread(g);
    } else {
      var n := Normalize(g);
      ConstantHasNoSpread(n, 0.0);
      SameSamplesSameGrid(Normalize(n), n);
    }
  }

  /** A normalised field with spread has minimum 0 and maximum 1. */
  lemma NormalizedSpansUnit(g: Grid)
    requires NonEmpty(g) && GridMin(g) < GridMax(g)
    ensures GridMin(Normalize(g)) == 0.0 && GridMax(Normalize(g)) == 1.0
  {
    var n := Normalize(g);
    var lo, hi := GridMin(g), GridMax(g);
    var i0, j0 :| 0 <= i0 < |g| && 0 <= j0 < |g[i0]| && g[i0][j0] == lo;
    var i1, j1 :| 0 <= i1 < |g| && 0 <= j1 < |g[i1]| && g[i1][j1] == hi;
    NormalizeExtremes(g, i0, j0);
    NormalizeExtremes(g, i1, j1);
    AttainedLowerBoundIsMin(n, 0.0, i0, j0);
    AttainedUpperBoundIsMax(n, 1.0, i1, j1);
  }

  lemma NormalizeIdempotentSpread(g: Grid)
    requires NonEmpty(g) && GridMin(g) < GridMax(g)
    ensures Normalize(Normalize(g)) == Normalize(g)
  {
    var n := Normalize(g);
    NormalizedSpansUnit(g);
    var nn := Normalize(n);
    forall i, j | 0 <= i < |n| && 0 <= j < |n[i]| ensures nn[i][j] == n[i][j] {
      assert nn[i][j] == Rescale(n[i][j], 0.0, 1.0);
    }
    SameSamplesSameGrid(nn, n);
  }

  /** Two fields of the same shape and the same samples are equal. */
  lemma SameSamplesSameGrid(a: Grid, b: Grid)
    requires SameShape(a, b)
    requires forall i, j :: 0 <= i < |a| && 0 <= j < |a[i]| ==> a[i][j] == b[i][j]
    ensures a == b
  {
    forall i | 0 <= i < |a| ensures a[i] == b[i] {
    }
  }
}
