/** Suppression of weak responses in a normalised magnitude field. */
module Thresholding {
  import opened Grids

  /** With t > 0, every sample not strictly above t becomes 0 and every other
      sample is kept; with t <= 0 the field is left as it is. */
  function Threshold(g: Grid, t: real): (r: Grid)
    ensures SameShape(r, g)
    ensures t <= 0.0 ==> r == g
    ensures t > 0.0 ==> forall i, j :: 0 <= i < |g| && 0 <= j < |g[i]| ==>
      (t < g[i][j] && r[i][j] == g[i][j]) || (g[i][j] <= t && r[i][j] == 0.0)
  {
    if t > 0.0 then
      seq(|g|, i requires 0 <= i < |g| =>
        seq(|g[i]|, j requires 0 <= j < |g[i]| => if g[i][j] > t then g[i][j] else 0.0))
    else g
  }

  /** Thresholding twice at the same level changes nothing the second time. */
  lemma ThresholdIdempotent(g: Grid, t: real)
    ensures Threshold(Threshold(g, t), t) == Threshold(g, t)
  {
    var r := Threshold(g, t);
    var rr := Threshold(r, t);
    if t > 0.0 {
      forall i | 0 <= i < |r| ensures rr[i] == r[i] {
        assert |rr[i]| == |r[i]|;
        forall j | 0 <= j < |r[i]| ensures rr[i][j] == r[i][j] {
        }
      }
    }
  }

  /** Thresholding keeps a field in [0, 1] when it was there. */
  lemma ThresholdStaysInUnitRange(g: Grid, t: real)
    requires Within(g, 0.0, 1.0)
    ensures Within(Threshold(g, t), 0.0, 1.0)
  {
  }
}
