/** Correlation of one colour plane with a 3 x 3 kernel, as OpenCV's
    `filter2D` computes it: the kernel is not flipped, its anchor is its
    centre, and samples outside the plane are taken from OpenCV's default
    border rule, reflection about the edge pixel without repeating it. */
module Correlation {
  import opened Grids
  import opened Kernels

  /** The plane index read for index p of a line of n samples, where p is at
      most one step outside the line (all a 3 x 3 kernel can reach). Inside
      the line p is its own source; outside, p is mirrored about the edge
      sample, which is not repeated; a line of one sample always reads it. */
  function Reflect101(p: int, n: nat): (q: nat)
    requires n > 0 && -1 <= p <= n
    ensures q < n
    ensures 0 <= p < n ==> q == p
    ensures n > 1 && p < 0 ==> q + p == 0
    ensures n > 1 && p >= n ==> q + p == 2 * (n - 1)
  {
    if n == 1 then 0
    else if p < 0 then -p
    else if p >= n then 2 * n - 2 - p
    else p
  }

  /** Tap (u, v) of the kernel centred on pixel (i, j). */
  function Tap(ch: Grid, h: nat, w: nat, k: Matrix, i: nat, j: nat, u: nat, v: nat): real
    requires IsGrid(ch, h, w) && Is3x3(k)
    requires i < h && j < w && u < 3 && v < 3
  {
    (k[u][v] as real) * ch[Reflect101(i + u - 1, h)][Reflect101(j + v - 1, w)]
  }

  /** The correlation at one pixel: the weighted sum of its 3 x 3 window. */
  function CorrelateAt(ch: Grid, h: nat, w: nat, k: Matrix, i: nat, j: nat): real
    requires IsGrid(ch, h, w) && Is3x3(k)
    requires i < h && j < w
  {
    Tap(ch, h, w, k, i, j, 0, 0) + Tap(ch, h, w, k, i, j, 0, 1) + Tap(ch, h, w, k, i, j, 0, 2)
    + Tap(ch, h, w, k, i, j, 1, 0) + Tap(ch, h, w, k, i, j, 1, 1) + Tap(ch, h, w, k, i, j, 1, 2)
    + Tap(ch, h, w, k, i, j, 2, 0) + Tap(ch, h, w, k, i, j, 2, 1) + Tap(ch, h, w, k, i, j, 2, 2)
  }

  /** The plane correlated with k, of the same size as the plane. A constant
      plane correlates to that constant times the kernel's coefficient sum. */
  function Correlate(ch: Grid, h: nat, w: nat, k: Matrix): (r: Grid)
    requires IsGrid(ch, h, w) && Is3x3(k)
    ensures IsGrid(r, h, w)
    ensures forall c :: IsConstant(ch, c) ==> IsConstant(r, c * (CoefficientSum(k) as real))
  {
    var r := seq(h, i requires 0 <= i < h =>
      seq(w, j requires 0 <= j < w => CorrelateAt(ch, h, w, k, i, j)));
    assert forall c :: IsConstant(ch, c) ==> IsConstant(r, c * (CoefficientSum(k) as real)) by {
      forall c | IsConstant(ch, c) {
        ConstantWindow(ch, h, w, k, c);
      }
    }
    r
  }

  lemma ConstantWindow(ch: Grid, h: nat, w: nat, k: Matrix, c: real)
    requires IsGrid(ch, h, w) && Is3x3(k) && IsConstant(ch, c)
    ensures forall i, j :: 0 <= i < h && 0 <= j < w ==>
      CorrelateAt(ch, h, w, k, i, j) == c * (CoefficientSum(k) as real)
  {
  }

  /** Because every kernel's coefficients cancel out, a constant plane has a
      zero derivative at every pixel, border pixels included. */
  lemma ConstantPlaneHasZeroDerivative(ch: Grid, h: nat, w: nat, m: MaskType, c: real)
    requires IsGrid(ch, h, w) && IsConstant(ch, c)
    ensures IsConstant(Correlate(ch, h, w, Kx(m)), 0.0)
    ensures IsConstant(Correlate(ch, h, w, Ky(m)), 0.0)
  {
    KernelShape(m);
  }

  /** The weighted sum of the first t taps of the window centred on an
      interior pixel, read straight from the plane with no border rule;
      tap t is row t / 3, column t % 3 of the kernel. */
  function WindowSum(ch: Grid, h: nat, w: nat, k: Matrix, i: nat, j: nat, t: nat): real
    requires IsGrid(ch, h, w) && Is3x3(k)
    requires 1 <= i < h - 1 && 1 <= j < w - 1 && t <= 9
  {
    if t == 0 then 0.0
    else
      var u, v := (t - 1) / 3, (t - 1) % 3;
      WindowSum(ch, h, w, k, i, j, t - 1) + (k[u][v] as real) * ch[i + u - 1][j + v - 1]
  }

  /** One more tap of the interior window is one more tap of the correlation. */
  lemma WindowStep(ch: Grid, h: nat, w: nat, k: Matrix, i: nat, j: nat, t: nat)
    requires IsGrid(ch, h, w) && Is3x3(k)
    requires 1 <= i < h - 1 && 1 <= j < w - 1 && 1 <= t <= 9
    ensures WindowSum(ch, h, w, k, i, j, t)
      == WindowSum(ch, h, w, k, i, j, t - 1) + Tap(ch, h, w, k, i, j, (t - 1) / 3, (t - 1) % 3)
  {
  }

  /** Away from the border the chosen border rule plays no part: the
      correlation is the plain weighted sum of the pixel's neighbours. */
  lemma {:induction false} InteriorIgnoresBorder(ch: Grid, h: nat, w: nat, k: Matrix, i: nat, j: nat)
    requires IsGrid(ch, h, w) && Is3x3(k)
    requires 1 <= i < h - 1 && 1 <= j < w - 1
    ensures Correlate(ch, h, w, k)[i][j] == WindowSum(ch, h, w, k, i, j, 9)
  {
    WindowStep(ch, h, w, k, i, j, 1); WindowStep(ch, h, w, k, i, j, 2);
    WindowStep(ch, h, w, k, i, j, 3); WindowStep(ch, h, w, k, i, j, 4);
    WindowStep(ch, h, w, k, i, j, 5); WindowStep(ch, h, w, k, i, j, 6);
    WindowStep(ch, h, w, k, i, j, 7); WindowStep(ch, h, w, k, i, j, 8);
    WindowStep(ch, h, w, k, i, j, 9);
  }
}
