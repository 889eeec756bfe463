/** Per-pixel quantities built from the six derivatives: the structure
    tensor sums, the dominant direction, the two directional magnitudes and
    the per-channel magnitudes. The transcendental functions are not
    modelled; they are supplied as an abstract `Transcendentals` value. */
module StructureTensor {

  /** The x- and y-derivative of one colour channel at one pixel. */
  datatype Gradient = Gradient(x: real, y: real)

  /** The sums gxx, gyy and gxy over the three channels at one pixel. */
  datatype Tensor = Tensor(xx: real, yy: real, xy: real)

  /** numpy's `sqrt`, `arctan2`, `cos` and `sin`, left uninterpreted, and
      the value of `np.pi` the program shifts the angle by. */
  datatype Transcendentals = Transcendentals(
    sqrt: real -> real,
    atan2: (real, real) -> real,
    cos: real -> real,
    sin: real -> real,
    pi: real)

  /** The one fact the model needs of `sqrt`: it is non-negative on
      non-negative arguments. */
  ghost predicate SqrtNonNegative(tr: Transcendentals)
  {
    forall x :: 0.0 <= x ==> 0.0 <= tr.sqrt(x)
  }

  /** `arctan2` lies in [-pi, pi], for the same `pi` the angle is shifted by. */
  ghost predicate Atan2InRange(tr: Transcendentals)
  {
    forall y, x :: -tr.pi <= tr.atan2(y, x) <= tr.pi
  }

  /** Turning by half a circle flips the sign of `cos` and of `sin`. */
  ghost predicate HalfTurnFlipsSign(tr: Transcendentals)
  {
    forall x :: tr.cos(x + tr.pi) == -tr.cos(x) && tr.sin(x + tr.pi) == -tr.sin(x)
  }

  /** The structure tensor of the three channels' gradients. */
  function TensorOf(r: Gradient, g: Gradient, b: Gradient): Tensor
  {
    Tensor(r.x * r.x + g.x * g.x + b.x * b.x,
           r.y * r.y + g.y * g.y + b.y * b.y,
           r.x * r.y + g.x * g.y + b.x * b.y)
  }

  /** The structure tensor is positive semi-definite: both diagonal sums are
      non-negative and, by the Cauchy-Schwarz inequality over the three
      channels, gxy^2 <= gxx*gyy. */
  lemma TensorPositiveSemidefinite(r: Gradient, g: Gradient, b: Gradient)
    ensures var t := TensorOf(r, g, b);
      0.0 <= t.xx && 0.0 <= t.yy && t.xy * t.xy <= t.xx * t.yy
  {
    SumsOfSquares(r.x, g.x, b.x);
    SumsOfSquares(r.y, g.y, b.y);
    CauchySchwarz(r.x, g.x, b.x, r.y, g.y, b.y);
  }

  lemma SumsOfSquares(a1: real, a2: real, a3: real)
    ensures 0.0 <= a1 * a1 + a2 * a2 + a3 * a3
  {
    Square(a1); Square(a2); Square(a3);
  }

  /** The Cauchy-Schwarz inequality for three terms. */
  lemma CauchySchwarz(a1: real, a2: real, a3: real, b1: real, b2: real, b3: real)
    ensures (a1 * b1 + a2 * b2 + a3 * b3) * (a1 * b1 + a2 * b2 + a3 * b3)
      <= (a1 * a1 + a2 * a2 + a3 * a3) * (b1 * b1 + b2 * b2 + b3 * b3)
  {
    Lagrange(a1, a2, a3, b1, b2, b3);
    Square(a1 * b2 - a2 * b1);
    Square(a1 * b3 - a3 * b1);
    Square(a2 * b3 - a3 * b2);
  }

  /** Lagrange's identity for three terms. */
  lemma Lagrange(a1: real, a2: real, a3: real, b1: real, b2: real, b3: real)
    ensures (a1 * a1 + a2 * a2 + a3 * a3) * (b1 * b1 + b2 * b2 + b3 * b3)
      - (a1 * b1 + a2 * b2 + a3 * b3) * (a1 * b1 + a2 * b2 + a3 * b3)
      == (a1 * b2 - a2 * b1) * (a1 * b2 - a2 * b1)
       + (a1 * b3 - a3 * b1) * (a1 * b3 - a3 * b1)
       + (a2 * b3 - a3 * b2) * (a2 * b3 - a3 * b2)
  {
  }

  /** numpy's `clip(x, 0, None)`. */
  function Clip0(x: real): (r: real)
    ensures 0.0 <= r && x <= r
    ensures r == x || r == 0.0
  {
    if x < 0.0 then 0.0 else x
  }

  /** The angle at which the tensor's quadratic form is largest:
      half of `arctan2(2*gxy, gxx - gyy)`. */
  function Angle(t: Tensor, tr: Transcendentals): real
  {
    0.5 * tr.atan2(2.0 * t.xy, t.xx - t.yy)
  }

  /** The squared rate of change of colour in direction theta. */
  function Directional(t: Tensor, theta: real, tr: Transcendentals): real
  {
    0.5 * ((t.xx + t.yy) + (t.xx - t.yy) * tr.cos(2.0 * theta) + 2.0 * t.xy * tr.sin(2.0 * theta))
  }

  /** The direction the operator returns: the angle shifted by a quarter turn,
      the direction at which G2 is measured. */
  function ReturnedAngle(t: Tensor, tr: Transcendentals): (a: real)
    ensures a - tr.pi / 2.0 == Angle(t, tr)
  {
    Angle(t, tr) + tr.pi / 2.0
  }

  /** The returned angle lies in [0, pi] when `arctan2` lies in [-pi, pi]. */
  lemma ReturnedAngleRange(t: Tensor, tr: Transcendentals)
    requires Atan2InRange(tr)
    ensures 0.0 <= ReturnedAngle(t, tr) <= tr.pi
  {
    var y := tr.atan2(2.0 * t.xy, t.xx - t.yy);
    assert -tr.pi <= y <= tr.pi;
  }

  /** The squared magnitude along the dominant angle and across it (G1, G2). */
  function G1(t: Tensor, tr: Transcendentals): real
  {
    Directional(t, Angle(t, tr), tr)
  }

  function G2(t: Tensor, tr: Transcendentals): real
  {
    Directional(t, ReturnedAngle(t, tr), tr)
  }

  /** G1 and G2 measure perpendicular directions, so together they make up
      the trace gxx + gyy of the tensor. */
  lemma PerpendicularSumIsTrace(t: Tensor, tr: Transcendentals)
    requires HalfTurnFlipsSign(tr)
    ensures G1(t, tr) + G2(t, tr) == t.xx + t.yy
  {
    var a := Angle(t, tr);
    assert 2.0 * ReturnedAngle(t, tr) == 2.0 * a + tr.pi;
    assert tr.cos(2.0 * a + tr.pi) == -tr.cos(2.0 * a);
    assert tr.sin(2.0 * a + tr.pi) == -tr.sin(2.0 * a);
  }

  /** The vector-gradient magnitude at one pixel: the larger of the square
      roots of the clipped G1 and G2. */
  function PixelVG(t: Tensor, tr: Transcendentals): (m: real)
    ensures m == tr.sqrt(Clip0(G1(t, tr))) || m == tr.sqrt(Clip0(G2(t, tr)))
    ensures tr.sqrt(Clip0(G1(t, tr))) <= m && tr.sqrt(Clip0(G2(t, tr))) <= m
  {
    var s1 := tr.sqrt(Clip0(G1(t, tr)));
    var s2 := tr.sqrt(Clip0(G2(t, tr)));
    if s1 >= s2 then s1 else s2
  }

  /** The magnitude of one channel's gradient. */
  function ChannelMagnitude(d: Gradient, tr: Transcendentals): real
  {
    tr.sqrt(Clip0(d.x * d.x + d.y * d.y))
  }

  /** The sum of the three channels' magnitudes at one pixel. */
  function PixelPPG(r: Gradient, g: Gradient, b: Gradient, tr: Transcendentals): real
  {
    ChannelMagnitude(r, tr) + ChannelMagnitude(g, tr) + ChannelMagnitude(b, tr)
  }

  /** The clip before each channel's square root never changes its
      argument: a sum of two squares is already non-negative. */
  lemma ClipOfSquaresIsIdentity(d: Gradient)
    ensures Clip0(d.x * d.x + d.y * d.y) == d.x * d.x + d.y * d.y
  {
    Square(d.x);
    Square(d.y);
  }

  lemma Square(x: real)
    ensures 0.0 <= x * x
  {
    if x < 0.0 {
      assert x * x == (-x) * (-x);
    }
  }

  /** Both magnitudes are non-negative wherever `sqrt` is. */
  lemma MagnitudesNonNegative(r: Gradient, g: Gradient, b: Gradient, tr: Transcendentals)
    requires SqrtNonNegative(tr)
    ensures 0.0 <= PixelVG(TensorOf(r, g, b), tr)
    ensures 0.0 <= PixelPPG(r, g, b, tr)
  {
    var t := TensorOf(r, g, b);
    assert 0.0 <= tr.sqrt(Clip0(G1(t, tr)));
    assert 0.0 <= tr.sqrt(Clip0(r.x * r.x + r.y * r.y));
    assert 0.0 <= tr.sqrt(Clip0(g.x * g.x + g.y * g.y));
    assert 0.0 <= tr.sqrt(Clip0(b.x * b.x + b.y * b.y));
  }

  /** A zero tensor has no rate of change in any direction. */
  lemma ZeroTensorIsFlat(theta: real, tr: Transcendentals)
    ensures Directional(Tensor(0.0, 0.0, 0.0), theta, tr) == 0.0
  {
    var c, s := tr.cos(2.0 * theta), tr.sin(2.0 * theta);
    assert (0.0 - 0.0) * c == 0.0;
    assert 2.0 * 0.0 * s == 0.0;
  }

  /** Where all six derivatives vanish, the tensor is zero and both
      directional magnitudes are zero whatever the angle. */
  lemma FlatPixel(tr: Transcendentals)
    ensures TensorOf(Gradient(0.0, 0.0), Gradient(0.0, 0.0), Gradient(0.0, 0.0)) == Tensor(0.0, 0.0, 0.0)
    ensures G1(Tensor(0.0, 0.0, 0.0), tr) == 0.0 && G2(Tensor(0.0, 0.0, 0.0), tr) == 0.0
  {
    var z := Tensor(0.0, 0.0, 0.0);
    var zg := Gradient(0.0, 0.0);
    assert TensorOf(zg, zg, zg) == z;
    ZeroTensorIsFlat(Angle(z, tr), tr);
    assert G1(z, tr) == 0.0;
    ZeroTensorIsFlat(ReturnedAngle(z, tr), tr);
    assert G2(z, tr) == 0.0;
  }
}
