/** The array handed to `colorgrad`: an n-dimensional array of samples in
    row-major (C) order, as numpy stores it, and its three colour planes. */
module Input {
  import opened Grids

  /** An array of any rank: its shape and its samples, last axis fastest. */
  datatype NdArray = NdArray(shape: seq<nat>, data: seq<real>)

  /** The number of samples an array of this shape holds. */
  function Product(shape: seq<nat>): nat
  {
    if |shape| == 0 then 1 else shape[0] * Product(shape[1..])
  }

  /** Every array holds exactly as many samples as its shape says. */
  predicate WellFormed(a: NdArray)
  {
    |a.data| == Product(a.shape)
  }

  /** The only shape the operator accepts: height x width x 3 channels. */
  predicate IsRgbShape(shape: seq<nat>)
  {
    |shape| == 3 && shape[2] == 3
  }

  /** Where sample [i, j, c] of an H x W x 3 array is stored. */
  function Offset(shape: seq<nat>, i: nat, j: nat, c: nat): (p: nat)
    requires IsRgbShape(shape)
    requires i < shape[0] && j < shape[1] && c < 3
    ensures p < Product(shape)
    ensures p % 3 == c
  {
    var h, w := shape[0], shape[1];
    assert Product(shape) == h * (w * 3) by {
      assert Product(shape[1..]) == w * Product(shape[2..]);
      assert Product(shape[2..]) == 3 * Product(shape[3..]);
    }
    OffsetBound(h, w, i, j, c);
    (i * w + j) * 3 + c
  }

  lemma OffsetBound(h: nat, w: nat, i: nat, j: nat, c: nat)
    requires i < h && j < w && c < 3
    ensures (i * w + j) * 3 + c < h * (w * 3)
  {
    assert i * w + j < (i + 1) * w;
    assert (i + 1) * w <= h * w by {
      assert i + 1 <= h;
    }
  }

  /** The index [i, j, c] of the sample stored at position p of an
      H x W x 3 array. */
  datatype Index = Index(i: nat, j: nat, c: nat)

  function Position(shape: seq<nat>, p: nat): (x: Index)
    requires IsRgbShape(shape) && p < Product(shape)
    ensures x.i < shape[0] && x.j < shape[1] && x.c < 3
  {
    var h, w := shape[0], shape[1];
    assert Product(shape) == h * (w * 3) by {
      assert Product(shape[1..]) == w * Product(shape[2..]);
      assert Product(shape[2..]) == 3 * Product(shape[3..]);
    }
    var q := p / 3;
    assert q < h * w;
    QuotientBelow(q, h, w);
    Index(q / w, q % w, p % 3)
  }

  /** Every sample of the array belongs to exactly one index: Position and
      Offset are inverse to each other, so the three colour planes read
      disjoint samples and together read all of them. */
  lemma OffsetPositionRoundTrip(shape: seq<nat>, p: nat)
    requires IsRgbShape(shape) && p < Product(shape)
    ensures var x := Position(shape, p); Offset(shape, x.i, x.j, x.c) == p
  {
    var x := Position(shape, p);
    var w := shape[1];
    assert (x.i * w + x.j) == p / 3;
  }

  lemma PositionOffsetRoundTrip(shape: seq<nat>, i: nat, j: nat, c: nat)
    requires IsRgbShape(shape)
    requires i < shape[0] && j < shape[1] && c < 3
    ensures Position(shape, Offset(shape, i, j, c)) == Index(i, j, c)
  {
    var w := shape[1];
    var p := Offset(shape, i, j, c);
    DivModUnique(p, 3, i * w + j, c);
    DivModUnique(i * w + j, w, i, j);
  }

  /** A position below h * w lies in one of the h rows of width w. */
  lemma QuotientBelow(q: nat, h: nat, w: nat)
    requires q < h * w
    ensures 0 < w && q / w < h
  {
    if q / w >= h {
      MulMonotone(h, q / w, w);
    }
  }

  lemma MulMonotone(a: nat, b: nat, d: nat)
    requires a <= b
    ensures a * d <= b * d
  {
    assert b * d == a * d + (b - a) * d;
  }

  /** Euclidean division has only one quotient and remainder. */
  lemma DivModUnique(n: nat, d: nat, q: nat, r: nat)
    requires r < d && n == q * d + r
    ensures n / d == q && n % d == r
  {
    QuotientAtMost(n / d, n % d, q, r, d);
    QuotientAtMost(q, r, n / d, n % d, d);
  }

  /** Of two quotient-remainder splits of the same number, the one with the
      smaller remainder has no smaller quotient. */
  lemma QuotientAtMost(q: nat, r: nat, q': nat, r': nat, d: nat)
    requires r < d && q * d + r == q' * d + r'
    ensures q' <= q
  {
    if q < q' {
      assert (q + 1) * d == q * d + d;
      MulMonotone(q + 1, q', d);
    }
  }

  /** The samples of colour channel c scaled from [0, 255] by 1/255. */
  function Channel(a: NdArray, c: nat): (g: Grid)
    requires WellFormed(a) && IsRgbShape(a.shape) && c < 3
    ensures IsGrid(g, a.shape[0], a.shape[1])
    ensures forall i, j :: 0 <= i < a.shape[0] && 0 <= j < a.shape[1] ==>
      g[i][j] == a.data[Offset(a.shape, i, j, c)] / 255.0
  {
    var h, w := a.shape[0], a.shape[1];
    seq(h, i requires 0 <= i < h =>
      seq(w, j requires 0 <= j < w => a.data[Offset(a.shape, i, j, c)] / 255.0))
  }

  /** Eight-bit samples scale into [0, 1]. */
  lemma ChannelInUnitRange(a: NdArray, c: nat)
    requires WellFormed(a) && IsRgbShape(a.shape) && c < 3
    requires forall p :: 0 <= p < |a.data| ==> 0.0 <= a.data[p] <= 255.0
    ensures Within(Channel(a, c), 0.0, 1.0)
  {
    var g := Channel(a, c);
    forall i, j | 0 <= i < |g| && 0 <= j < |g[i]|
      ensures 0.0 <= g[i][j] <= 1.0
    {
      var s := a.data[Offset(a.shape, i, j, c)];
      assert g[i][j] * 255.0 == s;
    }
  }

  /** Every pixel carries the same colour as the first one: each sample
      equals the first pixel's sample of the same channel. */
  predicate SolidColour(a: NdArray)
  {
    forall p :: 0 <= p < |a.data| ==> a.data[p] == a.data[p % 3]
  }

  /** In a solid-colour image each channel is a constant plane. */
  lemma SolidColourChannel(a: NdArray, c: nat)
    requires WellFormed(a) && IsRgbShape(a.shape) && c < 3
    requires a.shape[0] > 0 && a.shape[1] > 0
    requires SolidColour(a)
    ensures IsConstant(Channel(a, c), a.data[Offset(a.shape, 0, 0, c)] / 255.0)
  {
    var g := Channel(a, c);
    forall i, j | 0 <= i < |g| && 0 <= j < |g[i]|
      ensures g[i][j] == a.data[Offset(a.shape, 0, 0, c)] / 255.0
    {
      var p := Offset(a.shape, i, j, c);
      assert a.data[p] == a.data[p % 3];
    }
  }
}
