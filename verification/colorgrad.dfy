/** The colour-gradient edge detector `colorgrad`: shape check, kernel
    selection, per-channel correlation, structure tensor, vector-gradient and
    per-channel-sum magnitudes, min-max normalisation and thresholding. */
module ColorGradient {
  import opened Results
  import opened Grids
  import opened Input
  import opened Kernels
  import opened Correlation
  import opened StructureTensor
  import opened Normalization
  import opened Thresholding

  /** The x- and y-derivative planes of the red, green and blue channels. */
  datatype Derivatives = Derivatives(redX: Grid, redY: Grid, greenX: Grid, greenY: Grid, blueX: Grid, blueY: Grid)

  predicate DerivativesShape(d: Derivatives, h: nat, w: nat)
  {
    IsGrid(d.redX, h, w) && IsGrid(d.redY, h, w) && IsGrid(d.greenX, h, w)
    && IsGrid(d.greenY, h, w) && IsGrid(d.blueX, h, w) && IsGrid(d.blueY, h, w)
  }

  /** Every channel of the scaled image correlated with kx and with ky. */
  function Derive(f: NdArray, m: MaskType): (d: Derivatives)
    requires WellFormed(f) && IsRgbShape(f.shape)
    ensures DerivativesShape(d, f.shape[0], f.shape[1])
  {
    var h, w := f.shape[0], f.shape[1];
    var r, g, b := Channel(f, 0), Channel(f, 1), Channel(f, 2);
    Derivatives(Correlate(r, h, w, Kx(m)), Correlate(r, h, w, Ky(m)),
                Correlate(g, h, w, Kx(m)), Correlate(g, h, w, Ky(m)),
                Correlate(b, h, w, Kx(m)), Correlate(b, h, w, Ky(m)))
  }

  /** The structure tensor at pixel (i, j). */
  function TensorAt(d: Derivatives, h: nat, w: nat, i: nat, j: nat): Tensor
    requires DerivativesShape(d, h, w) && i < h && j < w
  {
    TensorOf(Gradient(d.redX[i][j], d.redY[i][j]),
             Gradient(d.greenX[i][j], d.greenY[i][j]),
             Gradient(d.blueX[i][j], d.blueY[i][j]))
  }

  /** The vector-gradient magnitude before normalisation. */
  function RawVG(d: Derivatives, h: nat, w: nat, tr: Transcendentals): (g: Grid)
    requires DerivativesShape(d, h, w)
    ensures IsGrid(g, h, w)
  {
    seq(h, i requires 0 <= i < h =>
      seq(w, j requires 0 <= j < w => PixelVG(TensorAt(d, h, w, i, j), tr)))
  }

  /** The per-channel-sum magnitude before normalisation. */
  function RawPPG(d: Derivatives, h: nat, w: nat, tr: Transcendentals): (g: Grid)
    requires DerivativesShape(d, h, w)
    ensures IsGrid(g, h, w)
  {
    seq(h, i requires 0 <= i < h =>
      seq(w, j requires 0 <= j < w =>
        PixelPPG(Gradient(d.redX[i][j], d.redY[i][j]),
                 Gradient(d.greenX[i][j], d.greenY[i][j]),
                 Gradient(d.blueX[i][j], d.blueY[i][j]), tr)))
  }

  /** The direction field the operator returns. */
  function AngleField(d: Derivatives, h: nat, w: nat, tr: Transcendentals): (g: Grid)
    requires DerivativesShape(d, h, w)
    ensures IsGrid(g, h, w)
  {
    seq(h, i requires 0 <= i < h =>
      seq(w, j requires 0 <= j < w => ReturnedAngle(TensorAt(d, h, w, i, j), tr)))
  }

  /** The three fields the operator returns: VG, the angle A and PPG. */
  datatype Output = Output(vg: Grid, angle: Grid, ppg: Grid)

  /** The magnitudes of a sample after thresholding at t: 0 or above t. */
  predicate Suppressed(g: Grid, t: real)
  {
    forall i, j :: 0 <= i < |g| && 0 <= j < |g[i]| ==> g[i][j] == 0.0 || t < g[i][j]
  }

  /** A raw magnitude field of a non-empty image, normalised onto [0, 1]. */
  function NormalisedField(raw: Grid, h: nat, w: nat): (g: Grid)
    requires IsGrid(raw, h, w) && h > 0 && w > 0
    ensures IsGrid(g, h, w) && Within(g, 0.0, 1.0)
  {
    Normalize(raw)
  }

  /** The three fields computed from the derivative planes of a non-empty
      image, before thresholding: both magnitudes normalised onto [0, 1]. */
  function FieldsOf(d: Derivatives, h: nat, w: nat, tr: Transcendentals): (o: Output)
    requires DerivativesShape(d, h, w) && h > 0 && w > 0
    ensures IsGrid(o.vg, h, w) && IsGrid(o.angle, h, w) && IsGrid(o.ppg, h, w)
    ensures Within(o.vg, 0.0, 1.0) && Within(o.ppg, 0.0, 1.0)
  {
    Output(NormalisedField(RawVG(d, h, w, tr), h, w), AngleField(d, h, w, tr),
           NormalisedField(RawPPG(d, h, w, tr), h, w))
  }

  /** What every result of the operator on an h x w image satisfies: three
      h x w fields, both magnitudes in [0, 1], and, for t > 0, every
      magnitude either 0 or above t. */
  predicate ValidOutput(o: Output, h: nat, w: nat, t: real)
  {
    && IsGrid(o.vg, h, w) && IsGrid(o.angle, h, w) && IsGrid(o.ppg, h, w)
    && Within(o.vg, 0.0, 1.0) && Within(o.ppg, 0.0, 1.0)
    && (t > 0.0 ==> Suppressed(o.vg, t) && Suppressed(o.ppg, t))
  }

  /** Both magnitude fields thresholded at t; the angle is passed through. */
  function Suppress(o: Output, h: nat, w: nat, t: real): (s: Output)
    requires IsGrid(o.vg, h, w) && IsGrid(o.angle, h, w) && IsGrid(o.ppg, h, w)
    requires Within(o.vg, 0.0, 1.0) && Within(o.ppg, 0.0, 1.0)
    ensures ValidOutput(s, h, w, t)
    ensures t <= 0.0 ==> s == o
  {
    ThresholdStaysInUnitRange(o.vg, t);
    ThresholdStaysInUnitRange(o.ppg, t);
    Output(Threshold(o.vg, t), o.angle, Threshold(o.ppg, t))
  }

  /** True iff name selects one of the two kernel families. */
  predicate KnownMask(name: string)
  {
    name == "sobel" || name == "prewitt"
  }

  /** The colour-gradient operator on image f with the kernel family named
      maskType and threshold t. */
  function ColorGrad(f: NdArray, maskType: string, t: real, tr: Transcendentals): (r: Result<Output>)
    requires WellFormed(f)
    ensures r == Failure(NotRgb) <==> !IsRgbShape(f.shape)
    ensures r == Failure(InvalidMaskType) <==> IsRgbShape(f.shape) && !KnownMask(maskType)
    ensures r == Failure(EmptyImage) <==>
      IsRgbShape(f.shape) && KnownMask(maskType) && (f.shape[0] == 0 || f.shape[1] == 0)
    ensures r.Success? ==> IsRgbShape(f.shape) && ValidOutput(r.value, f.shape[0], f.shape[1], t)
  {
    if !IsRgbShape(f.shape) then Failure(NotRgb)
    else
      match ParseMaskType(maskType)
      case Failure(e) => Failure(e)
      case Success(m) =>
        var h, w := f.shape[0], f.shape[1];
        if h == 0 || w == 0 then Failure(EmptyImage)
        else Success(Suppress(FieldsOf(Derive(f, m), h, w, tr), h, w, t))
  }

  /** In a solid-colour image both derivatives of channel c vanish. */
  lemma SolidColourChannelDerivatives(f: NdArray, m: MaskType, c: nat)
    requires WellFormed(f) && IsRgbShape(f.shape) && f.shape[0] > 0 && f.shape[1] > 0
    requires SolidColour(f) && c < 3
    ensures IsConstant(Correlate(Channel(f, c), f.shape[0], f.shape[1], Kx(m)), 0.0)
    ensures IsConstant(Correlate(Channel(f, c), f.shape[0], f.shape[1], Ky(m)), 0.0)
  {
    SolidColourChannel(f, c);
    ConstantPlaneHasZeroDerivative(Channel(f, c), f.shape[0], f.shape[1], m,
      f.data[Offset(f.shape, 0, 0, c)] / 255.0);
  }

  /** All six derivative planes vanish. */
  predicate Flat(d: Derivatives)
  {
    && IsConstant(d.redX, 0.0) && IsConstant(d.redY, 0.0)
    && IsConstant(d.greenX, 0.0) && IsConstant(d.greenY, 0.0)
    && IsConstant(d.blueX, 0.0) && IsConstant(d.blueY, 0.0)
  }

  /** In a solid-colour image all six derivative planes vanish. */
  lemma SolidColourDerivatives(f: NdArray, m: MaskType)
    requires WellFormed(f) && IsRgbShape(f.shape) && f.shape[0] > 0 && f.shape[1] > 0
    requires SolidColour(f)
    ensures Flat(Derive(f, m))
  {
    SolidColourChannelDerivatives(f, m, 0);
    SolidColourChannelDerivatives(f, m, 1);
    SolidColourChannelDerivatives(f, m, 2);
  }

  /** Where the derivatives vanish, the tensor at every pixel is zero. */
  lemma FlatTensor(d: Derivatives, h: nat, w: nat, i: nat, j: nat)
    requires DerivativesShape(d, h, w) && Flat(d) && i < h && j < w
    ensures TensorAt(d, h, w, i, j) == Tensor(0.0, 0.0, 0.0)
  {
    var z := Gradient(0.0, 0.0);
    assert Gradient(d.redX[i][j], d.redY[i][j]) == z;
    assert Gradient(d.greenX[i][j], d.greenY[i][j]) == z;
    assert Gradient(d.blueX[i][j], d.blueY[i][j]) == z;
    assert TensorOf(z, z, z) == Tensor(0.0, 0.0, 0.0);
  }

  /** Where the derivatives vanish, the raw VG field is constant. */
  lemma FlatRawVG(d: Derivatives, h: nat, w: nat, tr: Transcendentals)
    requires DerivativesShape(d, h, w) && Flat(d)
    ensures IsConstant(RawVG(d, h, w, tr), PixelVG(Tensor(0.0, 0.0, 0.0), tr))
  {
    var rv := RawVG(d, h, w, tr);
    forall i, j | 0 <= i < h && 0 <= j < w
      ensures rv[i][j] == PixelVG(Tensor(0.0, 0.0, 0.0), tr)
    {
      FlatTensor(d, h, w, i, j);
    }
  }

  /** Where the derivatives vanish, the raw PPG field is constant. */
  lemma FlatRawPPG(d: Derivatives, h: nat, w: nat, tr: Transcendentals)
    requires DerivativesShape(d, h, w) && Flat(d)
    ensures IsConstant(RawPPG(d, h, w, tr), 3.0 * tr.sqrt(0.0))
  {
    var rp := RawPPG(d, h, w, tr);
    forall i, j | 0 <= i < h && 0 <= j < w
      ensures rp[i][j] == 3.0 * tr.sqrt(0.0)
    {
      var z := Gradient(0.0, 0.0);
      assert Gradient(d.redX[i][j], d.redY[i][j]) == z;
      assert Gradient(d.greenX[i][j], d.greenY[i][j]) == z;
      assert Gradient(d.blueX[i][j], d.blueY[i][j]) == z;
      assert ChannelMagnitude(z, tr) == tr.sqrt(0.0);
    }
  }

  /** Where the derivatives vanish, both magnitude fields are zero before
      thresholding: each raw field is constant and so normalises to zeros. */
  lemma FlatFields(d: Derivatives, h: nat, w: nat, tr: Transcendentals)
    requires DerivativesShape(d, h, w) && h > 0 && w > 0 && Flat(d)
    ensures IsConstant(FieldsOf(d, h, w, tr).vg, 0.0) && IsConstant(FieldsOf(d, h, w, tr).ppg, 0.0)
  {
    FlatRawVG(d, h, w, tr);
    FlatRawPPG(d, h, w, tr);
    ConstantHasNoSpread(RawVG(d, h, w, tr), PixelVG(Tensor(0.0, 0.0, 0.0), tr));
    ConstantHasNoSpread(RawPPG(d, h, w, tr), 3.0 * tr.sqrt(0.0));
  }

  /** On a non-empty RGB image with a known kernel name the operator
      succeeds with the thresholded fields of the image's derivatives. */
  lemma ColorGradSucceeds(f: NdArray, maskType: string, t: real, tr: Transcendentals)
    requires WellFormed(f) && IsRgbShape(f.shape) && f.shape[0] > 0 && f.shape[1] > 0
    requires KnownMask(maskType)
    ensures ParseMaskType(maskType).Success?
    ensures var m := ParseMaskType(maskType).value;
      ColorGrad(f, maskType, t, tr)
        == Success(Suppress(FieldsOf(Derive(f, m), f.shape[0], f.shape[1], tr), f.shape[0], f.shape[1], t))
  {
  }

  /** Thresholding leaves zero fields zero. */
  lemma SuppressKeepsZeros(o: Output, h: nat, w: nat, t: real)
    requires IsGrid(o.vg, h, w) && IsGrid(o.angle, h, w) && IsGrid(o.ppg, h, w)
    requires Within(o.vg, 0.0, 1.0) && Within(o.ppg, 0.0, 1.0)
    requires IsConstant(o.vg, 0.0) && IsConstant(o.ppg, 0.0)
    ensures IsConstant(Suppress(o, h, w, t).vg, 0.0) && IsConstant(Suppress(o, h, w, t).ppg, 0.0)
  {
  }

  /** An image of one solid colour has no edges: with either kernel and any
      threshold, both magnitude fields are zero everywhere. */
  lemma SolidColourHasNoEdges(f: NdArray, maskType: string, t: real, tr: Transcendentals)
    requires WellFormed(f) && IsRgbShape(f.shape) && f.shape[0] > 0 && f.shape[1] > 0
    requires KnownMask(maskType) && SolidColour(f)
    ensures ColorGrad(f, maskType, t, tr).Success?
    ensures IsConstant(ColorGrad(f, maskType, t, tr).value.vg, 0.0)
    ensures IsConstant(ColorGrad(f, maskType, t, tr).value.ppg, 0.0)
  {
    var h, w := f.shape[0], f.shape[1];
    ColorGradSucceeds(f, maskType, t, tr);
    var d := Derive(f, ParseMaskType(maskType).value);
    SolidColourDerivatives(f, ParseMaskType(maskType).value);
    FlatFields(d, h, w, tr);
    SuppressKeepsZeros(FieldsOf(d, h, w, tr), h, w, t);
  }

  /** A threshold of zero or below disables thresholding: the result is the
      one for threshold 0. */
  lemma NonPositiveThresholdIsOff(f: NdArray, maskType: string, t: real, tr: Transcendentals)
    requires WellFormed(f) && t <= 0.0
    ensures ColorGrad(f, maskType, t, tr) == ColorGrad(f, maskType, 0.0, tr)
  {
  }

  /** Thresholding is the last step: each magnitude field is the field for
      threshold 0 thresholded at t, and the angle field does not depend on t. */
  lemma ThresholdIsLastStep(f: NdArray, maskType: string, t: real, tr: Transcendentals)
    requires WellFormed(f) && IsRgbShape(f.shape) && f.shape[0] > 0 && f.shape[1] > 0
    requires KnownMask(maskType)
    ensures var r, r0 := ColorGrad(f, maskType, t, tr).value, ColorGrad(f, maskType, 0.0, tr).value;
      && r.vg == Threshold(r0.vg, t)
      && r.ppg == Threshold(r0.ppg, t)
      && r.angle == r0.angle
  {
    ColorGradSucceeds(f, maskType, t, tr);
    ColorGradSucceeds(f, maskType, 0.0, tr);
  }

  /** Thresholding the operator's magnitudes again at its own threshold
      changes nothing. */
  lemma ResultIsThresholdStable(f: NdArray, maskType: string, t: real, tr: Transcendentals)
    requires WellFormed(f) && IsRgbShape(f.shape) && f.shape[0] > 0 && f.shape[1] > 0
    requires KnownMask(maskType)
    ensures var r := ColorGrad(f, maskType, t, tr).value;
      Threshold(r.vg, t) == r.vg && Threshold(r.ppg, t) == r.ppg
  {
    ThresholdIsLastStep(f, maskType, t, tr);
    var r0 := ColorGrad(f, maskType, 0.0, tr).value;
    ThresholdIdempotent(r0.vg, t);
    ThresholdIdempotent(r0.ppg, t);
  }

  /** Both magnitude fields are non-negative before normalisation wherever
      `sqrt` is non-negative on non-negative arguments. */
  lemma RawMagnitudesNonNegative(d: Derivatives, h: nat, w: nat, tr: Transcendentals)
    requires DerivativesShape(d, h, w) && SqrtNonNegative(tr)
    ensures NonNegative(RawVG(d, h, w, tr)) && NonNegative(RawPPG(d, h, w, tr))
  {
    forall i, j | 0 <= i < h && 0 <= j < w
      ensures 0.0 <= RawVG(d, h, w, tr)[i][j] && 0.0 <= RawPPG(d, h, w, tr)[i][j]
    {
      MagnitudesNonNegative(Gradient(d.redX[i][j], d.redY[i][j]),
                            Gradient(d.greenX[i][j], d.greenY[i][j]),
                            Gradient(d.blueX[i][j], d.blueY[i][j]), tr);
    }
  }
}
