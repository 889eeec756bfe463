# Colour-gradient edge detector, modelled in Dafny

This project models `colorgrad`, the colour-image edge detector. It takes an
H x W x 3 image, a kernel name (`sobel` or `prewitt`) and a threshold `T`. It
returns three per-pixel fields:

- `VG`, the vector-gradient magnitude from the colour structure tensor,
  normalised to [0, 1];
- `A`, a direction angle;
- `PPG`, the sum of the three per-channel gradient magnitudes, normalised to
  [0, 1].

For `T > 0`, every VG and PPG sample not strictly above `T` is set to zero.

The model works over exact `real` samples. Images are grids
(`seq<seq<real>>`). The kernel family is a two-constructor datatype. Every step
is a pure function:

- shape check;
- kernel selection;
- 3 x 3 correlation of each channel;
- structure-tensor sums `gxx`, `gyy`, `gxy`;
- direction and directional magnitudes;
- min-max normalisation;
- thresholding.

The operator's two refusals and the refusal of an empty image are values of a
`Result` datatype.

The transcendental operations (`sqrt`, `arctan2`, `cos`, `sin`) are not
interpreted. They come in as fields of a `Transcendentals` value that the
caller supplies. A lemma that needs a fact about one of them asks for it in
its `requires`. Only three such facts are used:

- `sqrt` is non-negative on non-negative input;
- `arctan2` lies in [-pi, pi];
- `cos` and `sin` change sign under a half turn.

The value of `np.pi` the angle is shifted by is the `pi` field of the same
value, and the range of `arctan2` and the half turn are stated with it.

Modules, one per stage:

- `Results`: the error kinds and `Result`.
- `Grids`: grids, shape predicates, and the field minimum and maximum (numpy's
  `min()` and `max()`).
- `Input`: the input as a numpy-style array. It has a shape of any rank and
  row-major samples. The module also extracts one colour plane scaled by
  1/255.
- `Kernels`: kernel names and the Sobel and Prewitt coefficients.
- `Correlation`: `filter2D` with a 3 x 3 kernel. There is no kernel flip and
  the anchor is the centre. The border rule is OpenCV's default, reflection
  about the edge pixel without repeating it (`BORDER_REFLECT_101`).
- `StructureTensor`: the per-pixel tensor, angle, G1/G2, clipping and
  magnitudes.
- `Normalization`: min-max normalisation.
- `Thresholding`: suppression at `T`.
- `ColorGradient`: the whole operator and its end-to-end properties.

Choices the code fixes:

- The returned angle is the one after the quarter-turn shift at
  image_processing.py:34: `A` is reassigned there before it is returned at
  image_processing.py:70.
- `filter2D` is called with its default border, BORDER_REFLECT_101
  (reflection about the edge sample without repeating it), and that is the
  border rule modelled.
- The code has no explicit check for an empty image (H or W zero). The
  library calls refuse a zero-size array (`filter2D`, then `min()` of an empty
  array), so the model returns the `EmptyImage` error. It comes after the
  shape check and the kernel-name check, in the order the code reaches them.

## Model

| member | source | states |
|---|---|---|
| ColorGradient.ColorGrad | image_processing.py:5-70 | The error is `NotRgb` exactly when the array is not 3-dimensional with 3 channels. It is `InvalidMaskType` exactly when the shape is right and the name is neither "sobel" nor "prewitt". It is `EmptyImage` exactly when both of those are right and H or W is zero. On success all three fields are H x W and VG and PPG lie in [0, 1]. For T > 0 every VG and PPG sample is 0 or strictly above T. |
| ColorGradient.SolidColourHasNoEdges | image_processing.py:20-64 | A non-empty image of one solid colour, with either kernel and any threshold, gives VG and PPG that are zero everywhere. |
| ColorGradient.NonPositiveThresholdIsOff | image_processing.py:66-68 | Any threshold T <= 0 gives exactly the result for T = 0, so thresholding is off. |
| ColorGradient.ThresholdIsLastStep | image_processing.py:66-70 | For any T, VG and PPG equal the T = 0 fields thresholded at T, and the angle field does not depend on T. |
| ColorGradient.ResultIsThresholdStable | image_processing.py:66-68 | Thresholding the returned VG and PPG again at the same T changes nothing. |
| ColorGradient.RawMagnitudesNonNegative | image_processing.py:41-57 | If `sqrt` is non-negative on non-negative input, the raw VG and PPG fields have no negative sample. |
| ColorGradient.FieldsOf | image_processing.py:44-64 | Before thresholding, all three fields are H x W and both magnitude fields lie in [0, 1]. |
| ColorGradient.Suppress | image_processing.py:66-68 | Thresholding keeps the fields H x W and in [0, 1], leaves every magnitude 0 or above T when T > 0, and changes nothing when T <= 0. |
| ColorGradient.SuppressKeepsZeros | image_processing.py:66-68 | Thresholding maps all-zero magnitude fields to all-zero fields. |
| ColorGradient.NormalisedField | image_processing.py:47-51 | Normalising a non-empty H x W field gives an H x W field in [0, 1]. |
| ColorGradient.Derive | image_processing.py:20-25 | The six derivative planes (R, G, B channels, each against kx and ky) are each H x W. |
| ColorGradient.RawVG | image_processing.py:27-44 | The raw VG field has one sample per pixel, H x W. |
| ColorGradient.RawPPG | image_processing.py:53-57 | The raw PPG field has one sample per pixel, H x W. |
| ColorGradient.AngleField | image_processing.py:31-34 | The returned angle field has one sample per pixel, H x W. |
| ColorGradient.SolidColourDerivatives | image_processing.py:18-25 | In a solid-colour image all six derivative planes are zero at every pixel. |
| ColorGradient.SolidColourChannelDerivatives | image_processing.py:20-25 | In a solid-colour image both derivatives of one channel are zero at every pixel. |
| ColorGradient.FlatTensor | image_processing.py:27-29 | Where all six derivatives vanish, gxx = gyy = gxy = 0. |
| ColorGradient.FlatRawVG | image_processing.py:31-44 | Where all derivatives vanish, the raw VG field is constant. |
| ColorGradient.FlatRawPPG | image_processing.py:53-57 | Where all derivatives vanish, the raw PPG field is constant. |
| ColorGradient.FlatFields | image_processing.py:44-64 | Where all derivatives vanish, normalised VG and PPG are zero everywhere. |
| Kernels.ParseMaskType | image_processing.py:9-16 | A name is accepted exactly when it is "sobel" or "prewitt", and it then selects the family of that name. Every other name gives `InvalidMaskType`. |
| Kernels.ParseMaskName | image_processing.py:9-16 | Parsing each family's own name gives that family back. |
| Kernels.KernelShape | image_processing.py:10-14 | For both families the coefficients of kx and of ky each sum to 0, and ky is the negated transpose of kx. |
| Kernels.Kx | image_processing.py:10-13 | The horizontal kernel of each family is a 3 x 3 matrix; its coefficient sum and its relation to ky are stated by KernelShape. |
| Kernels.Ky | image_processing.py:11-14 | The vertical kernel of each family is a 3 x 3 matrix; its coefficient sum and its relation to kx are stated by KernelShape. |
| Input.Offset | image_processing.py:20-25 | In a well-formed H x W x 3 array, sample [i, j, c] is stored inside the data, at a position congruent to c modulo 3. |
| Input.OffsetPositionRoundTrip | image_processing.py:18-25 | Every position of the H x W x 3 sample buffer is the row-major offset of exactly the index [i, j, c] that Position reads back from it, so the channel planes `f[:, :, c]` together cover the whole buffer. |
| Input.PositionOffsetRoundTrip | image_processing.py:18-25 | Reading the index back from the offset of [i, j, c] gives [i, j, c]: distinct indices are stored at distinct positions, so the three planes read disjoint samples. |
| Input.ChannelInUnitRange | image_processing.py:18 | Samples in [0, 255] scale into [0, 1]. |
| Input.SolidColourChannel | image_processing.py:18-25 | In a solid-colour image each channel plane is constant. |
| Correlation.Reflect101 | image_processing.py:20-25 | An index inside the line reads itself. One step outside, it reads its mirror image about the edge sample, and the edge sample is not repeated. A line of one sample always reads that sample. |
| Correlation.Correlate | image_processing.py:20-25 | The correlated plane is H x W. A constant plane c correlates to c times the kernel's coefficient sum at every pixel. |
| Correlation.ConstantWindow | image_processing.py:20-25 | On a constant plane c, the 3 x 3 weighted sum at each pixel is c times the coefficient sum, border pixels included. |
| Correlation.ConstantPlaneHasZeroDerivative | image_processing.py:10-25 | With either family, a constant plane has a zero x-derivative and a zero y-derivative at every pixel, border pixels included. |
| Correlation.InteriorIgnoresBorder | image_processing.py:20-25 | At every pixel whose window lies inside the plane, the correlation equals the plain weighted sum of the pixel's neighbours. This is an independent, border-free definition. |
| StructureTensor.TensorPositiveSemidefinite | image_processing.py:27-29 | gxx >= 0 and gyy >= 0, and gxy^2 <= gxx * gyy (Cauchy-Schwarz over the three channels). |
| StructureTensor.CauchySchwarz | image_processing.py:27-29 | (a . b)^2 <= (a . a)(b . b) for three-term vectors. |
| StructureTensor.Clip0 | image_processing.py:38-39 | `clip(x, 0, None)` is non-negative, at least x, and equal to x or to 0. |
| StructureTensor.ReturnedAngleRange | image_processing.py:31-34 | If `arctan2` lies in [-pi, pi] for the `pi` the angle is shifted by, the returned angle (the dominant angle plus a quarter turn) lies in [0, pi]. |
| StructureTensor.PerpendicularSumIsTrace | image_processing.py:31-35 | If a half turn flips the signs of `cos` and `sin`, then G1 + G2 = gxx + gyy. |
| StructureTensor.PixelVG | image_processing.py:38-44 | VG at a pixel is one of sqrt(clip(G1)) and sqrt(clip(G2)), and it is at least as large as both. |
| StructureTensor.ClipOfSquaresIsIdentity | image_processing.py:53-55 | The clip before each channel's square root leaves Rx^2 + Ry^2 unchanged, because that sum is already non-negative. |
| StructureTensor.MagnitudesNonNegative | image_processing.py:41-57 | If `sqrt` is non-negative on non-negative input, VG and PPG at a pixel are non-negative. |
| StructureTensor.ZeroTensorIsFlat | image_processing.py:32-35 | A zero tensor has a zero directional magnitude at every angle. |
| StructureTensor.FlatPixel | image_processing.py:27-35 | Zero derivatives give a zero tensor, and then G1 = G2 = 0. |
| Grids.ZerosLike | image_processing.py:51 | `zeros_like` has the field's shape and holds only zeros. |
| Grids.RowMin | image_processing.py:47 | The row minimum is at most every sample of the row and is one of them. |
| Grids.RowMax | image_processing.py:47 | The row maximum is at least every sample of the row and is one of them. |
| Grids.GridMin | image_processing.py:47 | `min()` is at most every sample of the field and is one of them. |
| Grids.GridMax | image_processing.py:47 | `max()` is at least every sample of the field and is one of them. |
| Grids.ConstantHasNoSpread | image_processing.py:47-51 | A constant field has minimum = maximum = its value. |
| Normalization.Normalize | image_processing.py:47-51 | The result has the field's shape and lies in [0, 1]. It is all zeros exactly when the field's maximum equals its minimum. |
| Normalization.NormalizeExtremes | image_processing.py:47-49 | When max > min, a sample equal to the minimum maps to 0 and one equal to the maximum maps to 1. |
| Normalization.NormalizePreservesOrder | image_processing.py:47-49 | When max > min, any two samples keep their order (<=) in both directions. |
| Normalization.NormalizeInvertible | image_processing.py:47-49 | When max > min, min + n * (max - min) gives back each original sample. |
| Normalization.NormalizeIdempotent | image_processing.py:47-51 | Normalising a normalised field changes nothing. |
| Normalization.NormalizedSpansUnit | image_processing.py:47-49 | When max > min, the normalised field has minimum 0 and maximum 1. |
| Normalization.RescaleBounds | image_processing.py:49 | A sample in [min, max] rescales into [0, 1], with min going to 0 and max to 1. |
| Normalization.RescaleMonotone | image_processing.py:49 | Rescaling keeps order in both directions. |
| Normalization.RescaleInverse | image_processing.py:49 | Rescaling is undone by min + x * (max - min). |
| Thresholding.Threshold | image_processing.py:66-68 | For T > 0, a sample above T is kept and any other becomes exactly 0. For T <= 0 the field is returned unchanged. The shape is kept. |
| Thresholding.ThresholdIdempotent | image_processing.py:66-68 | Thresholding twice at the same T is the same as thresholding once. |
| Thresholding.ThresholdStaysInUnitRange | image_processing.py:66-68 | A field in [0, 1] stays in [0, 1] after thresholding. |

## Left out

- The user interface (gui.py): widgets, file dialog, image loading, colour
  conversion and plotting. It is I/O with no algorithmic content.
- `sqrt`, `arctan2`, `cos` and `sin` are not interpreted. They come in as
  parameters. Properties that depend on them are stated under explicit
  assumptions about those parameters. `np.pi` is a parameter too (the `pi`
  field): with the exact circle constant and the exact functions every
  assumption holds, while the double `np.pi` with numpy's rounded `cos` and
  `sin` meets the half-turn assumption only up to rounding.
- Floating point: float32 rounding, NaN and the exact rounding of `/ 255.0`.
  Samples are exact reals, so the `clip` guards against rounding never fire
  on the per-channel sums.
- Correlation.Reflect101: requires the index to be at most one step outside
  the line. OpenCV's border function handles any offset, but a 3 x 3 kernel
  never reads further than one step out.
- The default arguments (`mask_type='sobel'`, `T=0`) are not modelled:
  every call passes the kernel name and the threshold explicitly.
