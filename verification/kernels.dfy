/** The two derivative kernels `colorgrad` can be asked for by name, and
    their fixed 3 x 3 coefficients. */
module Kernels {
  import opened Results

  /** The kernel families the operator accepts. */
  datatype MaskType = Sobel | Prewitt

  /** A kernel matrix; row u, column v is k[u][v]. */
  type Matrix = seq<seq<int>>

  predicate Is3x3(k: Matrix)
  {
    |k| == 3 && forall u :: 0 <= u < 3 ==> |k[u]| == 3
  }

  /** The name under which each kernel family is requested. */
  function MaskName(m: MaskType): string
  {
    match m
    case Sobel => "sobel"
    case Prewitt => "prewitt"
  }

  /** Selects the kernel family from its name; every other name is refused. */
  function ParseMaskType(name: string): (r: Result<MaskType>)
    ensures r.Success? <==> name == "sobel" || name == "prewitt"
    ensures r.Success? ==> MaskName(r.value) == name
    ensures r.Failure? ==> r.error == InvalidMaskType
  {
    if name == "sobel" then Success(Sobel)
    else if name == "prewitt" then Success(Prewitt)
    else Failure(InvalidMaskType)
  }

  /** Parsing a family's own name gives that family back. */
  lemma ParseMaskName(m: MaskType)
    ensures ParseMaskType(MaskName(m)) == Success(m)
  {
    match m
    case Sobel =>
    case Prewitt =>
  }

  /** The horizontal-derivative coefficients. */
  function Kx(m: MaskType): (k: Matrix)
    ensures Is3x3(k)
  {
    match m
    case Sobel => [[-1, 0, 1], [-2, 0, 2], [-1, 0, 1]]
    case Prewitt => [[-1, 0, 1], [-1, 0, 1], [-1, 0, 1]]
  }

  /** The vertical-derivative coefficients. */
  function Ky(m: MaskType): (k: Matrix)
    ensures Is3x3(k)
  {
    match m
    case Sobel => [[1, 2, 1], [0, 0, 0], [-1, -2, -1]]
    case Prewitt => [[1, 1, 1], [0, 0, 0], [-1, -1, -1]]
  }

  /** The sum of all nine coefficients. */
  function CoefficientSum(k: Matrix): int
    requires Is3x3(k)
  {
    k[0][0] + k[0][1] + k[0][2]
    + k[1][0] + k[1][1] + k[1][2]
    + k[2][0] + k[2][1] + k[2][2]
  }

  function Transpose(k: Matrix): (t: Matrix)
    requires Is3x3(k)
    ensures Is3x3(t)
    ensures forall u, v :: 0 <= u < 3 && 0 <= v < 3 ==> t[u][v] == k[v][u]
  {
    seq(3, u requires 0 <= u < 3 => seq(3, v requires 0 <= v < 3 => k[v][u]))
  }

  function Negate(k: Matrix): (n: Matrix)
    requires Is3x3(k)
    ensures Is3x3(n)
    ensures forall u, v :: 0 <= u < 3 && 0 <= v < 3 ==> n[u][v] == -k[u][v]
  {
    seq(3, u requires 0 <= u < 3 => seq(3, v requires 0 <= v < 3 => -k[u][v]))
  }

  /** Both kernels of both families are derivative filters: their
      coefficients cancel out, and ky is kx turned a quarter with its sign
      flipped, so that ky measures change from bottom to top. */
  lemma KernelShape(m: MaskType)
    ensures CoefficientSum(Kx(m)) == 0 && CoefficientSum(Ky(m)) == 0
    ensures Ky(m) == Negate(Transpose(Kx(m)))
  {
    var n := Negate(Transpose(Kx(m)));
    assert n[0] == Ky(m)[0] && n[1] == Ky(m)[1] && n[2] == Ky(m)[2];
  }
}
