/** Outcomes of the colour-gradient operator: either its three fields or the
    reason it refused its arguments. */
module Results {

  /** The ways `colorgrad` refuses its arguments. */
  datatype Error =
    | NotRgb           // the array is not H x W x 3
    | InvalidMaskType  // the kernel name is neither "sobel" nor "prewitt"
    | EmptyImage       // H or W is zero: the filtering and min/max calls refuse a zero-size array

  /** A value or the error that prevented it. */
  datatype Result<+T> = Success(value: T) | Failure(error: Error)
}
