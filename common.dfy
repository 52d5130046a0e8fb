/** Values shared by every part of the growth-rate model. */
module Common {

  /** The stock optional value. */
  datatype Option<T> = None | Some(value: T)

  /** The outcome of an operation that can raise one of the errors below. */
  datatype Result<T> = Ok(value: T) | Err(error: Error)

  /** The exceptions the analysis can raise; none of them is caught. */
  datatype Error =
    | MaskLengthMismatch                // a boolean mask applied to a series of another length
    | SplineFitFailed                   // the smoothing-spline fit rejected its input
    | EmptyArgmax                       // argmax of an empty derivative sequence
    | ColumnNameIndexError(name: string) // a column name too short for the well test

  /** One entry of a log-transformed OD series: a finite number, or the
      -inf / NaN that the logarithm yields for non-positive readings. */
  datatype LogValue = Finite(value: real) | NonFinite
}
