/** Error values for the failed checks of the engine, and the result wrappers that carry them. */
module Results {

  /** Which check failed (each is an exception thrown by the engine). */
  datatype Error =
    | SizeNotPositive     // a matrix dimension is zero or negative
    | TooFewLayers        // a network needs more than two layers
    | NegativeSize        // an array would get a negative length
    | MatmulSizeMismatch  // the vector's length is not the matrix's column count
    | InputSizeMismatch   // the input does not have one value per input neuron

  /** Either a value or the error that stopped the operation. */
  datatype Result<+T> = Ok(value: T) | Err(error: Error)

  /** An optional value; `None` stands for a floating-point NaN result. */
  datatype Option<+T> = None | Some(value: T)
}
