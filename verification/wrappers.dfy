/** Failure-carrying result types shared by the model. */
module Wrappers {

  /** An optional value. */
  datatype Option<+T> = None | Some(value: T)

  /** Either a value or the error that stopped its computation
      (the model's stand-in for a raised Python exception). */
  datatype Result<+T, +E> = Success(value: T) | Failure(error: E)
}
