/** Failure-compatible result types shared by every module of the model. */
module Wrappers {

  datatype Option<+T> = None | Some(value: T)

  /** A Python call that either returns a value or raises; the error value
      says which exception (or HTTP error) escapes. */
  datatype Result<+R, +E> = Success(value: R) | Failure(error: E)
}
