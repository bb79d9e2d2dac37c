/** Failure-compatible result types shared by the model. */
module Wrappers {

  datatype Option<+T> = None | Some(value: T)

  /** A value, or the error text the Go code would return. */
  datatype Result<+T> = Success(value: T) | Failure(error: string)
}
