/** Failure-carrying results used where the source returns null, NaN or throws. */
module Wrappers {

  datatype Option<+T> = None | Some(value: T)

  /** A value, or the message of the Error the source throws. */
  datatype Result<+T> = Success(value: T) | Failure(error: string)
}
