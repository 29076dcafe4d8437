/** Option and Result for the coordinator's error path. */
module Wrappers {

  datatype Option<+T> = None | Some(value: T)

  /** A call either succeeds with a value or fails with the exception WriteLargeBatch.kt throws. */
  datatype Result<+R, +E> = Success(value: R) | Failure(error: E)
}
