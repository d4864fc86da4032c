/** The failure-carrying result used where the C++ code throws. */
module Wrappers {

  /** Either the value an operation produced or the error it raised. */
  datatype Result<+T, +E> = Success(value: T) | Failure(error: E)
}
