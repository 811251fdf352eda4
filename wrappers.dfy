/** Optional values and value-or-exception outcomes shared by the other modules. */
module Wrappers {

  /** A Java reference that may be null. */
  datatype Option<+T> = None | Some(value: T)

  /** The outcome of a Java call: the value it returns, or the exception it throws. */
  datatype Result<+T, +E> = Success(value: T) | Failure(error: E)
}
