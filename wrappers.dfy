/** Optional values and results with an error, shared by the other modules. */
module Wrappers {

  /** A value that may be absent (`null` or `undefined` in the source). */
  datatype Option<+T> = None | Some(value: T)

  /** A value, or the error a rejected promise carries. */
  datatype Result<+T, +E> = Success(value: T) | Failure(error: E)
}
