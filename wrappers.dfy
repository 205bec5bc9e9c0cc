/** Optional values (a JavaScript value that may be `undefined`/`null`) and results that may be a thrown error. */
module Wrappers {
  datatype Option<+T> = None | Some(value: T)

  datatype Result<+T, +E> = Success(value: T) | Failure(error: E)
}
