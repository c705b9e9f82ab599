/** Optional values and results with an error, used for JavaScript's
    `null`/`undefined` and for the errors the worker throws. */
module Wrappers {

  datatype Option<+T> = None | Some(value: T)

  datatype Result<+T, +E> = Success(value: T) | Failure(error: E)
}
