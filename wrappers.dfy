/** Optional values and results with an error, as the catalogue's
    JavaScript uses `null`/`undefined` and thrown errors. */
module Wrappers {

  datatype Option<+T> = None | Some(value: T)

  datatype Result<+R, +E> = Success(value: R) | Failure(error: E)
}
