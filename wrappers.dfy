/** Optional values and results with an error, used for JavaScript's `null`/`NaN`
    outcomes and for thrown errors. */
module Wrappers {

  datatype Option<+T> = None | Some(value: T)

  datatype Result<+R, +E> = Success(value: R) | Failure(error: E)
}
