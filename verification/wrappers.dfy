/** Optional values and error-carrying results, used for the store's
    `?.`-guarded lookups and for `JSON.parse` failures. */
module Wrappers {

  datatype Option<+T> = None | Some(value: T)

  datatype Result<+R, +E> = Success(value: R) | Failure(error: E)
}
