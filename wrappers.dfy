/** Optional values and success/failure results, used for absent JSON fields,
    store outcomes and the client's reading of HTTP replies. */
module Wrappers {

  datatype Option<+T> = None | Some(value: T)

  datatype Result<+R, +E> = Success(value: R) | Failure(error: E)
}
