/** Optional values and results with an error alternative, used for the
    optional fields of the provider's records and for conversions that fail. */
module Wrappers {

  datatype Option<+T> = None | Some(value: T)

  datatype Result<+T, +E> = Success(value: T) | Failure(error: E)
}
