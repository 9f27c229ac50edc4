/** Optional values and success-or-error results, used for absent request
    fields, injected store faults and validation outcomes. */
module Wrappers {

  datatype Option<+T> = None | Some(value: T)

  datatype Result<+T, +E> = Success(value: T) | Failure(error: E)
}
