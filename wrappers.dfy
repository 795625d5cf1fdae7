/** Optional values and results with an error message, used for the handler's
    absent form fields and for the exceptions its `try` block catches. */
module Wrappers {

  datatype Option<+T> = None | Some(value: T)

  datatype Result<+R> = Success(value: R) | Failure(error: string)
}
