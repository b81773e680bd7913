/** The optional-value datatype, used for errors that may be absent and for
    the parts of a webhook action that may be missing, and a result type for
    operations that yield a value or an error. */
module Wrappers {

  datatype Option<+T> = None | Some(value: T)

  datatype Result<+R, +E> = Success(value: R) | Failure(error: E)
}
