/** Option and Result, as used throughout the model for JavaScript's
    `null`/`undefined` results and for thrown errors. */
module Wrappers {

  datatype Option<+T> = None | Some(value: T)

  datatype Result<+R, +E> = Success(value: R) | Failure(error: E)
}
