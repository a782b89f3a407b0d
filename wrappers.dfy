/** Option and Result: the shapes used for JavaScript's `null`/`undefined`
    values and for the errors the backend throws. */
module Wrappers {

  datatype Option<+T> = None | Some(value: T)

  /** A thrown `Error` becomes `Failure(message)`; a returned value `Success(v)`. */
  datatype Result<+R> = Success(value: R) | Failure(error: string)
}
