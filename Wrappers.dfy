/** Failure-compatible wrappers: a JavaScript `null` result becomes `None`,
    a thrown `Error` becomes `Failure`. */
module Wrappers {

  datatype Option<+T> = None | Some(value: T)

  datatype Result<+R, +E> = Success(value: R) | Failure(error: E)
}
