/** Failure-compatible wrappers shared by the model: an optional value
    (a JavaScript value that may be `undefined`) and a success-or-error
    result (a promise that resolves or rejects, a call that returns or throws). */
module Wrappers {

  datatype Option<+T> = None | Some(value: T)

  datatype Result<+R, +E> = Success(value: R) | Failure(error: E)
}
