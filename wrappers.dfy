/** Option and Result: the model's stand-ins for JavaScript's `undefined`
    and for a thrown exception. */
module Wrappers {

  /** `None` stands for a value that is `undefined` (or `null`). */
  datatype Option<+T> = None | Some(value: T)

  /** `Failure` stands for an exception thrown by a service method. */
  datatype Result<+T, +E> = Success(value: T) | Failure(error: E)
}
