/** Option and Result, the two failure-carrying values the rest of the model uses. */
module Wrappers {

  /** `None` stands for JavaScript's `null`/`undefined`. */
  datatype Option<+T> = None | Some(value: T)

  /** `Failure` stands for a thrown exception or a rejected promise. */
  datatype Result<+R, +E> = Success(value: R) | Failure(error: E)
}
