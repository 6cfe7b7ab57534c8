/** Option and Result types shared by the whole model. */
module Wrappers {

  datatype Option<+T> = None | Some(value: T)

  /** The outcome of an operation that the source lets fail with an exception. */
  datatype Result<+R, +E> = Success(value: R) | Failure(error: E)

  /** The Python exceptions that the as-written code paths of the model can raise. */
  datatype Crash = AttributeError | TypeError
}
