/** Option and failure types shared by the model, and the library's error kinds. */
module Wrappers {

  datatype Option<+T> = None | Some(value: T)

  /** A value, or the exception the C++ code would throw instead. */
  datatype Result<+T, +E> = Success(value: T) | Failure(error: E)

  /** The outcome of an operation that returns nothing or throws. */
  datatype Outcome<+E> = Pass | Fail(error: E)

  /** `std::invalid_argument` together with its message. */
  datatype Error = InvalidArgument(message: string)
}
