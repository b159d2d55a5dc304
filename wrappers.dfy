/** Option and Result, the shapes every fallible step of the model returns. */
module Wrappers {

  /** An optional value; `None` also stands for a C# `null`. */
  datatype Option<+T> = None | Some(value: T)

  /** The outcome of a step that may throw: its value, or the exception it raised. */
  datatype Result<+T, +E> = Success(value: T) | Failure(error: E)
}
