/** Option and Result, the two wrapper types the model uses for Java's nullable
    boxes and for operations that throw. */
module Wrappers {

  /** A value that may be absent (a Java reference that may be null, a
      TypeScript property that may be undefined). */
  datatype Option<+T> = None | Some(value: T)

  /** The outcome of an operation that either returns a value or throws. */
  datatype Result<+R, +E> = Success(value: R) | Failure(error: E)
}
