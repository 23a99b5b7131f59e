/** Option and Result, standing for the source's nullable references and exceptions. */
module Wrappers {

  /** None stands for a .NET null (or an absent Nullable<T>). */
  datatype Option<+T> = None | Some(value: T)

  /** Failure stands for an exception the source lets propagate to its caller. */
  datatype Result<+R, +E> = Success(value: R) | Failure(error: E)
}
