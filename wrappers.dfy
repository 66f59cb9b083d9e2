/** Optional values, results with errors, and the argument error shared by the other modules. */
module Wrappers {

  /** A value that may be absent: stands for a C# null reference or a missing lookup result. */
  datatype Option<+T> = None | Some(value: T)

  /** The outcome of an operation that may throw: `Failure` carries the exception. */
  datatype Result<+R, +E> = Success(value: R) | Failure(error: E)

  /** ArgumentNullException, carrying the parameter name it reports. */
  datatype ArgumentError = ArgumentNull(paramName: string)
}
