/** Failure-carrying datatypes used in place of Java's Optional and exceptions. */
module Wrappers {

  /** `Optional<T>` of the repository and nullable fields of request bodies. */
  datatype Option<+T> = None | Some(value: T)

  /** The outcome of a service call: a value, or the kind of exception it threw. */
  datatype Result<+R, +E> = Success(value: R) | Failure(error: E)
}
