/** Failure-carrying values used in place of the source's exceptions and nulls. */
module Wrappers {

  datatype Option<T> = None | Some(value: T)

  datatype Result<T, E> = Ok(value: T) | Err(error: E)

  /** The outcome of an operation that yields no value but may fail. */
  datatype Outcome<E> = Pass | Fail(error: E)
}
