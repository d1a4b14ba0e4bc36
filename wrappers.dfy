/** Optional values and failure-carrying results. */
module Wrappers {

  datatype Option<T> = None | Some(value: T)

  datatype Result<T, E> = Ok(value: T) | Err(error: E)

  /** The result of an operation that returns nothing but may raise. */
  datatype Outcome<E> = Pass | Fail(error: E)
}
