/** Python's `None`-or-value and the raise-or-return of a call, as datatypes. */
module Wrappers {

  /** An optional value: `None` is Python's None. */
  datatype Option<+T> = None | Some(value: T)

  /** A call that either returns a value or raises an exception. */
  datatype Result<+T, +E> = Success(value: T) | Failure(error: E)
}
