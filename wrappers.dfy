/** Optional values and outcomes that either carry a value or an error message. */
module Wrappers {

  /** A value that may be absent, like Python's `Optional`. */
  datatype Option<+T> = None | Some(value: T)

  /** The outcome of a call that either returns a value or raises an exception
      whose message is `error`. */
  datatype Result<+T> = Success(value: T) | Failure(error: string)
}
