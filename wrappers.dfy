/** Optional values and the outcome of a call into a library the model does not see. */
module Wrappers {

  /** A session-state key that may not have been set yet. */
  datatype Option<+T> = None | Some(value: T)

  /** A foreign call either returns a value or raises an exception. */
  datatype Outcome<+T> = Ok(value: T) | Raised
}
