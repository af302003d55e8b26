/** Optional values and outcomes of guarded operations. */
module Wrappers {

  datatype Option<+T> = None | Some(value: T)

  /** The `{ success, error }` answer of a server action. */
  datatype Outcome<+E> = Pass | Fail(error: E)
}
