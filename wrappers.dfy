/** Optional values and the settlement of an awaited collaborator call. */
module Wrappers {

  /** A value that may be absent; JavaScript's `null` and `undefined` both map to None. */
  datatype Option<T> = None | Some(value: T)

  /** How an awaited promise settled: fulfilled with a value, or rejected (thrown). */
  datatype Outcome<T> = Ok(value: T) | Err
}
