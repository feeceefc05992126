/** Optional values and the outcome of a call into the hosted record store. */
module Wrappers {

  /** A JavaScript value that may be `undefined`/`null`. */
  datatype Option<+T> = None | Some(value: T)

  /** What an awaited store call does: resolves with a value or throws. */
  datatype Outcome<+T> = Ok(value: T) | Err

  /** Numeric ids are truthy unless they are missing or zero. */
  predicate TruthyId(id: Option<int>)
  {
    id.Some? && id.value != 0
  }
}
