/** Optional values: JavaScript's `null` (no current question, no submitted answer,
    no slot found for a token). */
module Wrappers {
  datatype Option<+T> = None | Some(value: T)
}
