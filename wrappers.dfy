/** Optional values: JavaScript's `undefined`/`null` and Python's `None`. */
module Wrappers {
  datatype Option<+T> = None | Some(value: T)
}
