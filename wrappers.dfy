/** Optional values: JavaScript's `null`/`undefined` and the empty selection `""`. */
module Wrappers {
  datatype Option<+T> = None | Some(value: T)
}
