/** Optional values: JavaScript's `undefined` / `null` for a field or a result. */
module Wrappers {
  datatype Option<+T> = None | Some(value: T)
}
