/** Optional values: JavaScript's `undefined` / `null` and the absent field. */
module Wrappers {
  datatype Option<+T> = None | Some(value: T)
}
