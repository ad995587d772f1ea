/** Optional values: stand-in for JavaScript's `undefined` in optional arguments. */
module Wrappers {
  datatype Option<+T> = None | Some(value: T)
}
