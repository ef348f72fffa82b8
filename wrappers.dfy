/** Optional values, standing in for Go's `(value, ok)` and nil results. */
module Wrappers {
  datatype Option<+T> = None | Some(value: T)
}
