/** Optional values, for Go's nil slices and nil errors. */
module Wrappers {
  datatype Option<+T> = None | Some(value: T)
}
