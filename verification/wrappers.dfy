/** Optional values, standing in for Go's nil-able pointers and `error` values. */
module Wrappers {

  /** `None` plays the part of Go's `nil`. */
  datatype Option<+T> = None | Some(value: T)
}
