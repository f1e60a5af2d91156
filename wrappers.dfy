/** Optional values, standing in for Go's nil-able pointers and absent context values. */
module Wrappers {

  datatype Option<+T> = None | Some(value: T)
}
