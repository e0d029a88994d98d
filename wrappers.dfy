/** Optional values, standing for Go's nil-able interfaces, pointers and slices. */
module Wrappers {

  datatype Option<+T> = None | Some(value: T)
}
