/** Optional values: Go's `nil` error and "no value" results. */
module Wrappers {

  datatype Option<+T> = None | Some(value: T)
}
