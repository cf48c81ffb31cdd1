/** Optional values: Go's nil pointers and nil errors are modelled as None. */
module Wrappers {

  datatype Option<+T> = None | Some(value: T)
}
