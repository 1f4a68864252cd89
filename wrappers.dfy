/** Optional values, for lookups that can miss and parameters that may be unset. */
module Wrappers {

  datatype Option<+T> = None | Some(value: T)
}
