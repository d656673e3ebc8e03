/** Optional values, for the library calls of the rules engine that may return nothing. */
module Wrappers {
  datatype Option<+T> = None | Some(value: T)
}
