/** Optional values: a C pointer that may be null, or a host call that may not happen. */
module Wrappers {

  datatype Option<+T> = None | Some(value: T)
}
