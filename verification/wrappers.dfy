/** Optional values, used for name lookups that may fail. */
module Wrappers {

  datatype Option<+T> = None | Some(value: T)
}
