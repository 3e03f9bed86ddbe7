/** Optional values, for timer handles that may not have been issued. */
module Wrappers {
  datatype Option<+T> = None | Some(value: T)
}
