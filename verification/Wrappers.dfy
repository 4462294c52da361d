/** Optional values, used where the original returns None. */
module Wrappers {
  datatype Option<+T> = None | Some(value: T)
}
