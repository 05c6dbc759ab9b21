/** Optional values: an absent (undefined or null) field or result is None. */
module Wrappers {

  datatype Option<+T> = None | Some(value: T)
}
