/** Optional values: a JSON field or array element that may be missing. */
module Wrappers {
  datatype Option<+T> = None | Some(value: T)
}
