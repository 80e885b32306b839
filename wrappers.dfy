/** Optional values, standing for a JSON field that may be absent (`undefined` or `null`). */
module Wrappers {
  datatype Option<+T> = None | Some(value: T)
}
