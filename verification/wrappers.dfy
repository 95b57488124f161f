/** Optional value: an error outcome (`None` for a nil error) or a parse result. */
module Wrappers {
  datatype Option<+T> = None | Some(value: T)
}
