/** Optional values: a Python `None` return or a missing SQL row. */
module Wrappers {
  datatype Option<T> = None | Some(value: T)
}
