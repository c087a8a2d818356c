/** Optional values: a request header or query parameter that may be missing,
    and the result of a lookup that may find nothing. */
module Wrappers {
  datatype Option<+T> = None | Some(value: T)
}
