/** Optional values: a request-body field that is absent, or a coercion that threw. */
module Wrappers {
  datatype Option<+T> = None | Some(value: T)
}
