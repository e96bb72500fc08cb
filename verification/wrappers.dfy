/** Optional values: a Go `error` that may be nil, an optional result. */
module Wrappers {

  datatype Option<+T> = None | Some(value: T)
}
