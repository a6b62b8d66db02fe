/** Optional values: Go's nil-able `error` and the absent case of a lookup. */
module Wrappers {

  datatype Option<+T> = None | Some(value: T)
}
