/** Optional values: an HTTP header that may be absent from a request. */
module Wrappers {

  datatype Option<+T> = None | Some(value: T)
}
