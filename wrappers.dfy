/** Optional values: a query parameter or a request field that may be absent. */
module Wrappers {

  datatype Option<+T> = None | Some(value: T)
}
