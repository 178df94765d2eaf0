/** Optional values: a record field that the source marks optional, a stored value that may be absent. */
module Wrappers {

  datatype Option<+T> = None | Some(value: T)
}
