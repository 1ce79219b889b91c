/** Optional values, for the places where the clients use Python's None. */
module Wrappers {

  datatype Option<+T> = None | Some(value: T)
}
