/** Optional values, for the collaborator calls that may return null. */
module Wrappers {

  datatype Option<+T> = None | Some(value: T)
}
