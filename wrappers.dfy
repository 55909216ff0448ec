/** Optional values: a lookup that may find nothing, a search that may find no index. */
module Wrappers {
  datatype Option<+T> = None | Some(value: T)
}
