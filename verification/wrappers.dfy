/** Optional values, used where the logger's state holds "not yet set". */
module Wrappers {
  datatype Option<+T> = None | Some(value: T)
}
