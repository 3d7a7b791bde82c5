/** Optional values, used for reads that would block and for table lookups that miss. */
module Wrappers {
  datatype Option<+T> = None | Some(value: T)
}
