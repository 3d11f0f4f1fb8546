/** Optional values, used for lookups in the configuration that may miss. */
module Wrappers {
  datatype Option<+T> = None | Some(value: T)
}
