/** Optional values: a file that may be missing, a command-line option that may be absent. */
module Wrappers {
  datatype Option<+T> = None | Some(value: T)
}
