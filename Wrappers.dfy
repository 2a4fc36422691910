/** Optional values: `None` stands where the source returns a null pointer or skips a missing tree. */
module Wrappers {
  datatype Option<+T> = None | Some(value: T)
}
