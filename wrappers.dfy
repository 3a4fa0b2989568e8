/** Optional values: `None` stands for Java's `null` or for an exception the caller catches. */
module Wrappers {
  datatype Option<+T> = None | Some(value: T)
}
