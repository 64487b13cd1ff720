/** Optional values, standing in for Java references that may still be null. */
module Wrappers {
  datatype Option<+T> = None | Some(value: T)
}
