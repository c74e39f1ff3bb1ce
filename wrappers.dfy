/** Optional values: used where the source raises IndexError or StopIteration. */
module Wrappers {
  datatype Option<+T> = None | Some(value: T)
}
