/** Optional values, used for the paddle's caught-ball slot and for intersections. */
module Wrappers {
  datatype Option<+T> = None | Some(value: T)
}
