/** An optional value, used wherever the bridge silently produces nothing. */
module Wrappers {
  datatype Option<+T> = None | Some(value: T)
}
