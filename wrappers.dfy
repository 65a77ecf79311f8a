/** JavaScript's optional (`?:`) fields and `T | null` values. */
module Wrappers {
  datatype Option<+T> = None | Some(value: T)
}
