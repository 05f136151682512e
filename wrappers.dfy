/** The usual optional value: a dictionary key that is present (Some) or absent (None). */
module Wrappers {
  datatype Option<+T> = None | Some(value: T)
}
