/** The usual optional value, used for nullable columns and absent rows. */
module Wrappers {
  datatype Option<+T> = None | Some(value: T)
}
