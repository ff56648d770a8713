/** The optional value used wherever the program holds `T | null`. */
module Wrappers {
  datatype Option<+T> = None | Some(value: T)
}
