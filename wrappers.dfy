/** The optional value used wherever the survey returns "something or None". */
module Wrappers {
  datatype Option<+T> = None | Some(value: T)
}
