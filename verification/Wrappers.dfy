/** A value that may be absent: a missing file, an unset handle, a failed lookup. */
module Wrappers {
  datatype Option<+T> = None | Some(value: T)
}
