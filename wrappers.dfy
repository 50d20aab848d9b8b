/** A value that may be absent: JavaScript's `null`/`undefined`, or "no result". */
module Wrappers {
  datatype Option<+T> = None | Some(value: T)
}
