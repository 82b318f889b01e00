/** A value that may be absent: JavaScript's `null`/`undefined` for a field or a lookup. */
module Wrappers {

  datatype Option<+T> = None | Some(value: T)

}
