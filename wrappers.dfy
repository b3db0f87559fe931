/** The optional value used wherever the source returns `None`/`null` or omits a key. */
module Wrappers {
  datatype Option<+T> = None | Some(value: T)
}
