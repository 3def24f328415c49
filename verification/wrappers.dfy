/** The optional value used wherever the source has `undefined`, `null` or an absent key. */
module Wrappers {
  datatype Option<+T> = None | Some(value: T)
}
