/** The optional value used where the source has `None` or a key that may be absent from a dict. */
module Wrappers {

  datatype Option<+T> = None | Some(value: T)
}
