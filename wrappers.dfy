/** The optional value used wherever the source has `null`, an absent key or a
    file input with no file chosen. */
module Wrappers {

  datatype Option<+T> = None | Some(value: T)
}
