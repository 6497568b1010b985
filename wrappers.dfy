/** The optional value used for every field the source marks `?` or may leave undefined. */
module Wrappers {

  datatype Option<+T> = None | Some(value: T)
}
