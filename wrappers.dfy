/** The optional value used for the nullable fields and lookups of the application. */
module Wrappers {

  datatype Option<+T> = None | Some(value: T)
}
