/** The optional value used for a session's current user and game, and for a
    form field that may not parse as a number. */
module Wrappers {

  datatype Option<+T> = None | Some(value: T)
}
