/** The optional value used for "no item selected" and for a text field that does not parse as a number. */
module Wrappers {

  datatype Option<+T> = None | Some(value: T)
}
