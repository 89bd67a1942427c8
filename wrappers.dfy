/** An address that may be NULL, and other optional values. */
module Wrappers {

  datatype Option<+T> = None | Some(value: T)
}
