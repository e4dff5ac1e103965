/** The optional value used for table lookups that may miss and for a cancelled prompt. */
module Wrappers {

  datatype Option<+T> = None | Some(value: T)
}
