/** A reference that may be null in the modelled program. */
module Wrappers {

  datatype Option<+T> = None | Some(value: T)
}
