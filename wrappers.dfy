/** The optional value the model uses where the source has `None` or a missing dictionary key. */
module Wrappers {

  datatype Option<+T> = None | Some(value: T)
}
