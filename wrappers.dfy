/** The optional value used for "no row found", "no header sent" and "no handler matched". */
module Wrappers {
  datatype Option<+T> = None | Some(value: T)
}
