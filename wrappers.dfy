/** The optional value used wherever the modelled program has `None`. */
module Wrappers {
  datatype Option<+T> = None | Some(value: T)
}
