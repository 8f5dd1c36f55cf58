/** The optional value used wherever the program returns a number or `None`. */
module Wrappers {

  datatype Option<+T> = None | Some(value: T)

}
