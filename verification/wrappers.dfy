/** The optional value used wherever the integration stores or returns `None`. */
module Wrappers {

  datatype Option<+T> = None | Some(value: T)

}
