/** The `null`-or-value shape that the components use for optional state. */
module Wrappers {

  datatype Option<+T> = None | Some(value: T)

}
