/** The `null`-or-value shape that the source uses for optional fields and results. */
module Wrappers {

  datatype Option<+T> = None | Some(value: T)
}
