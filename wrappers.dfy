/** An absent-or-present value: a controller slot that may hold no controller. */
module Wrappers {

  datatype Option<+T> = None | Some(value: T)
}
