/** The one failure-carrying datatype the model needs: a parse or a lookup that may not produce a value. */
module Wrappers {
  datatype Option<+T> = None | Some(value: T)
}
