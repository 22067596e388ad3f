/** The absence/presence datatype every other module shares. */
module Wrappers {
  datatype Option<+T> = None | Some(value: T)
}
