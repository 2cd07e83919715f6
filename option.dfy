// An optional value, for results the source leaves undefined or unassigned.
module Wrappers {
  datatype Option<T> = None | Some(value: T)
}
