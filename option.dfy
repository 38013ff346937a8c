/** An optional value, for results the code writes as `null` or leaves undefined. */
module Wrappers {
  datatype Option<T> = None | Some(value: T)
}
