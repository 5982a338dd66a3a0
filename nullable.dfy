/** Go's nil, for the interface and pointer values the library accepts or returns. */
module Nullable {

  /** `Nil` is a nil interface or pointer; `Some(v)` is a non-nil one holding `v`. */
  datatype Maybe<T> = Nil | Some(value: T)
}
