/** Option: the model's stand-in for a Go nil-able value (a nil handler, a nil map, a nil error). */
module Wrappers {
  datatype Option<+T> = None | Some(value: T)

  /** The message of the Go runtime panic raised by dereferencing a nil pointer. */
  const NilDereference := "runtime error: invalid memory address or nil pointer dereference"
}
