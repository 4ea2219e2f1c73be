/** Helper datatypes shared by the other modules. */
module Wrappers {

  /** Either a value or nothing: Go's "(v, ok)" and "(v, err)" pairs where only success matters. */
  datatype Option<+T> = None | Some(value: T)

  /** The payload of a non-nil Go `error`. */
  datatype Error = Error(message: string)
}
