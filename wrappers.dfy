/** Small shared datatypes: Go's optional results and its `error` values. */
module Wrappers {

  /** An optional value; `None` stands for Go's `nil` error. */
  datatype Option<+T> = None | Some(value: T) {
    function GetOr(default: T): T {
      match this
      case Some(v) => v
      case None => default
    }
  }

  /** A Go `error`, identified by its message. */
  datatype Error = Error(message: string)
}
