/** The two outcome shapes the scripts use: a value that may be missing
    (Python's `None`), and a step that may raise (Python's exceptions). */
module Outcomes {

  datatype Option<+T> = None | Some(value: T) {

    /** The value, or `default` for `None`. */
    function GetOr(default: T): T {
      match this
      case Some(v) => v
      case None => default
    }
  }

  /** A step that either yields a value or raises with a message (`str(e)`). */
  datatype Result<+T> = Success(value: T) | Failure(error: string)
}
