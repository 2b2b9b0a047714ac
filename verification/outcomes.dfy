/** Optional values and fallible results shared by every component of the model.

    `Option` stands for a value that may be absent (a missing column, a pandas
    NaN, an empty fetch); `Result` stands for a computation that the Python code
    lets raise an exception, with the exception's kind kept as text. */
module Outcomes {

  datatype Option<+T> = None | Some(value: T) {

    /** The value when present, `default` otherwise. */
    function GetOr(default: T): T {
      match this
      case Some(v) => v
      case None => default
    }
  }

  datatype Result<+T> = Ok(value: T) | Err(reason: string) {

    predicate IsFailure() {
      Err?
    }
  }
}
