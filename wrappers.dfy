/** Failure-carrying values shared by every module of the model.
  - Option<T> stands for a TypeScript optional field (`x?: T`) or a nullable value;
  - Result<T> stands for an operation that either returns a value or throws an Error. */
module Wrappers {

  datatype Option<+T> = None | Some(value: T) {
    function GetOr(default: T): T {
      match this
      case Some(v) => v
      case None => default
    }
  }

  /** A thrown JavaScript `Error` is modelled by its message. */
  datatype Result<+T> = Ok(value: T) | Err(message: string)
}
