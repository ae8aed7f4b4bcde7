/** Failure-carrying datatypes shared by every module of the model. */
module Wrappers {

  datatype Option<+T> = None | Some(value: T) {
    function GetOr(default: T): T {
      match this
      case Some(v) => v
      case None => default
    }
  }

  datatype Result<+R, +E> = Success(value: R) | Failure(error: E)

  /** The exception classes the application raises or catches, used as tags. */
  datatype ExceptionKind =
    | ImportError
    | NameError
    | ValidationError
    | ConfigurationError
    | ValueError
    | RuntimeError

  /** A raised exception: its class and `str(e)`. */
  datatype Exception = Exception(kind: ExceptionKind, message: string)

  /** The outcome of a call into code outside the model: a value, or an exception. */
  datatype Attempt<+T> = Returned(value: T) | Threw(exception: Exception)

  /** Python truthiness of an `Optional[str]`: present and non-empty. */
  predicate Truthy(s: Option<string>) {
    s.Some? && s.value != ""
  }
}
