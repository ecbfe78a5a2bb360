/** The PHP exceptions the core raises or forwards. */
module Errors {
  import opened Wrappers

  /** A thrown PHP value. `LogicException` keeps the `previous` exception it
      wraps; `TypeError` is what PHP raises when an argument does not have
      its declared type; `Thrown` stands for any other `\Throwable` raised by
      a collaborator whose code is not part of this model. */
  datatype Throwable =
    | RuntimeException(message: string)
    | TypeError(message: string)
    | LogicException(message: string, code: int, previous: Option<Throwable>)
    | Thrown(className: string, message: string)

}
