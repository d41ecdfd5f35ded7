/** Values shared by every module: optional values, the errors the library
    throws, and the outcome of a call that either returns or throws. */
module Wrappers {

  /** `undefined`/`null` versus a present value. */
  datatype Option<+T> = None | Some(value: T) {

    /** The value, or `default` when absent (the `??` operator). */
    function GetOr(default: T): T {
      match this
      case Some(v) => v
      case None => default
    }
  }

  /** What can be thrown: a plain `Error` with its message, a
      `TransactionalError` with its message, or an opaque error raised by the
      unit of work or by the ORM driver, known only by its identity. */
  datatype Error =
    | Plain(message: string)
    | TransactionalError(message: string)
    | Raised(id: nat)

  /** The result of a call: it returned a value or it threw an error. */
  datatype Outcome<+T> = Returned(value: T) | Threw(error: Error)
}
