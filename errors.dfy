/**
 * Exceptions raised by the adapter. Nest's `HttpException` subclasses carry
 * a kind (rendered as an HTTP status) and a fixed message; a plain `Error`
 * and a runtime `TypeError` carry only a message.
 */
module Errors {

  datatype ExceptionKind = BadRequest | Unauthorized | InternalServerError

  datatype Error =
    | HttpException(kind: ExceptionKind, message: string)
    | PlainError(message: string)
    | TypeError(message: string)

  /** The outcome of an operation that may throw. */
  datatype Result<+T> = Ok(value: T) | Err(error: Error) {
    predicate IsFailure() { Err? }

    function PropagateFailure<U>(): Result<U>
      requires Err?
    {
      Err(error)
    }

    function Extract(): T
      requires Ok?
    {
      value
    }
  }

  function BadRequestError(message: string): Error {
    HttpException(BadRequest, message)
  }

  function UnauthorizedError(message: string): Error {
    HttpException(Unauthorized, message)
  }
}
