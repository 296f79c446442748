/**
 * The failures that reach the error handler, as a closed set of kinds instead
 * of PHP's open class hierarchy. Every failure also carries what
 * `getMessage()`, `getLine()` and `getFile()` return.
 */
module Throwables {

  /** The messages that a validator reported for one input field, in order. */
  datatype FieldMessages = FieldMessages(field: string, messages: seq<string>)

  datatype ExceptionKind =
    | RouteNotFound                              // NotFoundHttpException
    | Domain(exactBase: bool, numericCode: int)  // BaseException (exactBase) or one of its subclasses
    | Validation(fields: seq<FieldMessages>)     // ValidationException and its `errors()`
    | Unauthorized                               // UnauthorizedHttpException
    | Policy                                     // PolicyException
    | Other                                      // any other Throwable

  /**
   * A thrown failure. For a domain failure (`BaseException`) the message is
   * its machine code, e.g. `UNKNOW_ERROR_TRY_AGAIN`.
   */
  datatype Throwable = Throwable(kind: ExceptionKind, message: string, line: int, file: string)

  /** `$e instanceof BaseException`: the base class or any subclass. */
  predicate IsBaseException(e: Throwable) {
    e.kind.Domain?
  }
}
