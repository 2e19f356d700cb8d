/**
 * Outcome wrappers and the exception kinds that cross the boundaries of the
 * stagecraft core.  Python distinguishes `BaseException` (which
 * `except Exception:` does not catch) from ordinary exceptions; the two
 * base-only kinds the core meets are a keyboard interrupt and the `SystemExit`
 * raised by `exit()`.
 */
module Errors {

  datatype Option<+T> = None | Some(value: T)

  datatype Result<+T, +E> = Ok(value: T) | Err(error: E)

  datatype Exception =
    | KeyboardInterrupt
    | SystemExit
      /** `AppException(e, func.__name__)`: an ordinary error tagged with the function it escaped from */
    | AppException(cause: Exception, funcName: string)
    | CriticalException(message: string)
    | ValueError(message: string)
    | RuntimeError(message: string)
    | AssertionError(message: string)
    | IndexError(message: string)
    | AttributeError(message: string)
      /** any other ordinary exception raised by code outside the model */
    | OtherError(kind: string, message: string)

  /** True iff the exception derives from `Exception`, so `except Exception:` catches it. */
  predicate IsOrdinary(e: Exception) {
    !e.KeyboardInterrupt? && !e.SystemExit?
  }

  /** The result of calling a Python function: it returned a value or it raised. */
  datatype Outcome<+V> = Returned(value: V) | Raised(error: Exception)
}
