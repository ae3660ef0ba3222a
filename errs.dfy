/**
 * The two kinds of error the services return. `Expected` is a value built
 * with errs.New(message, code): a business rule was violated, and the
 * message and code may be shown to the caller. `Incidental` is a value
 * built with fmt.Errorf or reported by the database driver; `cause` is the
 * error wrapped with %w, if any (None where the wrapped error was nil).
 */
module Errs {
  import opened Wrappers

  datatype Error =
    | Expected(message: string, code: string)
    | Incidental(message: string, cause: Option<Error>)

  /** errs.IsExpected: only errs.New values are expected; fmt.Errorf wrappers are not. */
  predicate IsExpected(e: Error) {
    e.Expected?
  }

  /** Go's (value, nil) or (nil, err) pair of a call that cannot return (nil, nil). */
  datatype Result<+T> = Ok(value: T) | Err(error: Error)

  /** What the database driver reports for one call: None, or the error message it fails with. */
  type Fault = Option<string>

  /** The error a failing driver call returns, as the storages pass it on. */
  function DriverError(message: string): Error {
    Incidental(message, None)
  }
}
