/** Option values and the Python exception outcomes the model threads through
    its operations instead of raising. */
module Wrappers {

  datatype Option<+T> = None | Some(value: T) {
    predicate IsFailure() { None? }

    function PropagateFailure<U>(): Option<U>
      requires None?
    {
      None
    }

    function Extract(): T
      requires Some?
    {
      value
    }

    function GetOr(default: T): T {
      if Some? then value else default
    }
  }

  /** The Python exception classes the modelled code raises or catches. */
  datatype ExcKind =
    | ValueError
    | JsonDecodeError     // json.JSONDecodeError, a subclass of ValueError
    | PermissionError
    | FileNotFoundError
    | GitCommandError
    | RuntimeError
    | TypeError
    | AttributeError
    | KeyError
    | IndexError
    | NameError
    | HttpException(code: int)   // fastapi.HTTPException

  /** `except ValueError` also catches its subclass JSONDecodeError. */
  predicate IsValueError(k: ExcKind) {
    k == ValueError || k == JsonDecodeError
  }

  /** A raised exception: its class and the text `str(e)` gives. */
  datatype Exc = Exc(kind: ExcKind, msg: string)

  /** Either the value a Python call returns or the exception it raises. */
  datatype Result<+T> = Ok(value: T) | Raise(exc: Exc) {
    predicate IsFailure() { Raise? }

    function PropagateFailure<U>(): Result<U>
      requires Raise?
    {
      Raise(exc)
    }

    function Extract(): T
      requires Ok?
    {
      value
    }
  }
}
