/** Shared result types. */
module Prelude {

  datatype Option<+T> = None | Some(value: T)

  /** Why a command was refused: the error category of the daemon and the field it names. */
  datatype Failure =
    | Conflict(path: string)
    | Invalid(path: string)
    | BadPrincipal(path: string)
    | DuplicateEventId

  datatype Result<+T> = Ok(value: T) | Err(error: Failure)

  function Max(a: int, b: int): (m: int)
    ensures m >= a && m >= b && (m == a || m == b)
  {
    if a >= b then a else b
  }
}
