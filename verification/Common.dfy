// Vocabulary shared by every component: results, errors and 64-bit integers.
module Common {

  datatype Option<+T> = None | Some(value: T)

  // The sentinel errors of internal/errorsx. Driver stands for any failure the
  // database driver reports that is not one of the domain errors.
  datatype Error =
    | NotFound
    | AlreadyExists
    | VersionConflict
    | LeaseHeld
    | IllegalTransition
    | Validation
    | Incomplete
    | Retryable
    | Driver

  datatype Result<+T> = Ok(value: T) | Err(error: Error) {
    predicate IsFailure() { Err? }

    function PropagateFailure<U>(): Result<U>
      requires Err?
    {
      Err(error)
    }

    function Extract(): T
      requires Ok?
    {
      value
    }
  }

  // Row identifiers (uuid text in the database). The empty string is None.
  type Id = nat

  const TWO_63 := 0x8000_0000_0000_0000
  const TWO_64 := 0x1_0000_0000_0000_0000

  // Two's-complement truncation to a 64-bit signed integer.
  function Wrap64(x: int): int {
    (x + TWO_63) % TWO_64 - TWO_63
  }

  function Max(a: int, b: int): int {
    if a < b then b else a
  }

  function Min(a: int, b: int): int {
    if a < b then a else b
  }
}
