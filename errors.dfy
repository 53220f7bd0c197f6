/** The program's error codes (src/error.rs) and the runtime's `ProgramError`. */
module Errors {
  import opened Types

  /** `CustomError`, a `#[repr(u32)]` enum with explicit discriminants. */
  datatype CustomError =
    | InvalidPDAKey
    | NotOwnedByTokenProgram
    | UnauthorizedClaimer
    | ZeroAmount
    | CliffOverDuration
    | StartCliffOverflow
  {
    /** `From<CustomError> for u32`: the discriminant. */
    function Code(): (c: u32)
      ensures 101 <= c <= 106
    {
      match this
      case InvalidPDAKey => 101
      case NotOwnedByTokenProgram => 102
      case UnauthorizedClaimer => 103
      case ZeroAmount => 104
      case CliffOverDuration => 105
      case StartCliffOverflow => 106
    }
  }

  /** The error values a program invocation can end with.
      `SystemProgramFailure` and `TokenProgramFailure` stand for whatever error the invoked
      system or token program reports (their own codes are not modelled); `Panic` stands for
      an aborted program: a failed `assert!`, an arithmetic overflow, a division by zero or a
      failed `unwrap`. */
  datatype ProgramError =
    | Custom(code: u32)
    | MissingRequiredSignature
    | NotEnoughAccountKeys
    | BorshIoError
    | SystemProgramFailure
    | TokenProgramFailure
    | Panic

  /** The Solana runtime's `ProgramError::from(u64)` (not part of this crate), restricted to a
      code below 2^32: such a code is not one of the runtime's built-in codes (those are
      multiples of 2^32), so it becomes a custom error. */
  function FromCode(code: u32): ProgramError {
    Custom(code)
  }

  /** Distinct variants have distinct codes, so the conversion to u32 loses nothing. */
  lemma CodeInjective(a: CustomError, b: CustomError)
    requires a.Code() == b.Code()
    ensures a == b
  {
    match a
    case InvalidPDAKey =>
    case NotOwnedByTokenProgram =>
    case UnauthorizedClaimer =>
    case ZeroAmount =>
    case CliffOverDuration =>
    case StartCliffOverflow =>
  }

  /** The unit test of src/error.rs: `ProgramError::from(101)` is the custom error of
      `InvalidPDAKey`. */
  lemma FromCodeOfInvalidPdaKey()
    ensures FromCode(101) == Custom(InvalidPDAKey.Code())
  {
  }
}
