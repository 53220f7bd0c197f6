/** Machine integer ranges, account keys and the Result type shared by every module. */
module Types {

  type byte = x: int | 0 <= x < 0x100
  type u32 = x: int | 0 <= x < 0x1_0000_0000
  type u64 = x: int | 0 <= x < 0x1_0000_0000_0000_0000
  type i64 = x: int | -0x8000_0000_0000_0000 <= x < 0x8000_0000_0000_0000

  const U64_MAX: int := 0xffff_ffff_ffff_ffff

  /** A Solana public key: 32 raw bytes. */
  type Pubkey = s: seq<byte> | |s| == 32 witness seq(32, _ => 0)

  /** Rust's `Result`, usable with Dafny's `:-`. */
  datatype Result<+T, +E> = Ok(value: T) | Err(error: E) {

    predicate IsFailure() {
      Err?
    }

    function PropagateFailure<U>(): Result<U, E>
      requires Err?
    {
      Err(error)
    }

    function Extract(): T
      requires Ok?
    {
      value
    }
  }
}
