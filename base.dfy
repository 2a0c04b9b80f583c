/** Small shared vocabulary: Rust's Option and Result, the u8 and usize
    ranges, and a maximum on naturals. */
module Base {

  datatype Option<+T> = None | Some(value: T)

  /** Rust's Result; the failure constructor is called Fail because the
      token enum of the lexer has its own Err variant. */
  datatype Result<+T, +E> = Ok(value: T) | Fail(error: E)

  /** Rust's u8. */
  type u8 = x: int | 0 <= x < 256

  /** One more than the largest Rust usize on a 64-bit target. */
  const USIZE_LIMIT: nat := 0x1_0000_0000_0000_0000

  function Max(a: nat, b: nat): nat
  {
    if a < b then b else a
  }
}
