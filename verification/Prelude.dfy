/** Integer widths and the small wrappers every module shares. */
module Prelude {

  const U32_MAX: nat := 0xFFFF_FFFF
  const I32_MAX: nat := 0x7FFF_FFFF

  /** The crate's `usize` on the 64-bit targets it is built for. */
  const USIZE_MAX: nat := 0xFFFF_FFFF_FFFF_FFFF

  type byte = x: int | 0 <= x < 256
  type u32 = x: int | 0 <= x <= U32_MAX

  /** A non-zero 32-bit identifier, of a context or of a callout. */
  type Id = x: int | 1 <= x <= U32_MAX witness 1

  datatype Option<+T> = None | Some(value: T) {
    function GetOr(default: T): T {
      if Some? then value else default
    }
  }

  datatype Result<+T, +E> = Ok(value: T) | Err(error: E)

  function Min(a: int, b: int): int {
    if a < b then a else b
  }

  /** An addition of `usize` values that saturates. */
  function SaturatingAdd(a: nat, b: nat): nat {
    Min(a + b, USIZE_MAX)
  }
}
