/** The two failure-compatible shapes the canisters use: an optional value and a typed result. */
module Wrappers {
  datatype Option<+T> = None | Some(value: T)

  datatype Result<+T, +E> = Ok(value: T) | Err(error: E)

  function Max(a: int, b: int): int {
    if a < b then b else a
  }

  function Min(a: int, b: int): int {
    if a < b then a else b
  }

  const U16_MAX: nat := 0xFFFF
  const U32_MAX: nat := 0xFFFF_FFFF
  const U64_MAX: nat := 0xFFFF_FFFF_FFFF_FFFF
  const U128_MAX: nat := 0xFFFF_FFFF_FFFF_FFFF_FFFF_FFFF_FFFF_FFFF

  /** Unsigned saturating arithmetic at a given ceiling. */
  function SatAdd(a: nat, b: nat, ceiling: nat): nat {
    if a + b <= ceiling then a + b else ceiling
  }

  function SatSub(a: nat, b: nat): nat {
    if b <= a then a - b else 0
  }
}
