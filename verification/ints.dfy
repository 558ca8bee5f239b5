/**
 * Rust's fixed-width integers as subset types of `int`, and the checked
 * operations the program uses. A checked operation that overflows yields
 * `ArithmeticOverflow`, as the program's `.ok_or(...)` calls do.
 */
module Ints {
  import opened Results

  const U8_MAX: int := 0xFF
  const U16_MAX: int := 0xFFFF
  const U32_MAX: int := 0xFFFF_FFFF
  const U64_MAX: int := 0xFFFF_FFFF_FFFF_FFFF
  const U128_MAX: int := 0xFFFF_FFFF_FFFF_FFFF_FFFF_FFFF_FFFF_FFFF
  const I64_MIN: int := -0x8000_0000_0000_0000
  const I64_MAX: int := 0x7FFF_FFFF_FFFF_FFFF

  type u8 = x: int | 0 <= x <= U8_MAX
  type u16 = x: int | 0 <= x <= U16_MAX
  type u32 = x: int | 0 <= x <= U32_MAX
  type u64 = x: int | 0 <= x <= U64_MAX
  type u128 = x: int | 0 <= x <= U128_MAX
  type i64 = x: int | I64_MIN <= x <= I64_MAX

  /** `u32::checked_add`. */
  function CheckedAddU32(a: u32, b: u32): (r: Result<u32>)
    ensures r.Ok? <==> a + b <= U32_MAX
    ensures r.Ok? ==> r.value == a + b
    ensures r.Err? ==> r.error == ArithmeticOverflow
  {
    if a + b <= U32_MAX then Ok(a + b) else Err(ArithmeticOverflow)
  }

  /** `u64::checked_add`. */
  function CheckedAddU64(a: u64, b: u64): (r: Result<u64>)
    ensures r.Ok? <==> a + b <= U64_MAX
    ensures r.Ok? ==> r.value == a + b
    ensures r.Err? ==> r.error == ArithmeticOverflow
  {
    if a + b <= U64_MAX then Ok(a + b) else Err(ArithmeticOverflow)
  }

  /** `u64::checked_sub`. */
  function CheckedSubU64(a: u64, b: u64): (r: Result<u64>)
    ensures r.Ok? <==> b <= a
    ensures r.Ok? ==> r.value == a - b
    ensures r.Err? ==> r.error == ArithmeticOverflow
  {
    if b <= a then Ok(a - b) else Err(ArithmeticOverflow)
  }

  /** `u128::checked_mul`. */
  function CheckedMulU128(a: u128, b: u128): (r: Result<u128>)
    ensures r.Ok? <==> a * b <= U128_MAX
    ensures r.Ok? ==> r.value == a * b
    ensures r.Err? ==> r.error == ArithmeticOverflow
  {
    if a * b <= U128_MAX then Ok(a * b) else Err(ArithmeticOverflow)
  }

  /** `u128::checked_div`: fails only on a zero divisor. */
  function CheckedDivU128(a: u128, d: u128): (r: Result<u128>)
    ensures r.Ok? <==> d != 0
    ensures r.Ok? ==> r.value == a / d
    ensures r.Err? ==> r.error == ArithmeticOverflow
  {
    if d != 0 then Ok(a / d) else Err(ArithmeticOverflow)
  }

  /** `u64::try_from(u128)`: fails when the value does not fit. */
  function TryIntoU64(x: u128): (r: Result<u64>)
    ensures r.Ok? <==> x <= U64_MAX
    ensures r.Ok? ==> r.value == x
    ensures r.Err? ==> r.error == ArithmeticOverflow
  {
    if x <= U64_MAX then Ok(x) else Err(ArithmeticOverflow)
  }

  /** An `as u64` cast of a `u128`: keeps the low 64 bits. */
  function TruncateToU64(x: u128): (r: u64)
    ensures x <= U64_MAX ==> r == x
  {
    x % (U64_MAX + 1)
  }

  /** Products of bounded naturals are bounded by the product of the bounds. */
  lemma MulMonotonic(a: nat, b: nat, bigA: nat, bigB: nat)
    requires a <= bigA && b <= bigB
    ensures a * b <= bigA * bigB
  {
    assert a * b <= bigA * b;
    assert bigA * b <= bigA * bigB;
  }
}
