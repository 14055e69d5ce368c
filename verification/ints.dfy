/** Fixed-width unsigned integers of the AVR target and the two Rust
    conversions the driver relies on: the truncating `as u16` cast and
    `u32::saturating_sub`. Values are unbounded in Dafny, so every width is
    written out here. */
module Ints {

  const U8_MAX: nat := 0xFF
  const U16_MAX: nat := 0xFFFF
  const U32_MAX: nat := 0xFFFF_FFFF

  type u8 = x: nat | x <= U8_MAX
  type u16 = x: nat | x <= U16_MAX
  type u32 = x: nat | x <= U32_MAX

  /** `x as u16`: keeps the low 16 bits, never clamps. The result is the
      one `u16` congruent to `x` modulo 2^16. */
  function AsU16(x: nat): (r: u16)
    ensures x <= U16_MAX ==> r == x
    ensures (x - r) % 0x1_0000 == 0
  {
    x % 0x1_0000
  }

  /** `a.saturating_sub(b)` on `u32`: stops at zero instead of wrapping. */
  function SaturatingSub(a: u32, b: u32): (r: u32)
    ensures r <= a
    ensures b <= a ==> r + b == a
    ensures a < b ==> r == 0
  {
    if b <= a then a - b else 0
  }
}
