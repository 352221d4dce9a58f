/** Rust's fixed-width unsigned integers and the float-to-u8 cast. */
module Numeric {
  newtype u8 = x: int | 0 <= x < 0x100
  newtype u32 = x: int | 0 <= x < 0x1_0000_0000

  /**
   * Rust's `v as u8` on a float: the fraction is truncated toward zero and
   * the result saturates at 0 and 255 (NaN is not modelled).
   */
  function AsU8(v: real): (r: u8)
    ensures 0.0 <= v < 256.0 ==> r as real <= v < r as real + 1.0
    ensures v < 0.0 ==> r == 0
    ensures 256.0 <= v ==> r == 255
  {
    if v < 0.0 then 0 else if v >= 255.0 then 255 else v.Floor as u8
  }

  /** A channel value survives the round trip through `as f64` and back `as u8`. */
  lemma AsU8OfChannel(c: u8)
    ensures AsU8(c as int as real) == c
  {
  }
}
