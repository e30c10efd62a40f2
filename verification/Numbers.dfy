/** Integer widths and the small arithmetic the sources share. */
module Numbers {
  const U16 := 0x1_0000
  const U32 := 0x1_0000_0000
  const I32_MIN := -0x8000_0000
  const I32_MAX := 0x7FFF_FFFF

  function Abs(x: int): nat {
    if x < 0 then -x else x
  }

  /** clamp_i32 (lib/autolee_logic/endpoint_math.h). */
  function Clamp(v: int, lo: int, hi: int): int {
    if v < lo then lo else if v > hi then hi else v
  }

  /** Milliseconds from `start` to `now` on a 32-bit clock. */
  function Since(now: int, start: int): nat {
    (now - start) % U32
  }
}
