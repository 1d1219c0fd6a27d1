/** Fixed-width Rust integers used by the model, as ranges of the unbounded `int`. */
module MachineInts {

  const TWO_TO_THE_16: int := 0x1_0000
  const TWO_TO_THE_63: int := 0x8000_0000_0000_0000
  const TWO_TO_THE_64: int := 0x1_0000_0000_0000_0000

  /** `u16` */
  type U16 = x: int | 0 <= x < TWO_TO_THE_16

  /** `u64` */
  type U64 = x: int | 0 <= x < TWO_TO_THE_64

  /** `i64` */
  type I64 = x: int | -TWO_TO_THE_63 <= x < TWO_TO_THE_63

  /** `u64::MAX` */
  const U64_MAX: U64 := TWO_TO_THE_64 - 1

  /** Rust's `n as u64` on an `i64`: the same 64 bits read as unsigned, so a negative
      value wraps around to `n + 2^64`. */
  function AsU64(n: I64): (r: U64)
    ensures 0 <= n ==> r == n
    ensures n < 0 ==> TWO_TO_THE_63 <= r
    ensures r == n % TWO_TO_THE_64
  {
    if 0 <= n then n else n + TWO_TO_THE_64
  }
}
