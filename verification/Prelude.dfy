/** Values shared by every module: optional values and the machine integers of the wallet core. */
module Prelude {

  datatype Option<+T> = None | Some(value: T) {

    /** The left-biased choice that the wallet core writes `a.or(b)`. */
    function Or(other: Option<T>): Option<T> {
      if Some? then this else other
    }
  }

  const U16_SIZE := 0x1_0000
  const U32_SIZE := 0x1_0000_0000
  const U64_SIZE := 0x1_0000_0000_0000_0000

  type U16 = n: int | 0 <= n < U16_SIZE
  type U32 = n: int | 0 <= n < U32_SIZE
  type U64 = n: int | 0 <= n < U64_SIZE

  /** Release-build addition on `u32`: it wraps around silently. */
  function AddU32(a: U32, b: U32): (r: U32)
    ensures a + b < U32_SIZE ==> r == a + b
    ensures a + b >= U32_SIZE ==> r == a + b - U32_SIZE
  {
    (a + b) % U32_SIZE
  }

  /** A truncating `as u32` cast. */
  function CastU32(n: U64): (r: U32)
    ensures n < U32_SIZE ==> r == n
  {
    n % U32_SIZE
  }

  function SaturatingSub(a: nat, b: nat): (r: nat)
    ensures a <= b <==> r == 0
    ensures b <= a ==> r + b == a
  {
    if a <= b then 0 else a - b
  }

  function Min(a: int, b: int): int {
    if a <= b then a else b
  }

  function Max(a: int, b: int): int {
    if a <= b then b else a
  }
}
