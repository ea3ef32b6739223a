/** The unsigned 64-bit integers of the program. */
module Integers {

  const MAX_U64: nat := 0xFFFF_FFFF_FFFF_FFFF

  type U64 = x: nat | x <= MAX_U64

  function SaturatingAdd(a: U64, b: U64): U64 {
    if a + b <= MAX_U64 then a + b else MAX_U64
  }
}
