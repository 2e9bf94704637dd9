/** Unsigned 64-bit words with the wrap-around the source relies on. */
module Words {
  const TWO64: nat := 0x1_0000_0000_0000_0000
  const MAX64: nat := TWO64 - 1

  type u64 = x: nat | x < TWO64

  function Plus(a: u64, b: u64): u64 {
    if a + b < TWO64 then a + b else a + b - TWO64
  }

  function Minus(a: u64, b: u64): u64 {
    if b <= a then a - b else a - b + TWO64
  }

  function Min(a: nat, b: nat): nat {
    if a <= b then a else b
  }

  function Max(a: nat, b: nat): nat {
    if a <= b then b else a
  }
}
