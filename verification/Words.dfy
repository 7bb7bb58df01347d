// Machine integers of the daemon and the C conversions between them.
module Words {

  const TWO_31: int := 0x8000_0000
  const TWO_32: int := 0x1_0000_0000
  const TWO_64: int := 0x1_0000_0000_0000_0000

  type U8 = x: int | 0 <= x < 256
  type U64 = x: int | 0 <= x < 0x1_0000_0000_0000_0000
  type I32 = x: int | -0x8000_0000 <= x < 0x8000_0000

  datatype Option<+T> = None | Some(value: T)

  // Conversion of any integer to uint64.
  function ToU64(x: int): (r: U64) {
    x % TWO_64
  }

  // Two's complement wrap to a 32-bit int.
  function ToI32(x: int): (r: I32) {
    (x + TWO_31) % TWO_32 - TWO_31
  }

  // Conversion of an int delay to the size_t that zloop_timer takes.
  function Delay(p: I32): (d: nat) {
    ToU64(p)
  }

  // Distinct poll times never share a timer period.
  lemma DelayInjective(p: I32, q: I32)
    requires Delay(p) == Delay(q)
    ensures p == q
  {
  }

  // The wrap takes away whole turns, and only those.
  lemma Turns32(x: int)
    ensures x == ToI32(x) + TWO_32 * ((x + TWO_31) / TWO_32)
  {
  }

  lemma SameWrap(x: int, y: int, k: int)
    requires x == y + TWO_32 * k
    ensures ToI32(x) == ToI32(y)
  {
  }
}
