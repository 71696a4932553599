/** Fixed-width helpers shared by the whole model: 16-bit register words,
    channel numbers and the two's complement view of a word. */
module Bits {

  type Word = bv16

  /** A channel number, 0 to 15. The channel masks hold bit `ch` for channel `ch`. */
  type Chan = bv4

  /** The channel number for a loop counter below 16. */
  function ToChan(k: nat): (ch: Chan)
    requires k < 16
    ensures ch as int == k
  {
    k as Chan
  }

  /** The `int16_t` reading of a word. */
  function Signed16(w: Word): (x: int)
    ensures -32768 <= x < 32768
    ensures w < 0x8000 ==> x == w as int
    ensures w >= 0x8000 ==> x == w as int - 65536
  {
    TopBit(w);
    if w < 0x8000 then w as int else w as int - 65536
  }

  /** The sign bit of a word is set exactly when its value is 0x8000 or more. */
  lemma TopBit(w: Word)
    ensures w < 0x8000 <==> w as int < 0x8000
  {
    assert (w as int) as Word == w;
  }

  /** The word C stores for an integer: its value modulo 2^16. */
  function ToWord(x: int): Word
  {
    (x % 65536) as Word
  }

  predicate InInt16(x: int)
  {
    -32768 <= x < 32768
  }

  /** Conversion of an `int` to `int16_t`, modelled as two's complement wrap-around. */
  function Wrap16(x: int): (r: int)
    ensures InInt16(r)
    ensures (r - x) % 65536 == 0
    ensures InInt16(x) ==> r == x
  {
    (x + 32768) % 65536 - 32768
  }

  /** The powers of two a 16-bit shift can use. */
  const Pow2: seq<int> := [1, 2, 4, 8, 16, 32, 64, 128, 256, 512, 1024, 2048, 4096, 8192, 16384, 32768]

  /** Arithmetic right shift of a (possibly negative) `int` by `k` < 16: a
      division rounding towards minus infinity. Dafny's `/` by a positive
      divisor already rounds that way. */
  function Asr(x: int, k: nat): int
    requires k < 16
  {
    x / Pow2[k]
  }
}
