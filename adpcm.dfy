/** The two nybble decoders: the 4-bit ADPCM decoder with its 49-entry step
    table (src/core/spu.c:367-387) and the ADPCM36 block predictor
    (src/core/spu.c:390-402). Both are pure arithmetic on the decoder
    history; the channel state they update is written back by the decode
    loop (module Decoder). */
module Adpcm {
  import opened Bits
  import opened Layout

  datatype Option<T> = None | Some(value: T)

  type StepSize = x: int | 16 <= x <= 1552 witness 16

  type IndexDelta = x: int | -1 <= x <= 8

  /** `adpcmStep` (lines 72-77): the quantiser step for each step index. */
  const StepTable: seq<StepSize> := [
    16,   17,   19,   21,   23,   25,   28,   31,  34,   37,   41,   45,
    50,   55,   60,   66,   73,   80,   88,   97,  107,  118,  130,  143,
    157,  173,  190,  209,  230,  253,  279,  307, 337,  371,  408,  449,
    494,  544,  598,  658,  724,  796,  876,  963, 1060, 1166, 1282, 1411, 1552]

  /** `adpcmStepShift` (line 79): eight step-index adjustments. */
  const IndexShift: seq<IndexDelta> := [-1, -1, -1, -1, 2, 4, 6, 8]

  function Clamp(x: int, lo: int, hi: int): (r: int)
    requires lo <= hi
    ensures lo <= r <= hi
    ensures lo <= x <= hi ==> r == x
  {
    if x > hi then hi else if x < lo then lo else x
  }

  /** The three magnitude bits of a nybble, as a number 0..7. */
  function MagnitudeBits(nybble: Word): (m: int)
    ensures 0 <= m < 8
  {
    (nybble & 7) as int
  }

  /** The line 382 lookup as written: `adpcmStepShift[nybble]` with the full
      4-bit nybble. Nybbles 8 to 15 index past the end of the 8-entry table,
      which C leaves undefined; the model says `None` there. */
  function IndexShiftAsWritten(nybble: Word): (r: Option<int>)
    requires nybble < 16
    ensures r.Some? <==> nybble < 8
  {
    if nybble < 8 then Some(IndexShift[nybble]) else None
  }

  /** The overrun: half of the nybble values have no table entry. */
  lemma IndexShiftOverrun()
    ensures IndexShiftAsWritten(8) == None && IndexShiftAsWritten(15) == None
  {
  }

  /** The corrected lookup: the table is indexed by the three magnitude bits,
      as in the ADPCM scheme this table comes from; the sign bit does not
      change how the step adapts. */
  function IndexAdjust(nybble: Word): (d: int)
    requires nybble < 16
    ensures -1 <= d <= 8
    ensures nybble < 8 ==> IndexShiftAsWritten(nybble) == Some(d)
  {
    IndexShift[MagnitudeBits(nybble)]
  }

  /** The corrected adjustment does not depend on the sign bit. */
  lemma IndexAdjustSignFree(nybble: Word)
    requires nybble < 16
    ensures IndexAdjust(nybble ^ 8) == IndexAdjust(nybble)
  {
    assert (nybble ^ 8) & 7 == nybble & 7;
  }

  /** `e` of lines 373-376: `step>>3` plus `step>>2`, `step>>1` and `step`
      for nybble bits 0, 1 and 2. */
  function Magnitude(step: int, nybble: Word): (e: int)
    requires step >= 0
    ensures step / 8 <= e <= 2 * step
  {
    step / 8
    + (if nybble & 1 != 0 then step / 4 else 0)
    + (if nybble & 2 != 0 then step / 2 else 0)
    + (if nybble & 4 != 0 then step else 0)
  }

  /** The offset is the truncated form of `(2m+1) * step / 8`, where `m` is
      the magnitude: each of the four shifted terms loses less than one. */
  lemma {:induction false} MagnitudeApprox(step: int, nybble: Word)
    requires step >= 0
    ensures var m := MagnitudeBits(nybble);
      0 <= (2 * m + 1) * step - 8 * Magnitude(step, nybble) < 18
  {
    var b0 := if nybble & 1 != 0 then 1 else 0;
    var b1 := if nybble & 2 != 0 then 1 else 0;
    var b2 := if nybble & 4 != 0 then 1 else 0;
    assert MagnitudeBits(nybble) == b0 + 2 * b1 + 4 * b2 by {
      assert nybble & 7 == (nybble & 1) | (nybble & 2) | (nybble & 4);
    }
    calc {
      (2 * MagnitudeBits(nybble) + 1) * step;
      step + b0 * (2 * step) + b1 * (4 * step) + b2 * (8 * step);
    }
  }

  /** A larger magnitude never gives a smaller offset. */
  lemma {:induction false} MagnitudeMonotone(step: int, n1: Word, n2: Word)
    requires step >= 0
    requires MagnitudeBits(n1) <= MagnitudeBits(n2)
    ensures Magnitude(step, n1) <= Magnitude(step, n2)
  {
    assert n1 & 7 == (n1 & 1) | (n1 & 2) | (n1 & 4);
    assert n2 & 7 == (n2 & 1) | (n2 & 2) | (n2 & 4);
  }

  /** The decoder's result: the new sample (also the new last sample) and the new step index. */
  datatype AdpcmOut = AdpcmOut(sample: int, index: int)

  /** `SPU_GetADPCMSample`: one nybble against the last sample and the step index. */
  function AdpcmDecode(last: int, index: int, nybble: Word): (r: AdpcmOut)
    requires 0 <= index <= 48 && nybble < 16
    ensures -2048 <= r.sample <= 2047
    ensures 0 <= r.index <= 48
    ensures -2048 <= last <= 2047 && nybble & 8 == 0 ==> last <= r.sample
    ensures -2048 <= last <= 2047 && nybble & 8 != 0 ==> r.sample <= last
  {
    var step := StepTable[index];
    var e := Magnitude(step, nybble);
    var offset := if nybble & 8 != 0 then -e else e;
    AdpcmOut(Clamp(Wrap16(last + offset), -2048, 2047), Clamp(index + IndexAdjust(nybble), 0, 48))
  }

  /** Within one sign, the decoded sample is monotone in the magnitude bits. */
  lemma {:induction false} AdpcmMonotone(last: int, index: int, n1: Word, n2: Word)
    requires -2048 <= last <= 2047 && 0 <= index <= 48 && n1 < 16 && n2 < 16
    requires n1 & 8 == n2 & 8 && MagnitudeBits(n1) <= MagnitudeBits(n2)
    ensures n1 & 8 == 0 ==> AdpcmDecode(last, index, n1).sample <= AdpcmDecode(last, index, n2).sample
    ensures n1 & 8 != 0 ==> AdpcmDecode(last, index, n2).sample <= AdpcmDecode(last, index, n1).sample
  {
    MagnitudeMonotone(StepTable[index], n1, n2);
  }

  /** The sign bit mirrors the offset around the last sample: away from the
      clamps the two results are equally far from it. */
  lemma {:induction false} AdpcmSignMirror(last: int, index: int, nybble: Word)
    requires -2048 <= last <= 2047 && 0 <= index <= 48 && nybble < 8
    requires last + Magnitude(StepTable[index], nybble) <= 2047
    requires last - Magnitude(StepTable[index], nybble) >= -2048
    ensures AdpcmDecode(last, index, nybble).sample - last == last - AdpcmDecode(last, index, nybble | 8).sample
    ensures AdpcmDecode(last, index, nybble).index == AdpcmDecode(last, index, nybble | 8).index
  {
    assert (nybble | 8) & 8 != 0 && nybble & 8 == 0;
    assert (nybble | 8) & 7 == nybble & 7;
    assert (nybble | 8) ^ 8 == nybble;
    assert Magnitude(StepTable[index], nybble | 8) == Magnitude(StepTable[index], nybble) by {
      assert (nybble | 8) & 1 == nybble & 1 && (nybble | 8) & 2 == nybble & 2 && (nybble | 8) & 4 == nybble & 4;
    }
  }

  /** A zero nybble still adds `step>>3`, which is at least 2: a run of zero
      nybbles climbs until the clamp and does not settle. */
  lemma ZeroNybbleRises(last: int, index: int)
    requires -2048 <= last < 2047 && 0 <= index <= 48
    ensures AdpcmDecode(last, index, 0).sample > last
  {
    assert StepTable[index] >= 16;
  }

  // ---- ADPCM36

  /** The 6-bit block filter read as two's complement (lines 393-394): the
      only value in [-32, 31] congruent to the field modulo 64. */
  function Filter(header: Word): (f: int)
    ensures -32 <= f < 32
    ensures (f - HeaderFilter(header) as int) % 64 == 0
  {
    var f0 := HeaderFilter(header) as int;
    if HeaderFilter(header) & 0x20 != 0 then f0 - 64 else f0
  }

  /** A nybble read as a 4-bit two's complement number. */
  function SignedNybble(nybble: Word): (x: int)
    requires nybble < 16
    ensures -8 <= x < 8 && (x - nybble as int) % 16 == 0
  {
    if nybble < 8 then nybble as int else nybble as int - 16
  }

  /** `int16_t sample = nybble << 12` (line 396): the nybble lands in the top
      four bits and its top bit becomes the sign. */
  lemma RawSample(nybble: Word)
    requires nybble < 16
    ensures Wrap16(nybble as int * 4096) == SignedNybble(nybble) * 4096
  {
  }

  /** `SPU_GetADPCM36Sample` without its history writes: the scaled nybble
      plus the second-order prediction `(prev0*f0 + prev1*1 + 32) >> 12`,
      stored in an `int16_t`. */
  function Adpcm36Decode(header: Word, prev0: int, prev1: int, nybble: Word): (sample: int)
    requires nybble < 16
    ensures InInt16(sample)
  {
    var raw := Wrap16(nybble as int * 4096);
    var predicted := Asr(prev0 * Filter(header) + prev1 * 1 + 32, 12);
    Wrap16(Asr(raw, HeaderShift(header) as int) + predicted)
  }

  /** The output word of line 401: the sample's 16 bits with the sign bit flipped. */
  function Adpcm36Word(sample: int): Word
  {
    ToWord(sample) ^ 0x8000
  }

  lemma {:induction false} Pow2Split(k: nat)
    requires k <= 12
    ensures Pow2[k] * Pow2[12 - k] == 4096
    ensures 1 <= Pow2[12 - k] <= 4096 && Pow2[k] >= 1
  {
  }

  lemma {:induction false} DivExact(a: int, b: int)
    requires b > 0
    ensures (a * b) / b == a
  {
    var q, r := (a * b) / b, (a * b) % b;
    assert a * b == q * b + r && 0 <= r < b;
    assert (a - q) * b == r;
    SmallMultiple(a - q, b);
  }

  lemma {:induction false} SmallMultiple(c: int, b: int)
    requires b > 0 && 0 <= c * b < b
    ensures c == 0
  {
  }

  /** Shifting `x << 12` right by `k <= 12` is exact. */
  lemma {:induction false} AsrExact(x: int, k: nat)
    requires k <= 12
    ensures Asr(x * 4096, k) == x * Pow2[12 - k]
  {
    Pow2Split(k);
    assert x * 4096 == (x * Pow2[12 - k]) * Pow2[k];
    DivExact(x * Pow2[12 - k], Pow2[k]);
  }

  lemma {:induction false} ScaledNybbleFits(x: int, p: int)
    requires -8 <= x < 8 && 1 <= p <= 4096
    ensures InInt16(x * p)
  {
  }

  /** With an empty history the prediction is zero and a shift of at most 12
      scales the signed nybble exactly: the sample is
      `SignedNybble * 2^(12 - shift)`. */
  lemma {:induction false} Adpcm36Unpredicted(header: Word, nybble: Word)
    requires nybble < 16 && HeaderShift(header) <= 12
    ensures Adpcm36Decode(header, 0, 0, nybble) == SignedNybble(nybble) * Pow2[12 - HeaderShift(header) as int]
  {
    var k := HeaderShift(header) as int;
    var x := SignedNybble(nybble);
    RawSample(nybble);
    AsrExact(x, k);
    Pow2Split(k);
    ScaledNybbleFits(x, Pow2[12 - k]);
    assert Asr(0 * Filter(header) + 0 * 1 + 32, 12) == 0;
  }
}
