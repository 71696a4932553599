/** The per-channel sample path of `SPU_TickChannel` (src/core/spu.c:301-326):
    the offset-binary sample word read as a signed sample, the linear
    interpolation between the previous and the current sample, the scaling by
    the envelope amplitude and the pan law that splits it into a left and a
    right weight. */
module Voice {
  import opened Bits
  import opened Layout
  import opened SpuState

  // ---- the sample path (lines 301-310)

  /** `(int16_t)(waveData ^ 0x8000)`: the stored word is offset binary, so
      flipping the top bit and reading it as `int16_t` takes 32768 off. */
  function SampleOf(w: Word): (x: int)
    ensures x == w as int - 32768
  {
    Signed16(w ^ 0x8000)
  }

  /** Linear interpolation with an 8-bit fraction (lines 306-309): `from`
      weighted by `256 - lerp` plus `to` weighted by `lerp`, each product
      shifted right by 8. */
  function Lerp(from: int, to: int, lerp: int): int
  {
    Asr(from * (256 - lerp), 8) + Asr(to * lerp, 8)
  }

  /** The interpolation of lines 303-310 as written: both endpoints are read
      from `waveData`. */
  function InterpolateAsWritten(c: Channel, lerp: int): int
  {
    Lerp(SampleOf(c.regsA[WaveDataReg]), SampleOf(c.regsA[WaveDataReg]), lerp)
  }

  /** As written, the interpolation returns the current sample, or one
      below it through the two roundings, whatever the weight and whatever
      the previous sample. */
  lemma InterpolateAsWrittenFlat(c: Channel, lerp: int)
    ensures var x := SampleOf(c.regsA[WaveDataReg]);
      x - 1 <= InterpolateAsWritten(c, lerp) <= x
  {
    var x := SampleOf(c.regsA[WaveDataReg]);
    FloorSplit(x * (256 - lerp), x * lerp, x);
  }

  /** Two floors of parts that add up to `256 * x` add up to `x` or `x - 1`. */
  lemma FloorSplit(a: int, b: int, x: int)
    requires a + b == 256 * x
    ensures x - 1 <= a / 256 + b / 256 <= x
  {
    var qa, ra := a / 256, a % 256;
    var qb, rb := b / 256, b % 256;
    assert 256 * (qa + qb) + ra + rb == 256 * x;
  }

  /** A channel whose previous sample is far from its current one still
      yields the current sample at weight 0, where the previous one is
      meant. */
  lemma InterpolateIgnoresPrev(c: Channel)
    requires c.regsA[WaveDataReg] == 0x8000 + 1000 && c.regsA[PrevWaveDataReg] == 0x8000
    ensures InterpolateAsWritten(c, 0) == 1000
    ensures Interpolate(c, 0) == 0
  {
  }

  /** The corrected interpolation: from `prevWaveData` at weight 0 to
      `waveData` at weight 256. */
  function Interpolate(c: Channel, lerp: int): (x: int)
    ensures lerp == 0 ==> x == SampleOf(c.regsA[PrevWaveDataReg])
    ensures lerp == 256 ==> x == SampleOf(c.regsA[WaveDataReg])
  {
    Lerp(SampleOf(c.regsA[PrevWaveDataReg]), SampleOf(c.regsA[WaveDataReg]), lerp)
  }

  /** For a weight in [0, 256] the corrected interpolation lies between the
      two samples, up to one for the rounding. */
  lemma InterpolateBetween(c: Channel, lerp: int)
    requires 0 <= lerp <= 256
    ensures var p := SampleOf(c.regsA[PrevWaveDataReg]);
      var q := SampleOf(c.regsA[WaveDataReg]);
      var x := Interpolate(c, lerp);
      (if p < q then p else q) - 1 <= x <= (if p < q then q else p)
  {
    LerpBetween(SampleOf(c.regsA[PrevWaveDataReg]), SampleOf(c.regsA[WaveDataReg]), lerp);
  }

  lemma LerpBetween(p: int, q: int, lerp: int)
    requires 0 <= lerp <= 256
    ensures var x := Lerp(p, q, lerp);
      (if p < q then p else q) - 1 <= x <= (if p < q then q else p)
  {
    var lo := if p < q then p else q;
    var hi := if p < q then q else p;
    MulBetween(p, lo, hi, 256 - lerp);
    MulBetween(q, lo, hi, lerp);
    assert lo * (256 - lerp) + lo * lerp == lo * 256;
    assert hi * (256 - lerp) + hi * lerp == hi * 256;
    FloorBounds(p * (256 - lerp), q * lerp, lo * 256, hi * 256);
  }

  lemma MulBetween(v: int, lo: int, hi: int, w: int)
    requires lo <= v <= hi && w >= 0
    ensures lo * w <= v * w <= hi * w
  {
  }

  /** Two floors of a sum of multiples of 256's bounds: the sum of the
      floors is the floor of the sum, or one less. */
  lemma FloorBounds(a: int, b: int, lo: int, hi: int)
    requires lo <= a + b <= hi && lo % 256 == 0 && hi % 256 == 0
    ensures lo / 256 - 1 <= a / 256 + b / 256 <= hi / 256
  {
    FloorSum(a, b);
    FloorMono(lo, a + b);
    FloorMono(a + b, hi);
  }

  lemma FloorSum(a: int, b: int)
    ensures (a + b) / 256 - 1 <= a / 256 + b / 256 <= (a + b) / 256
  {
    var qa, ra := a / 256, a % 256;
    var qb, rb := b / 256, b % 256;
    assert a + b == 256 * (qa + qb) + (ra + rb);
    assert 0 <= ra + rb < 512;
    if ra + rb < 256 {
      assert (a + b) / 256 == qa + qb;
    } else {
      assert a + b == 256 * (qa + qb + 1) + (ra + rb - 256);
      assert (a + b) / 256 == qa + qb + 1;
    }
  }

  lemma FloorMono(x: int, y: int)
    requires x <= y
    ensures x / 256 <= y / 256
  {
    var qx, rx := x / 256, x % 256;
    var qy, ry := y / 256, y % 256;
    assert 256 * qx + rx <= 256 * qy + ry;
  }

  /** Line 312: the sample scaled by the 8-bit amplitude, 128 being unity. */
  function Scaled(sample: int, amp: Word): int
  {
    Asr(sample * amp as int, 7)
  }

  /** A 16-bit sample (or one below, as the interpolation can round to)
      scaled by any amplitude stays within 17 bits. */
  lemma ScaledBound(sample: int, amp: Word)
    requires -32769 <= sample <= 32767 && amp < 256
    ensures -65282 <= Scaled(sample, amp) <= 65278
  {
    var a := amp as int;
    MulBetween(sample, -32769, 32767, a);
    MulBetween(a, 0, 255, 32769);
    MulBetween(a, 0, 255, 32767);
  }

  // ---- the pan law (lines 316-326)

  /** The left and right weights for a pan and volume. */
  datatype Weights = Weights(left: int, right: int)

  /** The pan law of lines 320-326 for a `panVol` register. */
  function PanWeights(panVol: Word): Weights
  {
    Law(Pan(panVol) as int, Vol(panVol) as int)
  }

  /** The nearer side always gets the full `127 * vol` and the other side
      at most that; both weights are non-negative. */
  lemma PanLouderSide(panVol: Word)
    ensures var w := PanWeights(panVol);
      var full := 127 * Vol(panVol) as int;
      && 0 <= w.left <= full && 0 <= w.right <= full
      && (Pan(panVol) as int < 0x40 ==> w.left == full)
      && (Pan(panVol) as int >= 0x40 ==> w.right == full)
  {
    LawLouderSide(Pan(panVol) as int, Vol(panVol) as int);
  }

  lemma LawLouderSide(p: int, vol: int)
    requires 0 <= p < 128 && 0 <= vol < 128
    ensures var w := Law(p, vol);
      && 0 <= w.left <= 127 * vol && 0 <= w.right <= 127 * vol
      && (p < 0x40 ==> w.left == 127 * vol)
      && (p >= 0x40 ==> w.right == 127 * vol)
  {
    if p < 0x40 {
      MulBetween(p * 2, 0, 127, vol);
    } else {
      MulBetween((127 - p) * 2, 0, 127, vol);
    }
  }

  /** Mirroring the pan (`127 - pan`) swaps the two weights. */
  lemma PanMirror(p: int, vol: int)
    requires 0 <= p < 128 && 0 <= vol < 128
    ensures Law(127 - p, vol) == Weights(Law(p, vol).right, Law(p, vol).left)
  {
  }

  /** The pan law on plain numbers. */
  function Law(pan: int, vol: int): Weights
  {
    if pan < 0x40 then Weights(127 * vol, pan * 2 * vol)
    else Weights((127 - pan) * 2 * vol, 127 * vol)
  }

  /** Moving the pan to the right never lowers the right weight nor raises
      the left one. */
  lemma PanMonotone(p: int, q: int, vol: int)
    requires 0 <= p <= q < 128 && 0 <= vol < 128
    ensures Law(p, vol).right <= Law(q, vol).right
    ensures Law(q, vol).left <= Law(p, vol).left
  {
    LawLouderSide(p, vol);
    LawLouderSide(q, vol);
    if q < 0x40 {
      MulBetween(p * 2, 0, q * 2, vol);
    } else if p >= 0x40 {
      MulBetween((127 - q) * 2, 0, (127 - p) * 2, vol);
    }
  }
}
