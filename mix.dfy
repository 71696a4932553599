/** `SPU_Tick` (src/core/spu.c:125-178): the sample counter, the drain of
    the accumulated cycles, the forwarding of the channel IRQ, the mix of
    the enabled channels and the volume-select shift of the mixed pair. */
module Mix {
  import opened Bits
  import opened Masks
  import opened Layout
  import opened SpuState
  import opened Decoder
  import opened Voice
  import opened Mixer

  // ---- the mix (lines 147-162)

  /** Channels 0 to `k - 1` of the mix loop, each ticked if its enable bit
      is set when the loop reaches it: the state after them and the exact
      sums of their outputs (the 32-bit wrap is treated under Findings).
      `steps[i]` and `lerps[i]` are channel `i`'s decode step count and
      interpolation weight. */
  function MixUpTo(s: State, k: nat, steps: seq<nat>, lerps: seq<int>, mem: Memory): (m: Output)
    requires Valid(s) && k <= 16 && |steps| == 16 && |lerps| == 16
    ensures Valid(m.s)
    ensures m.s.(regs := s.regs, channels := s.channels) == s
  {
    if k == 0 then Output(s, 0, 0)
    else
      var p := MixUpTo(s, k - 1, steps, lerps, mem);
      var o := MixChannel(p.s, k - 1, steps[k - 1], lerps[k - 1], mem);
      Output(o.s, p.left + o.left, p.right + o.right)
  }

  /** Pass `k` of the mix loop: channel `k` ticked if its enable bit is set,
      otherwise silence (line 159 only feeds the oscilloscope). */
  function MixChannel(s: State, k: nat, steps: nat, lerp: int, mem: Memory): (o: Output)
    requires Valid(s) && k < 16
    ensures Valid(o.s) && ChannelFrame(o.s, s, ToChan(k))
    ensures !Has(s.regs[EnableReg], ToChan(k)) ==> o == Output(s, 0, 0)
  {
    var ch := ToChan(k);
    if Has(s.regs[EnableReg], ch) then
      TickChannelFrame(s, ch, steps, lerp, mem);
      TickChannel(s, ch, steps, lerp, mem)
    else Output(s, 0, 0)
  }

  /** The most `n` channel outputs can add up to on one side. */
  function Headroom(n: nat): int
  {
    n * MaxOut
  }

  /** Each channel adds at most `MaxOut` to either side, so the mix of the
      first `k` channels stays within `Headroom(k)`. */
  lemma {:induction false} MixBound(s: State, k: nat, steps: seq<nat>, lerps: seq<int>, mem: Memory)
    requires Valid(s) && k <= 16 && |steps| == 16 && |lerps| == 16
    ensures var m := MixUpTo(s, k, steps, lerps, mem);
      && -Headroom(k) <= m.left <= Headroom(k)
      && -Headroom(k) <= m.right <= Headroom(k)
  {
    if k > 0 {
      var p := MixUpTo(s, k - 1, steps, lerps, mem);
      var o := MixChannel(p.s, k - 1, steps[k - 1], lerps[k - 1], mem);
      MixBound(s, k - 1, steps, lerps, mem);
      MixChannelBound(p.s, k - 1, steps[k - 1], lerps[k - 1], mem);
      SumBound(o.left, p.left, k - 1);
      SumBound(o.right, p.right, k - 1);
    }
  }

  /** One more channel's output adds one `MaxOut` of headroom. */
  lemma SumBound(x: int, y: int, n: nat)
    requires -MaxOut <= x <= MaxOut && -Headroom(n) <= y <= Headroom(n)
    ensures -Headroom(n + 1) <= y + x <= Headroom(n + 1)
  {
  }

  lemma MixChannelBound(s: State, k: nat, steps: nat, lerp: int, mem: Memory)
    requires Valid(s) && k < 16
    ensures var o := MixChannel(s, k, steps, lerp, mem);
      -MaxOut <= o.left <= MaxOut && -MaxOut <= o.right <= MaxOut
  {
    if Has(s.regs[EnableReg], ToChan(k)) {
      ChannelOutputBound(s, ToChan(k), steps, lerp, mem);
    }
  }

  /** With every channel disabled the mix is silent and changes nothing. */
  lemma {:induction false} MixSilent(s: State, k: nat, steps: seq<nat>, lerps: seq<int>, mem: Memory)
    requires Valid(s) && k <= 16 && |steps| == 16 && |lerps| == 16
    requires s.regs[EnableReg] == 0
    ensures MixUpTo(s, k, steps, lerps, mem) == Output(s, 0, 0)
  {
    if k > 0 {
      MixSilent(s, k - 1, steps, lerps, mem);
      NoBitSet(ToChan(k - 1));
      assert MixChannel(s, k - 1, steps[k - 1], lerps[k - 1], mem) == Output(s, 0, 0);
    }
  }

  lemma NoBitSet(ch: Chan)
    ensures !Has(0, ch)
  {
  }

  // ---- 32-bit accumulation (lines 147-156)

  /** `int32_t` wrap-around: the value modulo 2^32 in [-2^31, 2^31). */
  function Wrap32(x: int): (r: int)
    ensures -0x8000_0000 <= r < 0x8000_0000
    ensures (r - x) % 0x1_0000_0000 == 0
  {
    (x + 0x8000_0000) % 0x1_0000_0000 - 0x8000_0000
  }

  function Sum(xs: seq<int>): int
  {
    if xs == [] then 0 else xs[0] + Sum(xs[1..])
  }

  /** `acc += x` for each channel output in turn on an `int32_t`
      accumulator, as the loop of lines 147-156 does. */
  function AccumulateAsWritten(acc: int, xs: seq<int>): int
    decreases |xs|
  {
    if xs == [] then acc else AccumulateAsWritten(Wrap32(acc + xs[0]), xs[1..])
  }

  /** The 32-bit accumulator ends at the exact sum wrapped to 32 bits. */
  lemma {:induction false} AccumulateWraps(acc: int, xs: seq<int>)
    requires -0x8000_0000 <= acc < 0x8000_0000
    ensures AccumulateAsWritten(acc, xs) == Wrap32(acc + Sum(xs))
    decreases |xs|
  {
    if xs != [] {
      AccumulateWraps(Wrap32(acc + xs[0]), xs[1..]);
      WrapAgain(acc + xs[0], Sum(xs[1..]));
    }
  }

  lemma WrapAgain(x: int, y: int)
    ensures Wrap32(Wrap32(x) + y) == Wrap32(x + y)
  {
    var w := Wrap32(x);
    var q := (w - x) / 0x1_0000_0000;
    assert w + y == (x + y) + q * 0x1_0000_0000;
    ModShift(x + y + 0x8000_0000, q);
  }

  lemma ModShift(a: int, q: int)
    ensures (a + q * 0x1_0000_0000) % 0x1_0000_0000 == a % 0x1_0000_0000
  {
  }

  /** The largest left output of one channel: the most negative sample at
      full amplitude, full volume and full left pan. */
  const FullScaleLeft: int := -65280 * 16129

  /** Three such channels overflow the 32-bit accumulator: the mix as
      written comes out positive where the exact sum is negative. */
  lemma AccumulateOverflows()
    ensures var xs := [FullScaleLeft, FullScaleLeft, FullScaleLeft];
      Sum(xs) < 0 && AccumulateAsWritten(0, xs) > 0
  {
    var xs := [FullScaleLeft, FullScaleLeft, FullScaleLeft];
    AccumulateWraps(0, xs);
    var t := [FullScaleLeft];
    assert t[1..] == [] && Sum(t) == FullScaleLeft;
    var u := [FullScaleLeft, FullScaleLeft];
    assert u[1..] == t && Sum(u) == 2 * FullScaleLeft;
    assert xs[1..] == u;
  }

  /** A channel reaches `FullScaleLeft`: a stored word of 0 (the most
      negative sample) played without interpolation at amplitude 255, with
      volume 127 and pan 0. */
  lemma FullScaleChannel(s: State, ch: Chan, lerp: int, mem: Memory)
    requires ChannelValid(s.channels[ch])
    requires s.channels[ch].regsA[WaveDataReg] == 0 && s.regs[CtrlReg] & 0x200 != 0
    requires Amplitude(s.channels[ch].regsA[EnvDataReg]) == 255
    requires Pan(s.channels[ch].regsA[PanVolReg]) == 0 && Vol(s.channels[ch].regsA[PanVolReg]) == 127
    ensures TickChannel(s, ch, 0, lerp, mem).left == FullScaleLeft
  {
    var t := TickSample(s, ch, 0, mem);
    assert t == WithChannel(s, ch, SavePrev(s.channels[ch]));
    assert ChannelSample(t, ch, lerp) == -65280;
  }

  // ---- the volume select (lines 164-174)

  /** The shift of lines 164-174 as written: selector 0 shifts both sides
      by 10; selectors 1 to 3 shift the left side by 8 twice and leave the
      right side alone. */
  function VolumeAsWritten(select: Word, left: int, right: int): (int, int)
  {
    if (select >> 6) & 3 == 0 then (Asr(left, 10), Asr(right, 10))
    else (Asr(Asr(left, 8), 8), right)
  }

  /** As written, selectors 1 to 3 divide the left side by 2^16 and pass
      the right side through unscaled. */
  lemma VolumeAsWrittenLopsided(select: Word, left: int, right: int)
    requires (select >> 6) & 3 != 0
    ensures VolumeAsWritten(select, left, right) == (left / 65536, right)
  {
    DivDiv(left, 256, 256);
  }

  /** Equal sides come out unequal as written: 65536 on both sides with
      selector 1 gives 1 on the left and 65536 on the right. */
  lemma VolumeAsWrittenUnequal()
    ensures VolumeAsWritten(0x40, 65536, 65536) == (1, 65536)
  {
    assert (0x40 as Word >> 6) & 3 == 1;
  }

  lemma DivDiv(x: int, a: int, b: int)
    requires a > 0 && b > 0
    ensures x / a / b == x / (a * b)
  {
    var q := x / a / b;
    var r1 := x % a;
    var r2 := (x / a) % b;
    assert x == (q * b + r2) * a + r1;
    assert x == q * (a * b) + (r2 * a + r1);
    assert 0 <= r2 * a + r1 < a * b by {
      assert r2 * a <= (b - 1) * a;
    }
    DivUnique(x, a * b, q, r2 * a + r1);
  }

  lemma DivUnique(x: int, d: int, q: int, r: int)
    requires d > 0 && x == q * d + r && 0 <= r < d
    ensures x / d == q
  {
    var q0, r0 := x / d, x % d;
    assert (q - q0) * d == r0 - r;
    if q > q0 {
      MulBetween(q - q0, 1, q - q0, d);
    } else if q < q0 {
      MulBetween(q0 - q, 1, q0 - q, d);
    }
  }

  /** The evidently intended shift: both sides by 10 for selector 0 and by
      8 otherwise. */
  function Volume(select: Word, left: int, right: int): (int, int)
  {
    var k := if (select >> 6) & 3 == 0 then 10 else 8;
    (Asr(left, k), Asr(right, k))
  }

  /** The intended shift treats the two sides alike: swapping the inputs
      swaps the outputs, and the scale is 2^10 or 2^8 by the selector. */
  lemma VolumeSymmetric(select: Word, left: int, right: int)
    ensures Volume(select, right, left) == (Volume(select, left, right).1, Volume(select, left, right).0)
    ensures (select >> 6) & 3 == 0 ==> Volume(select, left, right) == (left / 1024, right / 1024)
    ensures (select >> 6) & 3 != 0 ==> Volume(select, left, right) == (left / 256, right / 256)
  {
  }

  // ---- the sample counter (lines 125-140)

  /** The drain loop of lines 135-140: the period is taken off until the
      count is no longer positive. */
  function Drained(acc: int, period: nat): (r: int)
    requires period > 0
    ensures acc <= 0 ==> r == acc
    ensures acc > 0 ==> -(period as int) < r <= 0
    ensures r == acc - Rounds(acc, period) * period
    decreases if acc > 0 then acc else 0
  {
    if acc <= 0 then acc
    else Drained(acc - period, period)
  }

  /** How many passes the drain loop makes. */
  function Rounds(acc: int, period: nat): nat
    requires period > 0
    decreases if acc > 0 then acc else 0
  {
    if acc <= 0 then 0 else 1 + Rounds(acc - period, period)
  }

  /** What a call of `SPU_Tick` produces: nothing while the sample counter
      runs, or one stereo sample. */
  datatype TickResult = Waiting(s: State) | Sampled(s: State, left: int, right: int)

  /** `SPU_Tick(cycles)` with the sample period `SPU_SAMPLE_TIMER` as the
      input `period`, and the per-channel decode step counts and
      interpolation weights as inputs. The FIQ raised for a pending channel
      IRQ is counted in `fiqRequests`. The volume shift is the one as
      written. */
  function Tick(s: State, cycles: int, period: nat, steps: seq<nat>, lerps: seq<int>, mem: Memory): TickResult
    requires Valid(s) && period > 0 && |steps| == 16 && |lerps| == 16
  {
    if s.sampleTimer > 0 then
      Waiting(s.(sampleTimer := s.sampleTimer - cycles, accumulatedSamples := s.accumulatedSamples + cycles))
    else
      var r := Ready(s, period);
      var m := MixUpTo(r, |r.channels|, steps, lerps, mem);
      var out := VolumeAsWritten(m.s.regs[VolumeSelectReg], m.left, m.right);
      Sampled(m.s, out.0, out.1)
  }

  /** The state a sample is mixed from: the counter pushed on by one period,
      the accumulator drained, and a pending channel IRQ turned into a FIQ. */
  function Ready(s: State, period: nat): (r: State)
    requires Valid(s) && period > 0
    ensures Valid(r)
  {
    var s1 := s.(sampleTimer := s.sampleTimer + period,
                 accumulatedSamples := Drained(s.accumulatedSamples, period));
    if s1.channelIrq then s1.(fiqRequests := s1.fiqRequests + 1, channelIrq := false) else s1
  }

  /** While the sample counter is positive, the cycles move from the
      counter to the accumulator (their sum is kept) and nothing else
      changes. */
  lemma TickWaits(s: State, cycles: int, period: nat, steps: seq<nat>, lerps: seq<int>, mem: Memory)
    requires Valid(s) && period > 0 && |steps| == 16 && |lerps| == 16
    requires s.sampleTimer > 0
    ensures var r := Tick(s, cycles, period, steps, lerps, mem);
      && r.Waiting?
      && r.s.sampleTimer + r.s.accumulatedSamples == s.sampleTimer + s.accumulatedSamples
      && r.s.sampleTimer == s.sampleTimer - cycles
      && r.s.(sampleTimer := s.sampleTimer, accumulatedSamples := s.accumulatedSamples) == s
  {
  }

  /** Once the counter has run out, the call produces a sample: the counter
      is pushed on by one period, the accumulated cycles are drained to
      within one period below zero, a pending channel IRQ becomes exactly
      one FIQ and is cleared, and the invariant of every channel holds. */
  lemma TickSamples(s: State, cycles: int, period: nat, steps: seq<nat>, lerps: seq<int>, mem: Memory)
    requires Valid(s) && period > 0 && |steps| == 16 && |lerps| == 16
    requires s.sampleTimer <= 0
    ensures var r := Tick(s, cycles, period, steps, lerps, mem);
      && r.Sampled?
      && r.s.sampleTimer == s.sampleTimer + period
      && (s.accumulatedSamples > 0 ==> -(period as int) < r.s.accumulatedSamples <= 0)
      && (s.accumulatedSamples <= 0 ==> r.s.accumulatedSamples == s.accumulatedSamples)
      && r.s.accumulatedSamples == s.accumulatedSamples - Rounds(s.accumulatedSamples, period) * period
      && !r.s.channelIrq
      && r.s.fiqRequests == s.fiqRequests + (if s.channelIrq then 1 else 0)
      && r.s.irqRequests == s.irqRequests && r.s.irq == s.irq
      && Valid(r.s)
  {
  }

  /** With no channel enabled a sample is silence. */
  lemma TickSilent(s: State, cycles: int, period: nat, steps: seq<nat>, lerps: seq<int>, mem: Memory)
    requires Valid(s) && period > 0 && |steps| == 16 && |lerps| == 16
    requires s.sampleTimer <= 0 && s.regs[EnableReg] == 0
    ensures Tick(s, cycles, period, steps, lerps, mem).Sampled?
    ensures Tick(s, cycles, period, steps, lerps, mem).left == 0
    ensures Tick(s, cycles, period, steps, lerps, mem).right == 0
  {
    var r := Ready(s, period);
    MixSilent(r, |r.channels|, steps, lerps, mem);
    VolumeOfSilence(r.regs[VolumeSelectReg]);
  }

  /** Both the shift as written and the corrected one keep silence silent. */
  lemma VolumeOfSilence(select: Word)
    ensures VolumeAsWritten(select, 0, 0) == (0, 0)
    ensures Volume(select, 0, 0) == (0, 0)
  {
  }
}
