/** One output sample of the unit: the per-channel path of `SPU_TickChannel`
    (src/core/spu.c:298-364) — decode, interpolation, envelope scaling, the
    pan law, and then the ramp-down or envelope countdown — and the frame of
    `SPU_Tick` (src/core/spu.c:125-178) that drains the sample counter,
    forwards the channel IRQ and mixes the enabled channels. */
module Mixer {
  import opened Bits
  import opened Masks
  import opened Layout
  import opened SpuState
  import opened Decoder
  import opened Envelope
  import opened Voice

  // ---- the ramp-down (lines 331-353)

  /** Lines 336-339 on `uint8_t`: the amplitude less the ramp-down offset,
      with a wrapped result replaced by 0. */
  function RampDownValue(prev: int, offset: int): (v: int)
    requires 0 <= prev < 256 && 0 <= offset < 128
    ensures v == if prev > offset then prev - offset else 0
  {
    var curr := (prev - offset) % 256;
    if curr > prev then 0 else curr
  }

  /** Lines 344-348: the channel's enable, status, ramp-down and tone-release
      bits are cleared and its stop bit is set. Unlike `SPU_StopChannel`,
      the decoder state is left alone. */
  function Silence(s: State, ch: Chan): State
  {
    s.(regs := s.regs[EnableReg := Clear(s.regs[EnableReg], ch)]
                     [StatReg := Clear(s.regs[StatReg], ch)]
                     [StopReg := Set(s.regs[StopReg], ch)]
                     [RampDownReg := Clear(s.regs[RampDownReg], ch)]
                     [ToneReleaseReg := Clear(s.regs[ToneReleaseReg], ch)])
  }

  /** Silencing touches the five masks at bit `ch` only and nothing else. */
  lemma SilenceBits(s: State, ch: Chan)
    ensures var r := Silence(s, ch);
      && (forall j: Chan :: Has(r.regs[EnableReg], j) <==> j != ch && Has(s.regs[EnableReg], j))
      && (forall j: Chan :: Has(r.regs[StatReg], j) <==> j != ch && Has(s.regs[StatReg], j))
      && (forall j: Chan :: Has(r.regs[RampDownReg], j) <==> j != ch && Has(s.regs[RampDownReg], j))
      && (forall j: Chan :: Has(r.regs[ToneReleaseReg], j) <==> j != ch && Has(s.regs[ToneReleaseReg], j))
      && (forall j: Chan :: Has(r.regs[StopReg], j) <==> j == ch || Has(s.regs[StopReg], j))
      && (forall k :: 0 <= k < 32 && k != EnableReg && k != StatReg && k != StopReg && k != RampDownReg && k != ToneReleaseReg ==> r.regs[k] == s.regs[k])
      && r.(regs := s.regs) == s
  {
    ClearBits(s.regs[EnableReg], ch);
    ClearBits(s.regs[StatReg], ch);
    SetBits(s.regs[StopReg], ch);
    ClearBits(s.regs[RampDownReg], ch);
    ClearBits(s.regs[ToneReleaseReg], ch);
  }

  /** The ramp-down countdown after the decrement of lines 332-333. */
  function CountedFrames(n: nat): nat
  {
    if n > 0 then n - 1 else 0
  }

  /** The amplitude lines 336-339 compute for channel `c`. */
  function RampDownLevel(c: Channel): (v: int)
    ensures 0 <= v < 256
  {
    RampDownValue(Amplitude(c.regsA[EnvDataReg]) as int, RampDownOffset(c.regsA[EnvLoopCtrlReg]) as int)
  }

  /** Line 352: the countdown reload for the channel's ramp-down clock. */
  function RampDownReload(c: Channel): nat
  {
    RampDownFrames[RampDownClock(c.regsB[RampDownClockReg])]
  }

  /** The channel after a ramp-down step that keeps it audible. */
  function Decayed(c: Channel): Channel
  {
    c.(regsA := c.regsA[EnvDataReg := WithAmplitude(c.regsA[EnvDataReg], RampDownLevel(c) as Word)],
       rampDownFrame := RampDownReload(c))
  }

  /** Whether this frame's ramp-down step ends the channel: the countdown
      reaches 0 and the offset would take the amplitude to 0 or below. */
  predicate RampDownEndsHere(c: Channel)
  {
    CountedFrames(c.rampDownFrame) == 0 && RampDownLevel(c) == 0
  }

  /** The channel record after one frame of the ramp-down. */
  function RampDownChannel(c: Channel): Channel
  {
    var n := CountedFrames(c.rampDownFrame);
    if n != 0 then c.(rampDownFrame := n)
    else if RampDownLevel(c) > 0 then Decayed(c)
    else c.(rampDownFrame := RampDownReload(c))
  }

  /** One frame of the ramp-down: the countdown runs; at 0 the amplitude
      drops by the offset, or the channel is silenced when it would reach 0,
      and the countdown is reloaded from the ramp-down table. */
  function RampDown(s: State, ch: Chan): State
  {
    var c := s.channels[ch];
    WithChannel(if RampDownEndsHere(c) then Silence(s, ch) else s, ch, RampDownChannel(c))
  }

  /** While the countdown is above 1 only the countdown changes. */
  lemma RampDownWaits(s: State, ch: Chan)
    requires s.channels[ch].rampDownFrame > 1
    ensures var c := s.channels[ch];
      RampDown(s, ch) == WithChannel(s, ch, c.(rampDownFrame := c.rampDownFrame - 1))
  {
  }

  /** When the countdown reaches 0 and the amplitude exceeds the offset,
      the amplitude drops by the offset, the countdown is reloaded from the
      table, and nothing else changes. */
  lemma RampDownDecays(s: State, ch: Chan)
    requires var c := s.channels[ch];
      c.rampDownFrame <= 1 && Amplitude(c.regsA[EnvDataReg]) as int > RampDownOffset(c.regsA[EnvLoopCtrlReg]) as int
    ensures var c := s.channels[ch];
      var r := RampDown(s, ch);
      var d := r.channels[ch].regsA[EnvDataReg];
      && Amplitude(d) as int == Amplitude(c.regsA[EnvDataReg]) as int - RampDownOffset(c.regsA[EnvLoopCtrlReg]) as int
      && EnvCount(d) == EnvCount(c.regsA[EnvDataReg])
      && r.channels[ch].rampDownFrame == RampDownFrames[RampDownClock(c.regsB[RampDownClockReg])]
      && r == WithChannel(s, ch, c.(regsA := c.regsA[EnvDataReg := d], rampDownFrame := r.channels[ch].rampDownFrame))
  {
    var c := s.channels[ch];
    assert RampDownChannel(c) == Decayed(c);
    AmplitudeStored(c.regsA[EnvDataReg], RampDownLevel(c));
  }

  /** When the countdown reaches 0 and the offset would take the amplitude
      to 0 or below, the amplitude is left as it was, the channel is
      silenced, and the countdown is still reloaded. */
  lemma RampDownEnds(s: State, ch: Chan)
    requires var c := s.channels[ch];
      c.rampDownFrame <= 1 && Amplitude(c.regsA[EnvDataReg]) as int <= RampDownOffset(c.regsA[EnvLoopCtrlReg]) as int
    ensures var c := s.channels[ch];
      var r := RampDown(s, ch);
      && r == WithChannel(Silence(s, ch), ch, c.(rampDownFrame := RampDownFrames[RampDownClock(c.regsB[RampDownClockReg])]))
      && r.channels[ch].regsA == c.regsA
  {
  }

  // ---- the envelope countdown (lines 354-363)

  /** One frame of the envelope countdown: at 0 the envelope engine runs
      and the countdown is reloaded for the channel's envelope clock. */
  function EnvelopeTimer(s: State, ch: Chan, mem: Memory): State
  {
    var c := s.channels[ch];
    var n := CountedFrames(c.envelopeFrame);
    if n != 0 then WithChannel(s, ch, c.(envelopeFrame := n))
    else Reloaded(TickEnvelope(WithChannel(s, ch, c.(envelopeFrame := 0)), ch, mem), ch)
  }

  /** Line 362: the countdown reloaded for the channel's envelope clock. */
  function Reloaded(t: State, ch: Chan): State
  {
    WithChannel(t, ch, t.channels[ch].(envelopeFrame := EnvelopeFrames[EnvelopeClock(t, ch)]))
  }

  /** While the countdown is above 1 only the countdown changes. */
  lemma EnvelopeTimerWaits(s: State, ch: Chan, mem: Memory)
    requires s.channels[ch].envelopeFrame > 1
    ensures var c := s.channels[ch];
      EnvelopeTimer(s, ch, mem) == WithChannel(s, ch, c.(envelopeFrame := c.envelopeFrame - 1))
  {
  }

  /** When the countdown reaches 0 the envelope engine runs once and the
      countdown is reloaded with the period of the channel's envelope clock,
      which the engine does not change. */
  lemma EnvelopeTimerFires(s: State, ch: Chan, mem: Memory)
    requires s.channels[ch].envelopeFrame <= 1
    ensures var c := s.channels[ch];
      var t := TickEnvelope(WithChannel(s, ch, c.(envelopeFrame := 0)), ch, mem);
      var r := EnvelopeTimer(s, ch, mem);
      && r.channels[ch].envelopeFrame == EnvelopeFrames[EnvelopeClock(s, ch)]
      && r.channels[ch].(envelopeFrame := 0) == t.channels[ch]
      && r.regs == t.regs
  {
    var c := s.channels[ch];
    var s0 := WithChannel(s, ch, c.(envelopeFrame := 0));
    var t := TickEnvelope(s0, ch, mem);
    assert EnvelopeTimer(s, ch, mem) == Reloaded(t, ch);
    EnvelopeFrame(s0, ch, mem);
    EnvelopeKeepsTimers(s0, ch, mem);
    ClockKept(s0, t, ch);
    assert EnvelopeClock(s0, ch) == EnvelopeClock(s, ch);
  }

  /** A frame leaves the envelope clock registers alone. */
  lemma ClockKept(s: State, t: State, ch: Chan)
    requires t.regs == s.regs || t.regs == Stop(s, ch).regs
    ensures EnvelopeClock(t, ch) == EnvelopeClock(s, ch)
  {
  }

  // ---- one channel (lines 298-364)

  /** What a tick leaves of the rest of the unit: the other channel records
      and the scalar fields. */
  ghost predicate ChannelFrame(r: State, s: State, ch: Chan)
  {
    && (forall j: Chan :: j != ch ==> r.channels[j] == s.channels[j])
    && r.(regs := s.regs, channels := s.channels) == s
  }

  /** A unit state and the stereo pair a channel or the mix contributes. */
  datatype Output = Output(s: State, left: int, right: int)

  /** The channel's scaled sample after decoding (lines 302-312): the
      interpolation as written applies unless bit 9 of `ctrl` is set. */
  function ChannelSample(t: State, ch: Chan, lerp: int): int
  {
    var c := t.channels[ch];
    var x := if t.regs[CtrlReg] & 0x200 == 0 then InterpolateAsWritten(c, lerp) else SampleOf(c.regsA[WaveDataReg]);
    Scaled(x, Amplitude(c.regsA[EnvDataReg]))
  }

  /** The frame update of lines 331-364: the ramp-down if the channel's
      ramp-down bit is set, otherwise the envelope countdown unless its
      env-mode bit is set. */
  function FrameUpdate(t: State, ch: Chan, mem: Memory): State
  {
    if Has(t.regs[RampDownReg], ch) then RampDown(t, ch)
    else if !Has(t.regs[EnvModeReg], ch) then EnvelopeTimer(t, ch, mem)
    else t
  }

  /** `SPU_TickChannel` with the decode step count and the interpolation
      weight as inputs: decode, scale, pan, then the frame update. */
  function TickChannel(s: State, ch: Chan, steps: nat, lerp: int, mem: Memory): Output
    requires ChannelValid(s.channels[ch])
  {
    var t := TickSample(s, ch, steps, mem);
    var v := ChannelSample(t, ch, lerp);
    var w := PanWeights(t.channels[ch].regsA[PanVolReg]);
    Output(FrameUpdate(t, ch, mem), v * w.left, v * w.right)
  }

  /** The largest output magnitude one channel can produce: a sample of
      17 bits times the largest pan weight `127 * 127`. */
  const MaxOut: int := 65282 * 16129

  /** Whatever the interpolation weight, the scaled sample stays within
      17 bits. */
  lemma ChannelSampleBound(t: State, ch: Chan, lerp: int)
    ensures -65282 <= ChannelSample(t, ch, lerp) <= 65282
  {
    var c := t.channels[ch];
    InterpolateAsWrittenFlat(c, lerp);
    var x := if t.regs[CtrlReg] & 0x200 == 0 then InterpolateAsWritten(c, lerp) else SampleOf(c.regsA[WaveDataReg]);
    ScaledBound(x, Amplitude(c.regsA[EnvDataReg]));
  }

  /** Whatever the interpolation weight, a channel's output is within
      `MaxOut` on each side. */
  lemma ChannelOutputBound(s: State, ch: Chan, steps: nat, lerp: int, mem: Memory)
    requires ChannelValid(s.channels[ch])
    ensures var o := TickChannel(s, ch, steps, lerp, mem);
      -MaxOut <= o.left <= MaxOut && -MaxOut <= o.right <= MaxOut
  {
    var t := TickSample(s, ch, steps, mem);
    var v := ChannelSample(t, ch, lerp);
    var panVol := t.channels[ch].regsA[PanVolReg];
    var w := PanWeights(panVol);
    ChannelSampleBound(t, ch, lerp);
    LawLouderSide(Pan(panVol) as int, Vol(panVol) as int);
    MulBetween(Vol(panVol) as int, 0, 127, 127);
    ProductBound(v, w.left);
    ProductBound(v, w.right);
  }

  lemma ProductBound(v: int, w: int)
    requires -65282 <= v <= 65282 && 0 <= w <= 127 * 127
    ensures -MaxOut <= v * w <= MaxOut
  {
    MulBetween(v, -65282, 65282, w);
    MulBetween(w, 0, 127 * 127, 65282);
  }

  /** The ramp-down does not touch the envelope program or its countdown. */
  lemma RampDownKeepsEnvelope(t: State, ch: Chan)
    ensures var c := t.channels[ch];
      var c' := RampDown(t, ch).channels[ch];
      && c'.regsA[Env0Reg] == c.regsA[Env0Reg] && c'.regsA[Env1Reg] == c.regsA[Env1Reg]
      && c'.regsA[EnvLoopCtrlReg] == c.regsA[EnvLoopCtrlReg]
      && c'.regsA[EnvAddrReg] == c.regsA[EnvAddrReg] && c'.regsA[EnvAddrHighReg] == c.regsA[EnvAddrHighReg]
      && c'.envelopeFrame == c.envelopeFrame
  {
    RampDownShape(t.channels[ch]);
  }

  /** The ramp-down rewrites at most the envelope data word and the
      ramp-down countdown of the channel. */
  lemma RampDownShape(c: Channel)
    ensures var c' := RampDownChannel(c);
      c' == c.(regsA := c.regsA[EnvDataReg := c'.regsA[EnvDataReg]], rampDownFrame := c'.rampDownFrame)
  {
  }

  /** With the ramp-down bit set after decoding, the envelope program and
      its countdown are not touched. */
  lemma RampDownExcludesEnvelope(s: State, ch: Chan, steps: nat, lerp: int, mem: Memory)
    requires ChannelValid(s.channels[ch])
    requires Has(TickSample(s, ch, steps, mem).regs[RampDownReg], ch)
    ensures var t := TickSample(s, ch, steps, mem);
      var c := t.channels[ch];
      var c' := TickChannel(s, ch, steps, lerp, mem).s.channels[ch];
      && c'.regsA[Env0Reg] == c.regsA[Env0Reg] && c'.regsA[Env1Reg] == c.regsA[Env1Reg]
      && c'.regsA[EnvLoopCtrlReg] == c.regsA[EnvLoopCtrlReg]
      && c'.regsA[EnvAddrReg] == c.regsA[EnvAddrReg] && c'.regsA[EnvAddrHighReg] == c.regsA[EnvAddrHighReg]
      && c'.envelopeFrame == c.envelopeFrame
  {
    var t := TickSample(s, ch, steps, mem);
    assert TickChannel(s, ch, steps, lerp, mem).s == RampDown(t, ch);
    RampDownKeepsEnvelope(t, ch);
  }

  lemma RampDownFrame(t: State, ch: Chan)
    ensures ChannelFrame(RampDown(t, ch), t, ch)
    ensures ChannelValid(t.channels[ch]) ==> ChannelValid(RampDown(t, ch).channels[ch])
  {
    RampDownShape(t.channels[ch]);
  }

  lemma EnvelopeTimerFrame(t: State, ch: Chan, mem: Memory)
    ensures ChannelFrame(EnvelopeTimer(t, ch, mem), t, ch)
  {
    var c := t.channels[ch];
    if CountedFrames(c.envelopeFrame) == 0 {
      var s0 := WithChannel(t, ch, c.(envelopeFrame := 0));
      var e := TickEnvelope(s0, ch, mem);
      assert EnvelopeTimer(t, ch, mem) == Reloaded(e, ch);
      EnvelopeFrame(s0, ch, mem);
      ReloadedFrame(t, s0, e, ch);
    }
  }

  lemma EnvelopeTimerValid(t: State, ch: Chan, mem: Memory)
    requires ChannelValid(t.channels[ch])
    ensures ChannelValid(EnvelopeTimer(t, ch, mem).channels[ch])
  {
    var c := t.channels[ch];
    if CountedFrames(c.envelopeFrame) == 0 {
      var s0 := WithChannel(t, ch, c.(envelopeFrame := 0));
      var e := TickEnvelope(s0, ch, mem);
      assert EnvelopeTimer(t, ch, mem) == Reloaded(e, ch);
      EnvelopeOwnValid(s0, ch, mem);
    }
  }

  /** Reloading the countdown after a frame of channel `ch` is a frame. */
  lemma ReloadedFrame(t: State, s0: State, e: State, ch: Chan)
    requires s0 == WithChannel(t, ch, t.channels[ch].(envelopeFrame := 0))
    requires StepFrame(e, s0, ch)
    ensures ChannelFrame(Reloaded(e, ch), t, ch)
  {
    WithChannelIsFrame(t, ch, t.channels[ch].(envelopeFrame := 0));
    ChannelFrameChain(t, s0, e, ch);
    WithChannelIsFrame(e, ch, e.channels[ch].(envelopeFrame := EnvelopeFrames[EnvelopeClock(e, ch)]));
    ChannelFrameChain(t, e, Reloaded(e, ch), ch);
  }

  lemma WithChannelIsFrame(s: State, ch: Chan, c: Channel)
    ensures ChannelFrame(WithChannel(s, ch, c), s, ch)
  {
  }

  lemma ChannelFrameChain(a: State, b: State, c: State, ch: Chan)
    requires ChannelFrame(b, a, ch) && ChannelFrame(c, b, ch)
    ensures ChannelFrame(c, a, ch)
  {
  }

  lemma FrameUpdateFrame(t: State, ch: Chan, mem: Memory)
    ensures ChannelFrame(FrameUpdate(t, ch, mem), t, ch)
    ensures ChannelValid(t.channels[ch]) ==> ChannelValid(FrameUpdate(t, ch, mem).channels[ch])
  {
    if Has(t.regs[RampDownReg], ch) {
      RampDownFrame(t, ch);
    } else if !Has(t.regs[EnvModeReg], ch) {
      EnvelopeTimerFrame(t, ch, mem);
      if ChannelValid(t.channels[ch]) {
        EnvelopeTimerValid(t, ch, mem);
      }
    }
  }

  /** A channel tick touches no other channel and no scalar of the unit,
      and keeps the decoder invariant of every channel. */
  lemma TickChannelFrame(s: State, ch: Chan, steps: nat, lerp: int, mem: Memory)
    requires Valid(s)
    ensures var r := TickChannel(s, ch, steps, lerp, mem).s;
      ChannelFrame(r, s, ch) && Valid(r)
  {
    var t := TickSample(s, ch, steps, mem);
    TickSampleFrame(s, ch, steps, mem);
    TickSampleValid(s, ch, steps, mem);
    FrameUpdateFrame(t, ch, mem);
    var r := FrameUpdate(t, ch, mem);
    forall j: Chan ensures ChannelValid(r.channels[j]) {
      if j != ch {
        assert r.channels[j] == t.channels[j];
      }
    }
  }
}
