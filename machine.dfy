/** The sound unit as the C code keeps it: one record whose global register
    block and channel table are updated in place by the register writes,
    the decode loops, the envelope and the sample tick. Every method is
    proved to leave the unit in the state the functions of modules
    SpuState, Registers, Decoder, Envelope, Mixer and Mix compute from the
    state before the call; the properties of those functions are proved
    there. */
module Machine {
  import opened Bits
  import opened Masks
  import opened Layout
  import opened SpuState
  import opened Registers
  import opened Decoder
  import opened Envelope
  import opened Voice
  import opened Mixer
  import opened Mix

  class Spu {
    /** `regs4`: the 32 global registers. */
    const regs: array<Word>
    /** The 16 channel records. */
    const channels: array<Channel>
    var channelIrq: bool
    var irq: bool
    var currBeatBase: Word
    var sampleTimer: int
    var accumulatedSamples: int
    /** Calls of `CPU_TriggerFIQ` and `CPU_ActivatePendingIRQs`. */
    var fiqRequests: nat
    var irqRequests: nat

    ghost predicate Inv()
      reads this
    {
      regs.Length == 32 && channels.Length == 16
    }

    /** The unit as a value. */
    ghost function Abs(): State
      requires Inv()
      reads this, regs, channels
    {
      State(regs[..], channels[..], channelIrq, irq, currBeatBase, sampleTimer, accumulatedSamples, fiqRequests, irqRequests)
    }

    ghost predicate Valid()
      reads this, regs, channels
    {
      Inv() && SpuState.Valid(Abs())
    }

    /** Stores channel record `c` in slot `ch`. */
    method SetChannel(ch: Chan, c: Channel)
      requires Inv()
      modifies channels
      ensures Inv() && Abs() == WithChannel(old(Abs()), ch, c)
    {
      channels[ch] := c;
      assert channels[..] == old(channels[..])[ch := c];
    }

    /** `SPU_Init`: every register and record cleared, the sample counter
        loaded with one period. */
    constructor (period: int)
      ensures Valid() && Abs() == Initial(period)
      ensures fresh(regs) && fresh(channels)
    {
      regs := new Word[32](_ => 0);
      channels := new Channel[16](_ => Silent);
      channelIrq, irq, currBeatBase := false, false, 0;
      sampleTimer, accumulatedSamples := period, 0;
      fiqRequests, irqRequests := 0, 0;
      new;
      assert regs[..] == seq(32, _ => 0);
      assert channels[..] == seq(16, _ => Silent);
    }

    // ---- registers (src/core/spu.c:491-616)

    /** `SPU_Read`. */
    method Read(addr: Word) returns (v: Word)
      requires Inv()
      ensures v == Registers.Read(Abs(), addr)
    {
      match Decode(addr)
      case RegA(ch, reg) => v := channels[ch].regsA[reg];
      case RegB(ch, reg) => v := channels[ch].regsB[reg];
      case Glob(reg) => v := regs[reg];
      case Unmapped => v := 0;
    }

    /** `SPU_Write`. */
    method Write(addr: Word, data: Word)
      requires Valid()
      modifies this, regs, channels
      ensures Valid() && Abs() == Registers.Write(old(Abs()), addr, data)
    {
      ghost var s := Abs();
      WriteValid(s, Decode(addr), data);
      match Decode(addr)
      case RegA(ch, reg) => WriteChannelA(ch, reg, data);
      case RegB(ch, reg) => WriteChannelB(ch, reg, data);
      case Glob(reg) => WriteGlobal(reg, data);
      case Unmapped =>
    }

    /** Lines 559-573: a block A register; the wave address and the mode
        also reset the phase accumulator. */
    method WriteChannelA(ch: Chan, reg: nat, data: Word)
      requires Inv() && reg < 16
      modifies channels
      ensures Inv() && Abs() == WriteReg(old(Abs()), RegA(ch, reg), data)
    {
      ghost var s := Abs();
      var c := channels[ch];
      if reg == 0x0 || reg == 0x1 {
        c := c.(accum := 0.0);
      }
      channels[ch] := c.(regsA := c.regsA[reg := data]);
      assert channels[..] == s.channels[ch := WriteA(s.channels[ch], reg, data)];
    }

    /** Lines 575-596: a block B register; the phase registers also reset
        the phase accumulator. */
    method WriteChannelB(ch: Chan, reg: nat, data: Word)
      requires Inv() && reg < 8
      modifies channels
      ensures Inv() && Abs() == WriteReg(old(Abs()), RegB(ch, reg), data)
    {
      ghost var s := Abs();
      var c := channels[ch];
      if reg == 0x0 || reg == 0x4 {
        c := c.(accum := 0.0);
      }
      channels[ch] := c.(regsB := c.regsB[reg := data]);
      assert channels[..] == s.channels[ch := WriteB(s.channels[ch], reg, data)];
    }

    /** Lines 598-614: a global register. */
    method WriteGlobal(reg: nat, data: Word)
      requires Inv() && reg < 32
      modifies this, regs, channels
      ensures Inv() && Abs() == Registers.WriteGlobal(old(Abs()), reg, data)
    {
      ghost var s := Abs();
      if reg == 0x00 {
        EnableChannels(data);
        assert Registers.WriteGlobal(s, reg, data) == SpuState.EnableChannels(s, data);
      } else if reg == 0x03 {
        ClearFiqStat(data);
        assert Registers.WriteGlobal(s, reg, data) == Registers.ClearFiqStat(s, data);
      } else if reg == 0x05 {
        WriteBeatCount(data);
        assert Registers.WriteGlobal(s, reg, data) == SpuState.WriteBeatCount(s, data);
      } else {
        var v := if reg == 0x0b then AndNot(regs[reg], data) else data;
        regs[reg] := v;
        assert regs[..] == s.regs[reg := v];
      }
    }

    /** Lines 603-607: the FIQ status bits written as one are cleared, and
        an empty status drops the pending channel IRQ. */
    method ClearFiqStat(data: Word)
      requires Inv()
      modifies this, regs
      ensures Inv() && Abs() == Registers.ClearFiqStat(old(Abs()), data)
    {
      ghost var s := Abs();
      var v := AndNot(regs[FiqStatReg], data);
      regs[FiqStatReg] := v;
      assert regs[..] == s.regs[FiqStatReg := v];
      if v == 0 {
        channelIrq := false;
      }
    }

    // ---- channel start and stop (src/core/spu.c:619-683)

    /** `SPU_EnableChannels`: every channel whose enable bit changes is
        started or stopped, in channel order, then the mask is stored. */
    method EnableChannels(data: Word)
      requires Inv()
      modifies regs, channels
      ensures Inv() && Abs() == SpuState.EnableChannels(old(Abs()), data)
    {
      ghost var s := Abs();
      var changed := regs[EnableReg] ^ data;
      if changed != 0 {
        var i := 0;
        while i < channels.Length
          invariant 0 <= i <= 16
          invariant Inv() && Abs() == EnableUpTo(s, data, changed, i)
        {
          EnablePass(data, changed, ToChan(i));
          i := i + 1;
        }
        ghost var r := Abs();
        assert r == EnableUpTo(s, data, changed, |s.channels|);
        regs[EnableReg] := data;
        assert regs[..] == r.regs[EnableReg := data];
        EnableChannelsLoop(s, data, r);
      }
    }

    /** One pass of the loop of lines 623-635. */
    method EnablePass(data: Word, changed: Word, ch: Chan)
      requires Inv()
      modifies regs, channels
      ensures Inv() && Abs() == EnableStep(old(Abs()), data, changed, ch)
    {
      if Has(changed, ch) {
        if Has(data, ch) {
          StartChannel(ch);
        } else {
          StopChannel(ch);
        }
      }
    }

    /** `SPU_StartChannel`. */
    method StartChannel(ch: Chan)
      requires Inv()
      modifies regs, channels
      ensures Inv() && Abs() == Start(old(Abs()), ch)
    {
      var c := channels[ch];
      regs[EnableReg] := Set(regs[EnableReg], ch);
      var stopped := Has(regs[StopReg], ch);
      if !stopped {
        regs[StatReg] := Set(regs[StatReg], ch);
        c := c.(adpcm36Remaining := 0, adpcm36Header := 0, adpcm36Prev0 := 0, adpcm36Prev1 := 0);
      }
      channels[ch] := c.(playing := true);
    }

    /** `SPU_StopChannel`. */
    method StopChannel(ch: Chan)
      requires Inv()
      modifies regs, channels
      ensures Inv() && Abs() == Stop(old(Abs()), ch)
    {
      regs[EnableReg] := Clear(regs[EnableReg], ch);
      regs[RampDownReg] := Clear(regs[RampDownReg], ch);
      regs[StatReg] := Clear(regs[StatReg], ch);
      regs[ToneReleaseReg] := Clear(regs[ToneReleaseReg], ch);
      var c := channels[ch];
      channels[ch] := c.(regsA := c.regsA[ModeReg := WithPcmMode(c.regsA[ModeReg], 0)],
                         pcmShift := 0, adpcmLast := 0, adpcmIndex := 0, playing := false);
    }

    // ---- interrupts (src/core/spu.c:478-488, 686-727)

    /** `SPU_TriggerChannelIRQ` without the timer adjustment. */
    method TriggerChannelIrq(ch: Chan)
      requires Inv()
      modifies this, regs
      ensures Inv() && Abs() == SpuState.TriggerChannelIrq(old(Abs()), ch)
    {
      if !Has(regs[FiqEnableReg], ch) {
        regs[FiqStatReg] := Set(regs[FiqStatReg], ch);
        channelIrq := true;
        irqRequests := irqRequests + 1;
      }
    }

    /** `SPU_WriteBeatCount`. */
    method WriteBeatCount(data: Word)
      requires Inv()
      modifies this, regs
      ensures Inv() && Abs() == SpuState.WriteBeatCount(old(Abs()), data)
    {
      ghost var s := Abs();
      var beat := BeatMerge(regs[BeatCountReg], data);
      regs[BeatCountReg] := beat;
      assert regs[..] == s.regs[BeatCountReg := beat];
      if beat & 0xc000 == 0xc000 {
        irq := true;
        irqRequests := irqRequests + 1;
      } else {
        irq := false;
      }
    }

    /** `SPU_TriggerBeatIRQ` without the timer reset. */
    method TriggerBeatIrq()
      requires Inv()
      modifies this, regs
      ensures Inv() && Abs() == SpuState.TriggerBeatIrq(old(Abs()))
    {
      ghost var s := Abs();
      if currBeatBase > 0 {
        currBeatBase := currBeatBase - 1;
      }
      if currBeatBase == 0 {
        currBeatBase := regs[BeatBaseReg];
        var beat := BeatStep(regs[BeatCountReg]);
        regs[BeatCountReg] := beat;
        assert regs[..] == s.regs[BeatCountReg := beat];
        if BeatCount(beat) == 0 {
          if beat & BeatIrqEnableBit != 0 && beat & BeatIrqBit != 0 {
            irq := true;
            irqRequests := irqRequests + 1;
          } else {
            irq := false;
          }
        }
      }
    }

    // ---- the wave decoders (src/core/spu.c:181-295)

    /** `SPU_TickSample` with the step count as an input. The C code has one
        loop per PCM mode behind a `switch`; here the mode, read once before
        the loop, selects the pass inside one loop. */
    method TickSample(ch: Chan, steps: nat, mem: Memory)
      requires Inv() && ChannelValid(channels[ch])
      modifies regs, channels
      ensures Inv() && Abs() == Decoder.TickSample(old(Abs()), ch, steps, mem)
    {
      ghost var s := Abs();
      var c := channels[ch];
      SetChannel(ch, SavePrev(c));
      if steps < 1 {
        return;
      }
      var addr := DecodeLoop(ch, PcmMode(c.regsA[ModeReg]), WaveAddress(c), steps, mem);
      SetChannel(ch, Stored(channels[ch], addr));
    }

    /** The decode loop: `steps` passes of mode `pcm` from address `a`;
        returns the final address. */
    method DecodeLoop(ch: Chan, pcm: Word, a: Addr, steps: nat, mem: Memory) returns (addr: Addr)
      requires Inv() && pcm < 4 && ChannelValid(channels[ch])
      modifies regs, channels
      ensures Inv() && Cursor(Abs(), addr) == DecodeSteps(old(Abs()), ch, pcm, a, steps, mem)
    {
      addr := a;
      var i := 0;
      while i < steps
        invariant i <= steps && Inv() && ChannelValid(channels[ch])
        invariant DecodeSteps(Abs(), ch, pcm, addr, steps - i, mem) == DecodeSteps(old(Abs()), ch, pcm, a, steps, mem)
      {
        addr := DecodePass(ch, pcm, addr, mem);
        i := i + 1;
      }
    }

    /** One pass of the decode loop of PCM mode `pcm` from address `a`,
        sentinel test included; returns the next address. */
    method DecodePass(ch: Chan, pcm: Word, a: Addr, mem: Memory) returns (next: Addr)
      requires Inv() && pcm < 4 && ChannelValid(channels[ch])
      modifies regs, channels
      ensures Inv() && ChannelValid(channels[ch])
      ensures Cursor(Abs(), next) == Step(old(Abs()), ch, pcm, a, mem)
    {
      ghost var s := Abs();
      var f := Fetch(channels[ch], pcm, a, mem);
      next := FinishPass(ch, f, RewindOf(pcm));
      FinishValid(s, ch, f, RewindOf(pcm));
    }

    /** The end of a pass: the record goes back into the table, and on the
        end sentinel a one-shot channel stops while a looping one jumps to
        its loop address with the mode's reset applied. */
    method FinishPass(ch: Chan, f: Fetched, rewind: Rewind) returns (next: Addr)
      requires Inv()
      modifies regs, channels
      ensures Inv() && Cursor(Abs(), next) == Finish(old(Abs()), ch, f, rewind)
    {
      ghost var s := Abs();
      SetChannel(ch, f.c);
      next := f.addr;
      if f.atEnd {
        if OneShot(f.c) {
          StopChannel(ch);
        } else {
          SetChannel(ch, Rewound(f.c, rewind));
          next := LoopAddress(f.c);
        }
      }
    }

    // ---- the envelope (src/core/spu.c:405-463)

    /** `SPU_TickEnvelope`. */
    method TickEnvelope(ch: Chan, mem: Memory)
      requires Inv()
      modifies regs, channels
      ensures Inv() && Abs() == Envelope.TickEnvelope(old(Abs()), ch, mem)
    {
      ghost var s := Abs();
      var c := channels[ch];
      var d1 := CountedDown(c.regsA[EnvDataReg]);
      if EnvCount(d1) != 0 {
        SetChannel(ch, c.(regsA := c.regsA[EnvDataReg := d1]));
        return;
      }
      var amp := Amplitude(d1);
      var env0 := c.regsA[Env0Reg];
      SetChannel(ch, Stepped(c));
      if Fades(amp, env0) {
        StopChannel(ch);
        return;
      }
      if NextAmplitude(amp, env0) == Layout.Target(env0) {
        SetChannel(ch, Advance(Stepped(c), mem));
      }
    }

    // ---- one channel (src/core/spu.c:298-364)

    /** The ramp-down step of lines 331-353. */
    method RampDown(ch: Chan)
      requires Inv()
      modifies regs, channels
      ensures Inv() && Abs() == Mixer.RampDown(old(Abs()), ch)
    {
      ghost var s := Abs();
      var c := channels[ch];
      var n := CountedFrames(c.rampDownFrame);
      if n != 0 {
        SetChannel(ch, c.(rampDownFrame := n));
        return;
      }
      if RampDownLevel(c) > 0 {
        SetChannel(ch, Decayed(c));
      } else {
        Silence(ch);
        SetChannel(ch, c.(rampDownFrame := RampDownReload(c)));
      }
    }

    /** Lines 344-348: the channel's masks as a stopped channel's. */
    method Silence(ch: Chan)
      requires Inv()
      modifies regs
      ensures Inv() && Abs() == Mixer.Silence(old(Abs()), ch)
    {
      regs[EnableReg] := Clear(regs[EnableReg], ch);
      regs[StatReg] := Clear(regs[StatReg], ch);
      regs[StopReg] := Set(regs[StopReg], ch);
      regs[RampDownReg] := Clear(regs[RampDownReg], ch);
      regs[ToneReleaseReg] := Clear(regs[ToneReleaseReg], ch);
    }

    /** The envelope countdown of lines 354-363. */
    method EnvelopeTimer(ch: Chan, mem: Memory)
      requires Inv()
      modifies regs, channels
      ensures Inv() && Abs() == Mixer.EnvelopeTimer(old(Abs()), ch, mem)
    {
      ghost var s := Abs();
      var c := channels[ch];
      var n := CountedFrames(c.envelopeFrame);
      SetChannel(ch, c.(envelopeFrame := n));
      if n == 0 {
        TickEnvelope(ch, mem);
        ghost var t := Abs();
        var clock := Nybble(regs[EnvClock0Reg + (ch as int) / 4], (ch as int) % 4);
        assert clock == EnvelopeClock(t, ch);
        var c' := channels[ch];
        SetChannel(ch, c'.(envelopeFrame := EnvelopeFrames[clock]));
      }
    }

    /** `SPU_TickChannel` with the step count and the interpolation weight
        as inputs; returns the channel's left and right contributions. */
    method TickChannel(ch: Chan, steps: nat, lerp: int, mem: Memory) returns (left: int, right: int)
      requires Valid()
      modifies regs, channels
      ensures Valid()
      ensures Output(Abs(), left, right) == Mixer.TickChannel(old(Abs()), ch, steps, lerp, mem)
    {
      ghost var s := Abs();
      TickChannelFrame(s, ch, steps, lerp, mem);
      TickSample(ch, steps, mem);
      ghost var t := Abs();
      var c := channels[ch];
      var sample := if regs[CtrlReg] & 0x200 == 0 then InterpolateAsWritten(c, lerp) else SampleOf(c.regsA[WaveDataReg]);
      sample := Scaled(sample, Amplitude(c.regsA[EnvDataReg]));
      assert sample == ChannelSample(t, ch, lerp);
      var w := PanWeights(c.regsA[PanVolReg]);
      left, right := sample * w.left, sample * w.right;
      if Has(regs[RampDownReg], ch) {
        RampDown(ch);
      } else if !Has(regs[EnvModeReg], ch) {
        EnvelopeTimer(ch, mem);
      }
      assert Abs() == FrameUpdate(t, ch, mem);
    }

    // ---- the sample tick (src/core/spu.c:125-178)

    /** `SPU_Tick(cycles)` with the sample period `SPU_SAMPLE_TIMER` as the
        input `period` and the channels' step counts and interpolation
        weights as inputs. Returns whether a sample was produced, and the
        sample, shifted by the volume select as written. */
    method Tick(cycles: int, period: nat, steps: seq<nat>, lerps: seq<int>, mem: Memory)
      returns (sampled: bool, left: int, right: int)
      requires Valid() && period > 0 && |steps| == 16 && |lerps| == 16
      modifies this, regs, channels
      ensures Valid()
      ensures Mix.Tick(old(Abs()), cycles, period, steps, lerps, mem)
              == if sampled then Sampled(Abs(), left, right) else Waiting(Abs())
    {
      if sampleTimer > 0 {
        sampleTimer := sampleTimer - cycles;
        accumulatedSamples := accumulatedSamples + cycles;
        return false, 0, 0;
      }
      ghost var s := Abs();
      sampleTimer := sampleTimer + period;
      var acc := accumulatedSamples;
      while acc > 0
        invariant Drained(acc, period) == Drained(s.accumulatedSamples, period)
        decreases acc
      {
        acc := acc - period;
      }
      accumulatedSamples := acc;
      if channelIrq {
        fiqRequests := fiqRequests + 1;
        channelIrq := false;
      }
      assert Abs() == Ready(s, period);
      var l, r := MixChannels(steps, lerps, mem);
      var out := VolumeAsWritten(regs[VolumeSelectReg], l, r);
      return true, out.0, out.1;
    }

    /** The mix loop of lines 147-162: every channel whose enable bit is set
        when the loop reaches it is ticked and its output summed. */
    method MixChannels(steps: seq<nat>, lerps: seq<int>, mem: Memory) returns (left: int, right: int)
      requires Valid() && |steps| == 16 && |lerps| == 16
      modifies regs, channels
      ensures Valid() && Output(Abs(), left, right) == MixUpTo(old(Abs()), |old(Abs()).channels|, steps, lerps, mem)
    {
      left, right := 0, 0;
      var i := 0;
      while i < 16
        invariant 0 <= i <= 16 && Valid()
        invariant Output(Abs(), left, right) == MixUpTo(old(Abs()), i, steps, lerps, mem)
      {
        var l, r := MixPass(i, steps[i], lerps[i], mem);
        left, right := left + l, right + r;
        i := i + 1;
      }
    }

    /** Pass `k` of the mix loop. */
    method MixPass(k: nat, steps: nat, lerp: int, mem: Memory) returns (left: int, right: int)
      requires Valid() && k < 16
      modifies regs, channels
      ensures Valid() && Output(Abs(), left, right) == MixChannel(old(Abs()), k, steps, lerp, mem)
    {
      var ch := ToChan(k);
      if Has(regs[EnableReg], ch) {
        left, right := TickChannel(ch, steps, lerp, mem);
      } else {
        left, right := 0, 0;
      }
    }
  }
}
