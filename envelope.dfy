/** The envelope engine (src/core/spu.c:405-475): an 8-bit amplitude that a
    countdown steps toward a target, and the envelope program in memory that
    supplies the next target, step and countdown reload when the target is
    reached. Also the two frame-count tables (lines 81-87) that pace the
    envelope and the ramp-down. */
module Envelope {
  import opened Bits
  import opened Masks
  import opened Layout
  import opened SpuState
  import opened Decoder

  /** `rampdownFrameCounts` (lines 81-83), indexed by the ramp-down clock. */
  const RampDownFrames: seq<nat> := [52, 208, 832, 3328, 13312, 53248, 106496, 106496]

  /** `envelopeFrameCounts` (lines 85-87), indexed by the envelope clock. */
  const EnvelopeFrames: seq<nat> := [4, 8, 16, 32, 64, 128, 256, 512, 1024, 2048, 4096, 8192, 8192, 8192, 8192, 8192]

  /** Clock settings 0 to 11 double the envelope period from 4 frames;
      the four settings above saturate at 8192. */
  lemma EnvelopeFramesDouble(k: nat)
    requires k < 16
    ensures k < 11 ==> EnvelopeFrames[k + 1] == 2 * EnvelopeFrames[k]
    ensures k >= 11 ==> EnvelopeFrames[k] == 8192
    ensures 4 <= EnvelopeFrames[k] <= 8192
  {
  }

  /** The ramp-down periods grow by four per class up to class 5, and the
      slowest class repeats. */
  lemma RampDownFramesGrow(k: nat)
    requires k < 8
    ensures k < 5 ==> RampDownFrames[k + 1] == 4 * RampDownFrames[k]
    ensures k >= 6 ==> RampDownFrames[k] == 106496
    ensures RampDownFrames[k] >= 52
  {
  }

  // ---- the envelope clock (lines 466-475)

  /** `SPU_GetEnvelopeClock`: channel `ch`'s nybble among the four clock
      registers, four channels to a register, the lowest channel in the
      lowest nybble. */
  function EnvelopeClock(s: State, ch: Chan): (k: Word)
    ensures k < 16
  {
    Nybble(s.regs[EnvClock0Reg + (ch as int) / 4], (ch as int) % 4)
  }

  /** Nybble `i` of a word, counted from the low end. */
  function Nybble(w: Word, i: int): (k: Word)
    requires 0 <= i < 4
    ensures k < 16
  {
    if i == 0 then w & 0xf
    else if i == 1 then (w >> 4) & 0xf
    else if i == 2 then (w >> 8) & 0xf
    else w >> 12
  }

  /** Four clock nybbles packed as a register holds them. */
  function PackClocks(n0: Word, n1: Word, n2: Word, n3: Word): Word
  {
    (n0 & 0xf) | ((n1 & 0xf) << 4) | ((n2 & 0xf) << 8) | ((n3 & 0xf) << 12)
  }

  /** Packing four nybbles and reading nybble `i` back gives the `i`-th. */
  lemma UnpackNybbles(n0: Word, n1: Word, n2: Word, n3: Word)
    requires n0 < 16 && n1 < 16 && n2 < 16 && n3 < 16
    ensures var w := PackClocks(n0, n1, n2, n3);
      Nybble(w, 0) == n0 && Nybble(w, 1) == n1 && Nybble(w, 2) == n2 && Nybble(w, 3) == n3
  {
  }

  /** Reading the clock back from a packed register gives each channel its
      own nybble. */
  lemma EnvelopeClockUnpacks(s: State, ch: Chan, n0: Word, n1: Word, n2: Word, n3: Word)
    requires n0 < 16 && n1 < 16 && n2 < 16 && n3 < 16
    requires s.regs[EnvClock0Reg + (ch as int) / 4] == PackClocks(n0, n1, n2, n3)
    ensures var i := (ch as int) % 4;
      EnvelopeClock(s, ch) == (if i == 0 then n0 else if i == 1 then n1 else if i == 2 then n2 else n3)
  {
    UnpackNybbles(n0, n1, n2, n3);
  }

  // ---- the amplitude step (lines 413-434)

  /** Bit 7 of the increment selects the decrementing envelope. */
  predicate Decrementing(env0: Word)
  {
    Increment(env0) & 0x80 != 0
  }

  /** The step size: the increment's low seven bits. */
  function Delta(env0: Word): (d: Word)
    ensures d < 128
  {
    Increment(env0) & 0x7f
  }

  /** The amplitude after one envelope step toward `target` by `delta`,
      before the stop test, on the 8-bit field read as a number: a
      subtraction modulo 256 whose wrap-around reads as 0 and whose
      undershoot is raised to the target, or an addition modulo 256 capped
      at the target. */
  function AmplitudeStep(amp: int, target: int, delta: int, down: bool): (a: int)
    requires 0 <= amp < 256 && 0 <= target < 128
    ensures 0 <= a < 256
  {
    if amp == target then amp
    else if down then
      var d := (amp - delta) % 256;
      if d > amp then 0 else if d < target then target else d
    else
      var u := (amp + delta) % 256;
      if u >= target then target else u
  }

  /** Lines 413-434 with the fields of `env0`. */
  function NextAmplitude(amp: Word, env0: Word): (a: Word)
    requires amp < 256
    ensures a < 256
  {
    AmplitudeStep(amp as int, Target(env0) as int, Delta(env0) as int, Decrementing(env0)) as Word
  }

  /** On the increment path the amplitude never ends above the target, and
      from below it rises toward the target without passing it. */
  lemma IncrementBounded(amp: int, target: int, delta: int)
    requires 0 <= amp < 256 && 0 <= target < 128 && 0 <= delta < 128
    ensures AmplitudeStep(amp, target, delta, false) <= target
    ensures amp <= target ==> amp <= AmplitudeStep(amp, target, delta, false) <= target
  {
  }

  /** The decrement path: a subtraction that wraps gives 0, one that lands
      below the target gives the target, any other gives the difference. */
  lemma DecrementCases(amp: int, target: int, delta: int)
    requires 0 <= amp < 256 && 0 <= target < 128 && 0 <= delta < 128 && amp != target
    ensures var a := AmplitudeStep(amp, target, delta, true);
      && (delta > amp ==> a == 0)
      && (delta <= amp ==> a == if amp - delta < target then target else amp - delta)
  {
  }

  /** From above the target, a decrementing step lands between the target
      and the old amplitude, or at 0 when the subtraction wrapped. */
  lemma DecrementFromAbove(amp: int, target: int, delta: int)
    requires 0 <= amp < 256 && 0 <= target < 128 && 0 <= delta < 128 && amp > target
    ensures var a := AmplitudeStep(amp, target, delta, true);
      a == 0 || target <= a <= amp
  {
  }

  /** A decrementing step that ends at 0 stops the channel (lines 425-428). */
  predicate Fades(amp: Word, env0: Word)
    requires amp < 256
  {
    amp != Target(env0) && Decrementing(env0) && NextAmplitude(amp, env0) == 0
  }

  // ---- the program fetch (lines 438-460)

  /** `envAddr | (envAddrHigh.envAddrHi << 16)` */
  function EnvAddress(c: Channel): Addr
  {
    Join(c.regsA[EnvAddrReg], EnvAddrHi(c.regsA[EnvAddrHighReg]))
  }

  /** The envelope program registers a program step produces, with the
      full (unsplit) program address. */
  datatype Program = Program(env0: Word, env1: Word, loopCtrl: Word, addr: Addr)

  /** Lines 441-457: with repeat enabled the repeat count is decremented
      and, when it reaches 0, three program words are loaded from the
      program address `e` and the address moves by the new loop offset;
      without repeat two words are loaded and the address moves by 2. */
  function ProgramStep(e: Addr, env0: Word, env1: Word, loopCtrl: Word, mem: Memory): Program
  {
    if !RepeatEnable(env1) then Program(mem(e), mem(e + 1), loopCtrl, e + 2)
    else
      var count := (RepeatCount(env1) - 1) & 0x7f;
      if count == 0 then Program(mem(e), mem(e + 1), mem(e + 2), e + EnvAddrOffset(mem(e + 2)) as Addr)
      else Program(env0, WithRepeatCount(env1, count), loopCtrl, e)
  }

  /** The program step applied to channel `c`'s program registers. */
  function NextProgram(c: Channel, mem: Memory): Program
  {
    ProgramStep(EnvAddress(c), c.regsA[Env0Reg], c.regsA[Env1Reg], c.regsA[EnvLoopCtrlReg], mem)
  }

  /** Lines 459-461: the program registers are written back, the address as
      16 + 6 bits, and the countdown reloaded from the new `env1.loadVal`. */
  function Install(c: Channel, p: Program): Channel
  {
    var regs := c.regsA[Env0Reg := p.env0][Env1Reg := p.env1][EnvLoopCtrlReg := p.loopCtrl]
                       [EnvAddrReg := Low(p.addr)][EnvAddrHighReg := WithEnvAddrHi(c.regsA[EnvAddrHighReg], High6(p.addr))]
                       [EnvDataReg := WithEnvCount(c.regsA[EnvDataReg], LoadVal(p.env1))];
    c.(regsA := regs)
  }

  /** The program step of lines 438-460. */
  function Advance(c: Channel, mem: Memory): (r: Channel)
    ensures r.(regsA := c.regsA) == c
  {
    Install(c, NextProgram(c, mem))
  }

  /** The channel of a call whose countdown reached 0, before the stop test
      and the program step: the amplitude has taken its step and the
      countdown stays at 0. */
  function Stepped(c: Channel): Channel
  {
    c.(regsA := c.regsA[EnvDataReg := SteppedData(c.regsA[EnvDataReg], c.regsA[Env0Reg])])
  }

  /** The envelope data word after the countdown and the amplitude step. */
  function SteppedData(d: Word, env0: Word): Word
  {
    var d1 := CountedDown(d);
    WithAmplitude(d1, NextAmplitude(Amplitude(d1), env0))
  }

  /** `SPU_TickEnvelope`: the countdown runs down; at 0 the amplitude steps
      toward the target; a decrement to 0 stops the channel and ends the
      call; reaching the target runs the program step. */
  function TickEnvelope(s: State, ch: Chan, mem: Memory): State
  {
    var c := s.channels[ch];
    var d1 := CountedDown(c.regsA[EnvDataReg]);
    if EnvCount(d1) != 0 then WithChannel(s, ch, c.(regsA := c.regsA[EnvDataReg := d1]))
    else
      var amp := Amplitude(d1);
      var env0 := c.regsA[Env0Reg];
      if Fades(amp, env0) then Stop(WithChannel(s, ch, Stepped(c)), ch)
      else if NextAmplitude(amp, env0) == Target(env0) then WithChannel(s, ch, Advance(Stepped(c), mem))
      else WithChannel(s, ch, Stepped(c))
  }

  /** The countdown word after the decrement of lines 410-411. */
  function CountedDown(d: Word): Word
  {
    var count := EnvCount(d);
    WithEnvCount(d, if count > 0 then count - 1 else 0)
  }

  /** The decrement takes one from a nonzero countdown and keeps the
      amplitude. */
  lemma CountedDownWord(d: Word)
    ensures EnvCount(d) > 0 ==> EnvCount(CountedDown(d)) == EnvCount(d) - 1
    ensures EnvCount(d) == 0 ==> EnvCount(CountedDown(d)) == 0
    ensures Amplitude(CountedDown(d)) == Amplitude(d)
  {
    var count := EnvCount(d);
    assert (count - 1) & 0xff == count - 1 || count == 0;
  }

  /** While the countdown is above 1 a call only counts it down: the
      amplitude, the envelope program and every other register, channel
      and mask are left as they are. */
  lemma EnvelopeWaits(s: State, ch: Chan, mem: Memory)
    requires EnvCount(s.channels[ch].regsA[EnvDataReg]) > 1
    ensures var c := s.channels[ch];
      var r := TickEnvelope(s, ch, mem);
      var d := r.channels[ch].regsA[EnvDataReg];
      && EnvCount(d) == EnvCount(c.regsA[EnvDataReg]) - 1
      && Amplitude(d) == Amplitude(c.regsA[EnvDataReg])
      && r == WithChannel(s, ch, c.(regsA := c.regsA[EnvDataReg := d]))
  {
    var c := s.channels[ch];
    CountedDownWord(c.regsA[EnvDataReg]);
    assert TickEnvelope(s, ch, mem) == WithChannel(s, ch, c.(regsA := c.regsA[EnvDataReg := CountedDown(c.regsA[EnvDataReg])]));
  }

  /** With the countdown at 0 or 1 a call steps the amplitude and then
      either stops the channel (a decrement to 0), runs the program step
      (target reached) or leaves the rest alone. */
  lemma EnvelopeSteps(s: State, ch: Chan, mem: Memory)
    requires EnvCount(s.channels[ch].regsA[EnvDataReg]) <= 1
    ensures var c := s.channels[ch];
      var amp := Amplitude(c.regsA[EnvDataReg]);
      var env0 := c.regsA[Env0Reg];
      var r := TickEnvelope(s, ch, mem);
      && (Fades(amp, env0) ==> r == Stop(WithChannel(s, ch, Stepped(c)), ch))
      && (!Fades(amp, env0) && NextAmplitude(amp, env0) == Target(env0) ==> r == WithChannel(s, ch, Advance(Stepped(c), mem)))
      && (!Fades(amp, env0) && NextAmplitude(amp, env0) != Target(env0) ==> r == WithChannel(s, ch, Stepped(c)))
  {
    CountedDownWord(s.channels[ch].regsA[EnvDataReg]);
  }

  lemma AmplitudeWord(d: Word, a: Word)
    requires a < 256
    ensures Amplitude(WithAmplitude(d, a)) == a && EnvCount(WithAmplitude(d, a)) == EnvCount(d)
  {
    assert a & 0xff == a;
  }

  /** The stepped amplitude is the one the amplitude step computes, and the
      countdown is left at 0. */
  lemma SteppedAmplitude(c: Channel)
    requires EnvCount(c.regsA[EnvDataReg]) <= 1
    ensures var d := Stepped(c).regsA[EnvDataReg];
      var env0 := c.regsA[Env0Reg];
      && Amplitude(d) as int == AmplitudeStep(Amplitude(c.regsA[EnvDataReg]) as int, Target(env0) as int, Delta(env0) as int, Decrementing(env0))
      && Amplitude(d) == NextAmplitude(Amplitude(c.regsA[EnvDataReg]), env0)
      && EnvCount(d) == 0
      && Stepped(c).regsA == c.regsA[EnvDataReg := d]
  {
    SteppedWord(c.regsA[EnvDataReg], c.regsA[Env0Reg]);
  }

  lemma SteppedWord(d: Word, env0: Word)
    requires EnvCount(d) <= 1
    ensures var d' := SteppedData(d, env0);
      && Amplitude(d') as int == AmplitudeStep(Amplitude(d) as int, Target(env0) as int, Delta(env0) as int, Decrementing(env0))
      && Amplitude(d') == NextAmplitude(Amplitude(d), env0)
      && EnvCount(d') == 0
  {
    var d1 := CountedDown(d);
    CountedDownWord(d);
    AmplitudeWord(d1, NextAmplitude(Amplitude(d1), env0));
    ByteRoundTrip(AmplitudeStep(Amplitude(d1) as int, Target(env0) as int, Delta(env0) as int, Decrementing(env0)));
  }

  lemma ByteRoundTrip(x: int)
    requires 0 <= x < 256
    ensures (x as Word) as int == x
  {
    assert x % 65536 == x;
  }

  /** Storing an amplitude given as a number. */
  lemma AmplitudeStored(d: Word, x: int)
    requires 0 <= x < 256
    ensures Amplitude(WithAmplitude(d, x as Word)) as int == x
    ensures EnvCount(WithAmplitude(d, x as Word)) == EnvCount(d)
  {
    ByteRoundTrip(x);
    AmplitudeWord(d, x as Word);
  }

  // ---- the program step

  /** Without repeat the next two program words become `env0` and `env1`
      and the program moves on by two words. */
  lemma ProgramPlain(e: Addr, env0: Word, env1: Word, loopCtrl: Word, mem: Memory)
    requires !RepeatEnable(env1)
    ensures ProgramStep(e, env0, env1, loopCtrl, mem) == Program(mem(e), mem(e + 1), loopCtrl, e + 2)
  {
  }

  /** With repeat, the pass that brings the repeat count to 0 loads three
      program words and jumps by the new unsigned loop offset; any other
      pass keeps the program and its address and only counts down, leaving
      the reload value and the repeat flag as they were. */
  lemma ProgramRepeat(e: Addr, env0: Word, env1: Word, loopCtrl: Word, mem: Memory)
    requires RepeatEnable(env1)
    ensures var p := ProgramStep(e, env0, env1, loopCtrl, mem);
      && (RepeatCount(env1) == 1 ==>
            p == Program(mem(e), mem(e + 1), mem(e + 2), e + EnvAddrOffset(mem(e + 2)) as Addr))
      && (RepeatCount(env1) != 1 ==>
            && p.env0 == env0 && p.loopCtrl == loopCtrl && p.addr == e
            && RepeatCount(p.env1) as int == (RepeatCount(env1) as int - 1) % 128
            && LoadVal(p.env1) == LoadVal(env1) && RepeatEnable(p.env1))
  {
    RepeatCountDown(env1);
  }

  /** The 7-bit repeat count decremented with wrap-around. */
  lemma RepeatCountDown(env1: Word)
    ensures var k := RepeatCount(env1);
      && ((k - 1) & 0x7f == 0 <==> k == 1)
      && ((k - 1) & 0x7f & 0x7f) as int == (k as int - 1) % 128
  {
    var k := RepeatCount(env1);
    if k == 0 {
      assert (k - 1) & 0x7f == 0x7f;
    } else {
      assert (k - 1) & 0x7f == k - 1;
      assert (k - 1) as int == k as int - 1;
    }
  }

  /** Installing a program stores its words, keeps its address modulo 2^22,
      reloads the countdown from `env1.loadVal` and keeps the amplitude. */
  lemma InstallStores(c: Channel, p: Program)
    ensures var r := Install(c, p);
      && r.regsA[Env0Reg] == p.env0 && r.regsA[Env1Reg] == p.env1 && r.regsA[EnvLoopCtrlReg] == p.loopCtrl
      && EnvAddress(r) == Low22(p.addr)
      && EnvCount(r.regsA[EnvDataReg]) == LoadVal(p.env1)
      && Amplitude(r.regsA[EnvDataReg]) == Amplitude(c.regsA[EnvDataReg])
  {
    var r := Install(c, p);
    EnvStoredSplit(c.regsA[EnvAddrHighReg], p.addr);
    CountWord(c.regsA[EnvDataReg], LoadVal(p.env1));
    assert EnvAddress(r) == Join(Low(p.addr), High6(p.addr));
  }

  lemma EnvStoredSplit(high: Word, a: Addr)
    ensures EnvAddrHi(WithEnvAddrHi(high, High6(a))) == High6(a) && Join(Low(a), High6(a)) == Low22(a)
  {
    var h := High6(a);
    assert h & 0x3f == h;
    SplitJoin(a);
  }

  lemma CountWord(d: Word, v: Word)
    requires v < 256
    ensures EnvCount(WithEnvCount(d, v)) == v && Amplitude(WithEnvCount(d, v)) == Amplitude(d)
  {
    assert v & 0xff == v;
  }

  // ---- what one call does

  /** The amplitude step only touches the envelope data word, so the program
      step reads the same program registers after it. */
  lemma SteppedProgram(c: Channel, mem: Memory)
    ensures NextProgram(Stepped(c), mem) == NextProgram(c, mem)
    ensures EnvAddress(Stepped(c)) == EnvAddress(c)
  {
    var c' := Stepped(c);
    assert c'.regsA[Env0Reg] == c.regsA[Env0Reg] && c'.regsA[Env1Reg] == c.regsA[Env1Reg];
    assert c'.regsA[EnvLoopCtrlReg] == c.regsA[EnvLoopCtrlReg];
    assert c'.regsA[EnvAddrReg] == c.regsA[EnvAddrReg] && c'.regsA[EnvAddrHighReg] == c.regsA[EnvAddrHighReg];
  }

  /** A call whose step reaches the target fetches the envelope program:
      the channel holds the program step's words and address (modulo
      2^22), the countdown is reloaded from the new `loadVal`, and the
      amplitude sits at the old target. */
  lemma EnvelopeReachesTarget(s: State, ch: Chan, mem: Memory)
    requires var c := s.channels[ch];
      && EnvCount(c.regsA[EnvDataReg]) <= 1
      && !Fades(Amplitude(c.regsA[EnvDataReg]), c.regsA[Env0Reg])
      && NextAmplitude(Amplitude(c.regsA[EnvDataReg]), c.regsA[Env0Reg]) == Target(c.regsA[Env0Reg])
    ensures var c := s.channels[ch];
      var p := NextProgram(c, mem);
      var r := TickEnvelope(s, ch, mem);
      var c' := r.channels[ch];
      && c'.regsA[Env0Reg] == p.env0 && c'.regsA[Env1Reg] == p.env1 && c'.regsA[EnvLoopCtrlReg] == p.loopCtrl
      && EnvAddress(c') == Low22(p.addr)
      && EnvCount(c'.regsA[EnvDataReg]) == LoadVal(p.env1)
      && Amplitude(c'.regsA[EnvDataReg]) == Target(c.regsA[Env0Reg])
      && r == WithChannel(s, ch, c')
  {
    var c := s.channels[ch];
    EnvelopeSteps(s, ch, mem);
    SteppedAmplitude(c);
    SteppedProgram(c, mem);
    InstallStores(Stepped(c), NextProgram(c, mem));
  }

  /** A call that steps the amplitude without reaching the target or
      fading out leaves the envelope program alone and the countdown at 0. */
  lemma EnvelopeMoves(s: State, ch: Chan, mem: Memory)
    requires var c := s.channels[ch];
      && EnvCount(c.regsA[EnvDataReg]) <= 1
      && !Fades(Amplitude(c.regsA[EnvDataReg]), c.regsA[Env0Reg])
      && NextAmplitude(Amplitude(c.regsA[EnvDataReg]), c.regsA[Env0Reg]) != Target(c.regsA[Env0Reg])
    ensures var c := s.channels[ch];
      var r := TickEnvelope(s, ch, mem);
      var d := r.channels[ch].regsA[EnvDataReg];
      && Amplitude(d) == NextAmplitude(Amplitude(c.regsA[EnvDataReg]), c.regsA[Env0Reg])
      && EnvCount(d) == 0
      && r == WithChannel(s, ch, c.(regsA := c.regsA[EnvDataReg := d]))
  {
    var c := s.channels[ch];
    EnvelopeSteps(s, ch, mem);
    SteppedAmplitude(c);
  }

  /** A decrement to 0 stops the channel (its enable bit is cleared) with
      the amplitude left at 0 and without fetching the envelope program. */
  lemma EnvelopeFadesOut(s: State, ch: Chan, mem: Memory)
    requires var c := s.channels[ch];
      EnvCount(c.regsA[EnvDataReg]) <= 1 && Fades(Amplitude(c.regsA[EnvDataReg]), c.regsA[Env0Reg])
    ensures var c := s.channels[ch];
      var r := TickEnvelope(s, ch, mem);
      var c' := r.channels[ch];
      && !Has(r.regs[EnableReg], ch)
      && Amplitude(c'.regsA[EnvDataReg]) == 0
      && c'.regsA[Env0Reg] == c.regsA[Env0Reg] && c'.regsA[Env1Reg] == c.regsA[Env1Reg]
      && c'.regsA[EnvLoopCtrlReg] == c.regsA[EnvLoopCtrlReg] && EnvAddress(c') == EnvAddress(c)
      && !c'.playing
  {
    var c := s.channels[ch];
    EnvelopeSteps(s, ch, mem);
    SteppedAmplitude(c);
    var t := WithChannel(s, ch, Stepped(c));
    StopBits(t, ch);
    StopRecordBits(Stepped(c));
  }

  /** An incrementing envelope never overshoots: from at or below the
      target the amplitude only rises, and stays at or below the target. */
  lemma EnvelopeRises(s: State, ch: Chan, mem: Memory)
    requires var c := s.channels[ch];
      !Decrementing(c.regsA[Env0Reg]) && Amplitude(c.regsA[EnvDataReg]) as int <= Target(c.regsA[Env0Reg]) as int
    ensures var c := s.channels[ch];
      var a := Amplitude(TickEnvelope(s, ch, mem).channels[ch].regsA[EnvDataReg]);
      Amplitude(c.regsA[EnvDataReg]) as int <= a as int <= Target(c.regsA[Env0Reg]) as int
  {
    if EnvCount(s.channels[ch].regsA[EnvDataReg]) > 1 {
      EnvelopeWaits(s, ch, mem);
    } else {
      RisesStepping(s, ch, mem);
    }
  }

  /** The word-level form of the increment bound. */
  lemma NextAmplitudeRises(amp: Word, env0: Word)
    requires !Decrementing(env0) && amp as int <= Target(env0) as int
    ensures amp as int <= NextAmplitude(amp, env0) as int <= Target(env0) as int
    ensures !Fades(amp, env0)
  {
    var a := AmplitudeStep(amp as int, Target(env0) as int, Delta(env0) as int, false);
    IncrementBounded(amp as int, Target(env0) as int, Delta(env0) as int);
    ByteRoundTrip(a);
  }

  lemma RisesStepping(s: State, ch: Chan, mem: Memory)
    requires var c := s.channels[ch];
      && !Decrementing(c.regsA[Env0Reg]) && Amplitude(c.regsA[EnvDataReg]) as int <= Target(c.regsA[Env0Reg]) as int
      && EnvCount(c.regsA[EnvDataReg]) <= 1
    ensures var c := s.channels[ch];
      var a := Amplitude(TickEnvelope(s, ch, mem).channels[ch].regsA[EnvDataReg]);
      a == NextAmplitude(Amplitude(c.regsA[EnvDataReg]), c.regsA[Env0Reg])
      && Amplitude(c.regsA[EnvDataReg]) as int <= a as int <= Target(c.regsA[Env0Reg]) as int
  {
    var c := s.channels[ch];
    var env0 := c.regsA[Env0Reg];
    var amp := Amplitude(c.regsA[EnvDataReg]);
    NextAmplitudeRises(amp, env0);
    if NextAmplitude(amp, env0) == Target(env0) {
      EnvelopeReachesTarget(s, ch, mem);
    } else {
      EnvelopeMoves(s, ch, mem);
    }
  }

  /** A call changes only channel `ch`'s record, and the global registers
      only as a stop does. */
  lemma EnvelopeFrame(s: State, ch: Chan, mem: Memory)
    ensures StepFrame(TickEnvelope(s, ch, mem), s, ch)
  {
    var c := s.channels[ch];
    if EnvCount(c.regsA[EnvDataReg]) > 1 {
      EnvelopeWaits(s, ch, mem);
      WithChannelFrame(s, ch, c.(regsA := TickEnvelope(s, ch, mem).channels[ch].regsA));
    } else {
      EnvelopeSteps(s, ch, mem);
      if Fades(Amplitude(c.regsA[EnvDataReg]), c.regsA[Env0Reg]) {
        StopFrame(s, ch, Stepped(c));
      } else if NextAmplitude(Amplitude(c.regsA[EnvDataReg]), c.regsA[Env0Reg]) == Target(c.regsA[Env0Reg]) {
        WithChannelFrame(s, ch, Advance(Stepped(c), mem));
      } else {
        WithChannelFrame(s, ch, Stepped(c));
      }
    }
  }

  /** The envelope engine writes registers only, so the channel's decoder
      invariant is kept (a stop resets the decoder to a valid state). */
  lemma EnvelopeOwnValid(s: State, ch: Chan, mem: Memory)
    requires ChannelValid(s.channels[ch])
    ensures ChannelValid(TickEnvelope(s, ch, mem).channels[ch])
  {
    var c := s.channels[ch];
    if EnvCount(c.regsA[EnvDataReg]) > 1 {
      EnvelopeWaits(s, ch, mem);
      WithChannelValid(s, ch, c, c.(regsA := TickEnvelope(s, ch, mem).channels[ch].regsA));
    } else {
      EnvelopeSteps(s, ch, mem);
      var c' := Stepped(c);
      if Fades(Amplitude(c.regsA[EnvDataReg]), c.regsA[Env0Reg]) {
        StopOwnValid(s, ch, c, c');
      } else if NextAmplitude(Amplitude(c.regsA[EnvDataReg]), c.regsA[Env0Reg]) == Target(c.regsA[Env0Reg]) {
        WithChannelValid(s, ch, c, Advance(c', mem));
      } else {
        WithChannelValid(s, ch, c, c');
      }
    }
  }

  /** The envelope engine leaves the channel's frame countdowns alone. */
  lemma EnvelopeKeepsTimers(s: State, ch: Chan, mem: Memory)
    ensures var c := s.channels[ch];
      var c' := TickEnvelope(s, ch, mem).channels[ch];
      c'.envelopeFrame == c.envelopeFrame && c'.rampDownFrame == c.rampDownFrame
  {
    var c := s.channels[ch];
    if EnvCount(c.regsA[EnvDataReg]) > 1 {
      EnvelopeWaits(s, ch, mem);
      WithChannelTimers(s, ch, c, c.(regsA := TickEnvelope(s, ch, mem).channels[ch].regsA));
    } else {
      EnvelopeSteps(s, ch, mem);
      var c' := Stepped(c);
      if Fades(Amplitude(c.regsA[EnvDataReg]), c.regsA[Env0Reg]) {
        StopTimers(s, ch, c, c');
      } else if NextAmplitude(Amplitude(c.regsA[EnvDataReg]), c.regsA[Env0Reg]) == Target(c.regsA[Env0Reg]) {
        WithChannelTimers(s, ch, c, Advance(c', mem));
      } else {
        WithChannelTimers(s, ch, c, c');
      }
    }
  }

  lemma WithChannelTimers(s: State, ch: Chan, c: Channel, c': Channel)
    requires c'.(regsA := c.regsA) == c
    ensures var r := WithChannel(s, ch, c').channels[ch];
      r.envelopeFrame == c.envelopeFrame && r.rampDownFrame == c.rampDownFrame
  {
  }

  lemma StopTimers(s: State, ch: Chan, c: Channel, c': Channel)
    requires c'.(regsA := c.regsA) == c
    ensures var r := Stop(WithChannel(s, ch, c'), ch).channels[ch];
      r.envelopeFrame == c.envelopeFrame && r.rampDownFrame == c.rampDownFrame
  {
  }

  lemma WithChannelValid(s: State, ch: Chan, c: Channel, c': Channel)
    requires ChannelValid(c) && c'.(regsA := c.regsA) == c
    ensures ChannelValid(WithChannel(s, ch, c').channels[ch])
  {
  }

  lemma StopOwnValid(s: State, ch: Chan, c: Channel, c': Channel)
    requires ChannelValid(c) && c'.(regsA := c.regsA) == c
    ensures ChannelValid(Stop(WithChannel(s, ch, c'), ch).channels[ch])
  {
  }

  /** `SPU_TickEnvelope` keeps the decoder invariant of every channel. */
  lemma EnvelopeValid(s: State, ch: Chan, mem: Memory)
    requires Valid(s)
    ensures Valid(TickEnvelope(s, ch, mem))
  {
    var r := TickEnvelope(s, ch, mem);
    EnvelopeFrame(s, ch, mem);
    EnvelopeOwnValid(s, ch, mem);
    forall j: Chan ensures ChannelValid(r.channels[j]) {
      if j != ch {
        assert r.channels[j] == s.channels[j];
      }
    }
  }
}
