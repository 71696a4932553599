/** The wave decoders of `SPU_TickSample` (src/core/spu.c:181-295): each
    decode step reads bus words at a 22-bit wave address, produces the next
    `waveData` word and advances the address and the shift cursor; the end
    sentinel either stops the channel (one-shot mode) or jumps back to the
    loop address. The number of steps, which the C code derives from a
    floating-point accumulator, is an input here. */
module Decoder {
  import opened Bits
  import opened Masks
  import opened Layout
  import opened Adpcm
  import opened SpuState

  /** `Bus_Load`: the bus, read-only, as a function of the address. */
  type Memory = Addr -> Word

  /** The state of a decode loop: the unit and the local `waveAddr`. */
  datatype Cursor = Cursor(s: State, addr: Addr)

  /** What the end sentinel resets when the channel loops: nothing in 16-bit
      mode, the shift cursor in 8-bit mode, the cursor and the ADPCM history
      in the two ADPCM modes. */
  datatype Rewind = KeepShift | ClearShift | ClearAdpcm

  /** `waveAddr | (mode.waveHi << 16)` (line 196). */
  function WaveAddress(c: Channel): Addr
  {
    Join(c.regsA[WaveAddrReg], WaveHi(c.regsA[ModeReg]))
  }

  /** `loopAddr | (mode.loopHi << 16)` (lines 214, 229, 252, 282). */
  function LoopAddress(c: Channel): Addr
  {
    Join(c.regsA[LoopAddrReg], LoopHi(c.regsA[ModeReg]))
  }

  predicate OneShot(c: Channel)
  {
    PlayMode(c.regsA[ModeReg]) == 1
  }

  /** The sentinel branch shared by the four loops. */
  function AtEnd(s: State, ch: Chan, addr: Addr, rewind: Rewind): Cursor
  {
    var c := s.channels[ch];
    if OneShot(c) then Cursor(Stop(s, ch), addr)
    else Cursor(WithChannel(s, ch, Rewound(c, rewind)), LoopAddress(c))
  }

  /** The channel record after the reset of a looping channel. */
  function Rewound(c: Channel, rewind: Rewind): Channel
  {
    match rewind
    case KeepShift => c
    case ClearShift => c.(pcmShift := 0)
    case ClearAdpcm => c.(pcmShift := 0, adpcmLast := 0, adpcmIndex := 0)
  }

  /** A one-shot channel that meets the sentinel is stopped where it is; a
      looping one jumps to its loop address with the rewind applied. Either
      way nothing else about the channel's position changes. */
  lemma AtEndCases(s: State, ch: Chan, addr: Addr, rewind: Rewind)
    ensures var r := AtEnd(s, ch, addr, rewind);
      var c := s.channels[ch];
      && (OneShot(c) ==> r == Cursor(Stop(s, ch), addr) && !Has(r.s.regs[EnableReg], ch))
      && (!OneShot(c) ==>
            && r.addr == LoopAddress(c) && r.s.regs == s.regs
            && (rewind != KeepShift ==> r.s.channels[ch].pcmShift == 0)
            && (rewind == KeepShift ==> r.s.channels[ch].pcmShift == c.pcmShift)
            && (rewind == ClearAdpcm ==> r.s.channels[ch].adpcmLast == 0 && r.s.channels[ch].adpcmIndex == 0)
            && r.s.channels[ch].regsA == c.regsA)
  {
    if OneShot(s.channels[ch]) {
      ClearAt(s.regs[EnableReg], ch, ch);
    } else {
      AtEndLoops(s, ch, addr, rewind);
    }
  }

  lemma AtEndLoops(s: State, ch: Chan, addr: Addr, rewind: Rewind)
    requires !OneShot(s.channels[ch])
    ensures var r := AtEnd(s, ch, addr, rewind);
      var c := s.channels[ch];
      && r.addr == LoopAddress(c) && r.s.regs == s.regs
      && (rewind != KeepShift ==> r.s.channels[ch].pcmShift == 0)
      && (rewind == KeepShift ==> r.s.channels[ch].pcmShift == c.pcmShift)
      && (rewind == ClearAdpcm ==> r.s.channels[ch].adpcmLast == 0 && r.s.channels[ch].adpcmIndex == 0)
      && r.s.channels[ch].regsA == c.regsA
  {
  }

  /** What one pass of a decode loop leaves before its sentinel test: the
      updated channel record, the advanced address and whether the word (or
      byte) now under the cursor is the end sentinel. */
  datatype Fetched = Fetched(c: Channel, addr: Addr, atEnd: bool)

  /** The sentinel test that closes every pass: the channel record goes back
      into the unit, then the sentinel branch runs if the test hit. */
  function Finish(s: State, ch: Chan, f: Fetched, rewind: Rewind): Cursor
  {
    var s' := WithChannel(s, ch, f.c);
    if f.atEnd then AtEnd(s', ch, f.addr, rewind) else Cursor(s', f.addr)
  }

  /** The channel-local part of a pass of the 8-bit PCM loop (lines 200-212):
      the byte at the shift cursor becomes the high byte of `waveData`; the
      cursor moves by 8 and wraps to the next word past 8; the byte then
      under the cursor is tested against 0xff. */
  function Fetch8(c: Channel, a: Addr, mem: Memory): Fetched
    requires ChannelValid(c)
  {
    var data := ((mem(a) >> c.pcmShift) & 0xff) << 8;
    var shift := c.pcmShift + 8;
    var a' := if shift > 8 then a + 1 else a;
    var shift' := if shift > 8 then 0 else shift;
    Fetched(c.(regsA := c.regsA[WaveDataReg := data], pcmShift := shift'), a', (mem(a') >> shift') & 0xff == 0xff)
  }

  /** The channel-local part of a pass of the 16-bit PCM loop (lines 222-226):
      the whole word is the sample and the next word is tested against 0xffff. */
  function Fetch16(c: Channel, a: Addr, mem: Memory): Fetched
  {
    Fetched(c.(regsA := c.regsA[WaveDataReg := mem(a)]), a + 1, mem(a + 1) == 0xffff)
  }

  /** The word an ADPCM sample is stored as (line 242): shifted left by 2
      within 16 bits, then offset to unsigned by flipping the sign bit. */
  function AdpcmWord(sample: int): Word
  {
    (ToWord(sample) << 2) ^ 0x8000
  }

  /** The channel-local part of a pass of the ADPCM loop (lines 238-248): the
      nybble at the cursor is decoded against the history; the cursor moves
      by 4 and wraps to the next word at 16; the word then under the cursor
      is tested against 0xffff. */
  function FetchAdpcm(c: Channel, a: Addr, mem: Memory): Fetched
    requires ChannelValid(c)
  {
    var nybble := (mem(a) >> c.pcmShift) & 0xf;
    var out := AdpcmDecode(c.adpcmLast, c.adpcmIndex, nybble);
    var shift := c.pcmShift + 4;
    var a' := if shift >= 16 then a + 1 else a;
    var c' := c.(regsA := c.regsA[WaveDataReg := AdpcmWord(out.sample)],
                 adpcmLast := out.sample, adpcmIndex := out.index,
                 pcmShift := if shift >= 16 then 0 else shift);
    Fetched(c', a', mem(a') == 0xffff)
  }

  /** Lines 263-266: at the start of a block the header word is read and the
      word counter set to 8. */
  function BlockStart(c: Channel, a: Addr, mem: Memory): (r: (Channel, Addr))
    ensures r.0.adpcm36Remaining >= 1
  {
    if c.adpcm36Remaining == 0 then (c.(adpcm36Header := mem(a), adpcm36Remaining := 8), a + 1)
    else (c, a)
  }

  /** The channel-local part of a pass of the ADPCM36 loop (lines 262-276):
      a header word opens every block of 8 data words; each nybble is
      predicted from the two previous samples; the word then under the
      cursor is tested against 0xffff. */
  function Fetch36(c0: Channel, a: Addr, mem: Memory): Fetched
    requires ChannelValid(c0)
  {
    var (c, a1) := BlockStart(c0, a, mem);
    var nybble := (mem(a1) >> c.pcmShift) & 0xf;
    var sample := Adpcm36Decode(c.adpcm36Header, c.adpcm36Prev0, c.adpcm36Prev1, nybble);
    var shift := c.pcmShift + 4;
    var wrap := shift >= 16;
    var a2 := if wrap then a1 + 1 else a1;
    var c' := c.(regsA := c.regsA[WaveDataReg := Adpcm36Word(sample)],
                 adpcm36Prev1 := c.adpcm36Prev0, adpcm36Prev0 := sample,
                 pcmShift := if wrap then 0 else shift,
                 adpcm36Remaining := if wrap then c.adpcm36Remaining - 1 else c.adpcm36Remaining);
    Fetched(c', a2, mem(a2) == 0xffff)
  }

  /** The channel-local part of a pass in PCM mode `pcm`. */
  function Fetch(c: Channel, pcm: Word, a: Addr, mem: Memory): (f: Fetched)
    requires pcm < 4 && ChannelValid(c)
    ensures ChannelValid(f.c)
    ensures f.c.regsA == c.regsA[WaveDataReg := f.c.regsA[WaveDataReg]] && f.c.regsB == c.regsB
  {
    if pcm == 0 then Fetch8(c, a, mem)
    else if pcm == 1 then Fetch16(c, a, mem)
    else if pcm == 2 then FetchAdpcm(c, a, mem)
    else Fetch36(c, a, mem)
  }

  /** What the sentinel resets in PCM mode `pcm` when the channel loops. */
  function RewindOf(pcm: Word): Rewind
  {
    if pcm == 0 then ClearShift else if pcm == 1 then KeepShift else ClearAdpcm
  }

  /** One pass of the decode loop in the mode chosen when the loop began:
      the `switch` reads `mode.pcmMode` once, so a stop inside the loop
      (which selects 8-bit mode) does not change the decoder for the
      remaining passes. */
  function Step(s: State, ch: Chan, pcm: Word, a: Addr, mem: Memory): (r: Cursor)
    requires pcm < 4 && ChannelValid(s.channels[ch])
    ensures ChannelValid(r.s.channels[ch]) && StepFrame(r.s, s, ch)
  {
    var f := Fetch(s.channels[ch], pcm, a, mem);
    FinishValid(s, ch, f, RewindOf(pcm));
    FinishFrame(s, ch, f, RewindOf(pcm));
    Finish(s, ch, f, RewindOf(pcm))
  }

  /** `n` passes of the decode loop. */
  function DecodeSteps(s: State, ch: Chan, pcm: Word, a: Addr, n: nat, mem: Memory): (r: Cursor)
    requires pcm < 4 && ChannelValid(s.channels[ch])
    ensures ChannelValid(r.s.channels[ch]) && StepFrame(r.s, s, ch)
    decreases n
  {
    if n == 0 then Cursor(s, a)
    else
      var c := Step(s, ch, pcm, a, mem);
      var r := DecodeSteps(c.s, ch, pcm, c.addr, n - 1, mem);
      StepFrameChain(s, c.s, r.s, ch);
      r
  }

  /** Lines 291-292: the local address goes back as a low word and the six
      high bits of `mode.waveHi`. */
  function StoreAddress(s: State, ch: Chan, addr: Addr): State
  {
    WithChannel(s, ch, Stored(s.channels[ch], addr))
  }

  /** The channel record with `addr` stored as its wave address. */
  function Stored(c: Channel, addr: Addr): Channel
  {
    c.(regsA := c.regsA[WaveAddrReg := Low(addr)][ModeReg := WithWaveHi(c.regsA[ModeReg], High6(addr))])
  }

  /** The channel after line 184: `prevWaveData` takes the current word. */
  function SavePrev(c: Channel): Channel
  {
    c.(regsA := c.regsA[PrevWaveDataReg := c.regsA[WaveDataReg]])
  }

  /** `SPU_TickSample` with the step count `steps` as an input: the current
      word is saved as `prevWaveData`; without steps nothing else happens;
      otherwise the loop of the channel's mode runs `steps` times from the
      channel's wave address and the final address is stored back. */
  function TickSample(s: State, ch: Chan, steps: nat, mem: Memory): State
    requires ChannelValid(s.channels[ch])
  {
    var c := s.channels[ch];
    var s1 := WithChannel(s, ch, SavePrev(c));
    if steps < 1 then s1
    else
      var r := DecodeSteps(s1, ch, PcmMode(c.regsA[ModeReg]), WaveAddress(c), steps, mem);
      StoreAddress(r.s, ch, r.addr)
  }

  // ---- the sentinel test

  /** A pass that stops its channel. */
  lemma FinishStop(s: State, ch: Chan, f: Fetched, rewind: Rewind)
    requires f.atEnd && OneShot(f.c)
    ensures Finish(s, ch, f, rewind) == Cursor(Stop(WithChannel(s, ch, f.c), ch), f.addr)
  {
  }

  /** A pass that keeps its channel running stores the channel record, with
      the rewind applied when it looped. */
  lemma FinishRun(s: State, ch: Chan, f: Fetched, rewind: Rewind)
    requires !(f.atEnd && OneShot(f.c))
    ensures var r := Finish(s, ch, f, rewind);
      && r.s.regs == s.regs
      && (forall j: Chan :: j != ch ==> r.s.channels[j] == s.channels[j])
      && r.s.(channels := s.channels) == s
      && r.s.channels[ch].regsA == f.c.regsA
      && (f.atEnd ==> r.addr == LoopAddress(f.c))
      && (!f.atEnd ==> r.addr == f.addr && r.s.channels[ch] == f.c)
  {
  }

  /** The sentinel test keeps the channel invariant. */
  lemma FinishValid(s: State, ch: Chan, f: Fetched, rewind: Rewind)
    requires ChannelValid(f.c)
    ensures ChannelValid(Finish(s, ch, f, rewind).s.channels[ch])
  {
    if f.atEnd && OneShot(f.c) {
      FinishStop(s, ch, f, rewind);
    } else {
      FinishRun(s, ch, f, rewind);
      assert f.atEnd ==> Finish(s, ch, f, rewind).s.channels[ch] == AtEnd(WithChannel(s, ch, f.c), ch, f.addr, rewind).s.channels[ch];
    }
  }

  /** The sentinel test writes no channel register other than the mode word
      (which a stop changes). */
  lemma FinishKeepsReg(s: State, ch: Chan, f: Fetched, rewind: Rewind, k: nat)
    requires k < 16 && k != ModeReg
    ensures Finish(s, ch, f, rewind).s.channels[ch].regsA[k] == f.c.regsA[k]
  {
    if f.atEnd && OneShot(f.c) {
      FinishStop(s, ch, f, rewind);
    } else {
      FinishRun(s, ch, f, rewind);
    }
  }

  // ---- what one step does

  /** A step writes no channel register other than the sample word and the
      mode word. */
  lemma StepKeepsReg(s: State, ch: Chan, pcm: Word, a: Addr, mem: Memory, k: nat)
    requires pcm < 4 && ChannelValid(s.channels[ch])
    requires k < 16 && k != ModeReg && k != WaveDataReg
    ensures Step(s, ch, pcm, a, mem).s.channels[ch].regsA[k] == s.channels[ch].regsA[k]
  {
    FinishKeepsReg(s, ch, Fetch(s.channels[ch], pcm, a, mem), RewindOf(pcm), k);
  }

  /** The decode loop writes no channel register other than the sample word
      and the mode word. */
  lemma {:induction false} DecodeKeepsReg(s: State, ch: Chan, pcm: Word, a: Addr, n: nat, mem: Memory, k: nat)
    requires pcm < 4 && ChannelValid(s.channels[ch])
    requires k < 16 && k != ModeReg && k != WaveDataReg
    ensures DecodeSteps(s, ch, pcm, a, n, mem).s.channels[ch].regsA[k] == s.channels[ch].regsA[k]
    decreases n
  {
    if n > 0 {
      var c := Step(s, ch, pcm, a, mem);
      StepKeepsReg(s, ch, pcm, a, mem, k);
      DecodeKeepsReg(c.s, ch, pcm, c.addr, n - 1, mem, k);
    }
  }

  /** After `SPU_TickSample`, `prevWaveData` holds the word the channel had
      on entry, whatever the mode and the number of steps. */
  lemma TickSamplePrev(s: State, ch: Chan, steps: nat, mem: Memory)
    requires ChannelValid(s.channels[ch])
    ensures TickSample(s, ch, steps, mem).channels[ch].regsA[PrevWaveDataReg] == s.channels[ch].regsA[WaveDataReg]
  {
    if steps >= 1 {
      var c := s.channels[ch];
      var s1 := WithChannel(s, ch, SavePrev(c));
      DecodeKeepsReg(s1, ch, PcmMode(c.regsA[ModeReg]), WaveAddress(c), steps, mem, PrevWaveDataReg);
    }
  }

  /** What a step leaves of the rest of the unit: the other channels and the
      scalar fields are untouched, and the global registers are either kept
      or those of stopping the channel. */
  ghost predicate StepFrame(r: State, s: State, ch: Chan)
  {
    && (forall j: Chan :: j != ch ==> r.channels[j] == s.channels[j])
    && r.(regs := s.regs, channels := s.channels) == s
    && (r.regs == s.regs || r.regs == Stop(s, ch).regs)
  }

  /** Replacing a channel's record is a frame. */
  lemma WithChannelFrame(s: State, ch: Chan, c: Channel)
    ensures StepFrame(WithChannel(s, ch, c), s, ch)
  {
  }

  /** Replacing a channel's record and then stopping it is a frame. */
  lemma StopFrame(s: State, ch: Chan, c: Channel)
    ensures StepFrame(Stop(WithChannel(s, ch, c), ch), s, ch)
  {
    StopBits(WithChannel(s, ch, c), ch);
  }

  lemma FinishFrame(s: State, ch: Chan, f: Fetched, rewind: Rewind)
    ensures StepFrame(Finish(s, ch, f, rewind).s, s, ch)
  {
    if f.atEnd && OneShot(f.c) {
      FinishStop(s, ch, f, rewind);
      StopBits(WithChannel(s, ch, f.c), ch);
    } else {
      FinishRun(s, ch, f, rewind);
    }
  }

  /** Stopping again after a stop leaves the global registers as they are. */
  lemma StopRegsTwice(s: State, t: State, ch: Chan)
    requires t.regs == Stop(s, ch).regs
    ensures Stop(t, ch).regs == t.regs
  {
    ClearTwice(s.regs[EnableReg], ch);
    ClearTwice(s.regs[RampDownReg], ch);
    ClearTwice(s.regs[StatReg], ch);
    ClearTwice(s.regs[ToneReleaseReg], ch);
  }

  /** Two frames in a row are a frame. */
  lemma StepFrameChain(s: State, m: State, r: State, ch: Chan)
    requires StepFrame(m, s, ch) && StepFrame(r, m, ch)
    ensures StepFrame(r, s, ch)
  {
    if m.regs == Stop(s, ch).regs {
      StopRegsTwice(s, m, ch);
    }
  }

  /** `SPU_TickSample` leaves the other channels and the scalars of the unit
      alone and changes the global registers only by stopping the channel. */
  lemma TickSampleFrame(s: State, ch: Chan, steps: nat, mem: Memory)
    requires ChannelValid(s.channels[ch])
    ensures StepFrame(TickSample(s, ch, steps, mem), s, ch)
  {
    var c := s.channels[ch];
    var s1 := WithChannel(s, ch, SavePrev(c));
    WithChannelFrame(s, ch, SavePrev(c));
    if steps >= 1 {
      var d := DecodeSteps(s1, ch, PcmMode(c.regsA[ModeReg]), WaveAddress(c), steps, mem);
      StepFrameChain(s, s1, d.s, ch);
      var e := d.s.channels[ch];
      WithChannelFrame(d.s, ch, e.(regsA := e.regsA[WaveAddrReg := Low(d.addr)][ModeReg := WithWaveHi(e.regsA[ModeReg], High6(d.addr))]));
      StepFrameChain(s, d.s, StoreAddress(d.s, ch, d.addr), ch);
    }
  }

  lemma TickSampleOwnValid(s: State, ch: Chan, steps: nat, mem: Memory)
    requires ChannelValid(s.channels[ch])
    ensures ChannelValid(TickSample(s, ch, steps, mem).channels[ch])
  {
    var c := s.channels[ch];
    var s1 := WithChannel(s, ch, SavePrev(c));
    if steps >= 1 {
      var d := DecodeSteps(s1, ch, PcmMode(c.regsA[ModeReg]), WaveAddress(c), steps, mem);
      assert ChannelValid(d.s.channels[ch]);
      assert StoreAddress(d.s, ch, d.addr).channels[ch].pcmShift == d.s.channels[ch].pcmShift;
    }
  }

  /** `SPU_TickSample` keeps the invariant of every channel. */
  lemma TickSampleValid(s: State, ch: Chan, steps: nat, mem: Memory)
    requires Valid(s)
    ensures Valid(TickSample(s, ch, steps, mem))
  {
    var r := TickSample(s, ch, steps, mem);
    TickSampleFrame(s, ch, steps, mem);
    TickSampleOwnValid(s, ch, steps, mem);
    forall j: Chan ensures ChannelValid(r.channels[j]) {
      if j != ch {
        assert r.channels[j] == s.channels[j];
      }
    }
  }

  // ---- the end sentinel, pass by pass

  /** What a pass does at the end of a sample, in every mode: without the
      sentinel the fetched record and address stand; a one-shot channel is
      stopped where it is (its enable bit is cleared); a looping one jumps
      to its loop address with the shift cursor cleared (except in 16-bit
      mode) and, in the two ADPCM modes, the ADPCM history cleared. */
  lemma StepSentinel(s: State, ch: Chan, pcm: Word, a: Addr, mem: Memory)
    requires pcm < 4 && ChannelValid(s.channels[ch])
    ensures var c := s.channels[ch];
      var f := Fetch(c, pcm, a, mem);
      var r := Step(s, ch, pcm, a, mem);
      && (!f.atEnd ==> r == Cursor(WithChannel(s, ch, f.c), f.addr))
      && (f.atEnd && OneShot(c) ==>
            r == Cursor(Stop(WithChannel(s, ch, f.c), ch), f.addr) && !Has(r.s.regs[EnableReg], ch))
      && (f.atEnd && !OneShot(c) ==>
            && r.addr == LoopAddress(c) && r.s.regs == s.regs
            && r.s.channels[ch].regsA == f.c.regsA
            && (pcm != 1 ==> r.s.channels[ch].pcmShift == 0)
            && (pcm == 1 ==> r.s.channels[ch].pcmShift == f.c.pcmShift)
            && (pcm >= 2 ==> r.s.channels[ch].adpcmLast == 0 && r.s.channels[ch].adpcmIndex == 0))
  {
    var c := s.channels[ch];
    var f := Fetch(c, pcm, a, mem);
    FinishSentinel(s, ch, f, pcm);
  }

  /** The sentinel test of a pass whose record kept the channel's mode word
      and loop address. */
  lemma FinishSentinel(s: State, ch: Chan, f: Fetched, pcm: Word)
    requires f.c.regsA[ModeReg] == s.channels[ch].regsA[ModeReg]
    requires f.c.regsA[LoopAddrReg] == s.channels[ch].regsA[LoopAddrReg]
    ensures var c := s.channels[ch];
      var r := Finish(s, ch, f, RewindOf(pcm));
      && (!f.atEnd ==> r == Cursor(WithChannel(s, ch, f.c), f.addr))
      && (f.atEnd && OneShot(c) ==>
            r == Cursor(Stop(WithChannel(s, ch, f.c), ch), f.addr) && !Has(r.s.regs[EnableReg], ch))
      && (f.atEnd && !OneShot(c) ==>
            && r.addr == LoopAddress(c) && r.s.regs == s.regs
            && r.s.channels[ch].regsA == f.c.regsA
            && (pcm != 1 ==> r.s.channels[ch].pcmShift == 0)
            && (pcm == 1 ==> r.s.channels[ch].pcmShift == f.c.pcmShift)
            && (pcm >= 2 ==> r.s.channels[ch].adpcmLast == 0 && r.s.channels[ch].adpcmIndex == 0))
  {
    var c := s.channels[ch];
    assert OneShot(f.c) == OneShot(c) && LoopAddress(f.c) == LoopAddress(c);
    if f.atEnd {
      AtEndCases(WithChannel(s, ch, f.c), ch, f.addr, RewindOf(pcm));
    }
  }

  // ---- what each mode decodes

  /** 8-bit PCM: the sample is the byte under the cursor in the high half of
      the word, so its low byte is zero; the cursor alternates between the
      two bytes of a word and moves to the next word after the high one. */
  lemma Fetch8Sample(c: Channel, a: Addr, mem: Memory)
    requires ChannelValid(c)
    ensures var f := Fetch8(c, a, mem);
      && f.c.regsA[WaveDataReg] & 0xff == 0
      && f.c.regsA[WaveDataReg] >> 8 == (mem(a) >> c.pcmShift) & 0xff
      && (c.pcmShift == 0 ==> f.addr == a && f.c.pcmShift == 8)
      && (c.pcmShift != 0 ==> f.addr == a + 1 && f.c.pcmShift == 0)
  {
  }

  /** 16-bit PCM: the sample is the whole word and the address moves by one. */
  lemma Fetch16Sample(c: Channel, a: Addr, mem: Memory)
    ensures var f := Fetch16(c, a, mem);
      f.c.regsA[WaveDataReg] == mem(a) && f.addr == a + 1 && f.c.pcmShift == c.pcmShift
      && (f.atEnd <==> mem(a + 1) == 0xffff)
  {
  }

  /** ADPCM: the nybble under the cursor goes through the IMA-style decoder;
      the decoded sample becomes the new last sample, and the stored word is
      that sample times four with the sign bit flipped; the cursor moves by
      a nybble and on to the next word after the fourth. */
  lemma FetchAdpcmSample(c: Channel, a: Addr, mem: Memory)
    requires ChannelValid(c)
    ensures var f := FetchAdpcm(c, a, mem);
      var out := AdpcmDecode(c.adpcmLast, c.adpcmIndex, (mem(a) >> c.pcmShift) & 0xf);
      && f.c.regsA[WaveDataReg] == AdpcmWord(out.sample)
      && f.c.adpcmLast == out.sample && f.c.adpcmIndex == out.index
      && (c.pcmShift < 12 ==> f.addr == a && f.c.pcmShift == c.pcmShift + 4)
      && (c.pcmShift >= 12 ==> f.addr == a + 1 && f.c.pcmShift == 0)
  {
  }

  /** ADPCM36: a block header is read exactly when the word counter is zero;
      the history shifts by one sample, the new sample being the one
      decoded from the nybble under the cursor, and the stored word is that
      sample with the sign bit flipped; the counter stays within a block. */
  lemma Fetch36Sample(c: Channel, a: Addr, mem: Memory)
    requires ChannelValid(c)
    ensures var f := Fetch36(c, a, mem);
      var start := c.adpcm36Remaining == 0;
      var header := if start then mem(a) else c.adpcm36Header;
      var a1 := if start then a + 1 else a;
      var sample := Adpcm36Decode(header, c.adpcm36Prev0, c.adpcm36Prev1, (mem(a1) >> c.pcmShift) & 0xf);
      && f.c.adpcm36Header == header
      && f.c.adpcm36Prev1 == c.adpcm36Prev0 && f.c.adpcm36Prev0 == sample
      && f.c.regsA[WaveDataReg] == Adpcm36Word(sample)
      && f.c.adpcm36Remaining == (if start then 8 else c.adpcm36Remaining) - (if c.pcmShift >= 12 then 1 else 0)
  {
    var (c1, a1) := BlockStart(c, a, mem);
    assert c1.adpcm36Header == (if c.adpcm36Remaining == 0 then mem(a) else c.adpcm36Header);
    assert a1 == (if c.adpcm36Remaining == 0 then a + 1 else a);
    assert c1.pcmShift == c.pcmShift && c1.adpcm36Prev0 == c.adpcm36Prev0 && c1.adpcm36Prev1 == c.adpcm36Prev1;
  }

  /** The sentinel test keeps the ADPCM36 state that the fetch left: neither
      a stop nor a loop rewind touches it. */
  lemma FinishKeepsBlock(s: State, ch: Chan, f: Fetched, rewind: Rewind)
    ensures var r := Finish(s, ch, f, rewind).s.channels[ch];
      r.adpcm36Prev0 == f.c.adpcm36Prev0 && r.adpcm36Prev1 == f.c.adpcm36Prev1
      && r.adpcm36Header == f.c.adpcm36Header && r.adpcm36Remaining == f.c.adpcm36Remaining
  {
    if f.atEnd && OneShot(f.c) {
      FinishStop(s, ch, f, rewind);
    } else {
      FinishRun(s, ch, f, rewind);
      assert f.atEnd ==> Finish(s, ch, f, rewind).s.channels[ch] == AtEnd(WithChannel(s, ch, f.c), ch, f.addr, rewind).s.channels[ch];
    }
  }

  /** A pass in ADPCM36 mode shifts the prediction history by one sample,
      even when it meets the end of the sample. */
  lemma Step36History(s: State, ch: Chan, a: Addr, mem: Memory)
    requires ChannelValid(s.channels[ch])
    ensures var c := s.channels[ch];
      var r := Step(s, ch, 3, a, mem).s.channels[ch];
      && r.adpcm36Prev1 == c.adpcm36Prev0
      && r.regsA[WaveDataReg] == Adpcm36Word(r.adpcm36Prev0)
  {
    var c := s.channels[ch];
    var f := Fetch(c, 3, a, mem);
    Fetch36Sample(c, a, mem);
    FinishKeepsBlock(s, ch, f, ClearAdpcm);
    FinishKeepsReg(s, ch, f, ClearAdpcm, WaveDataReg);
  }

  /** In 8-bit mode every pass leaves a sample word with a zero low byte. */
  lemma {:induction false} DecodeLowByte(s: State, ch: Chan, a: Addr, n: nat, mem: Memory)
    requires ChannelValid(s.channels[ch]) && n >= 1
    ensures DecodeSteps(s, ch, 0, a, n, mem).s.channels[ch].regsA[WaveDataReg] & 0xff == 0
    decreases n
  {
    var c := Step(s, ch, 0, a, mem);
    if n == 1 {
      Fetch8Sample(s.channels[ch], a, mem);
      FinishKeepsReg(s, ch, Fetch(s.channels[ch], 0, a, mem), ClearShift, WaveDataReg);
    } else {
      DecodeLowByte(c.s, ch, c.addr, n - 1, mem);
    }
  }

  /** A channel in 8-bit mode that decoded at least one sample holds a
      sample word with a zero low byte. */
  lemma TickSampleLowByte(s: State, ch: Chan, steps: nat, mem: Memory)
    requires ChannelValid(s.channels[ch]) && steps >= 1
    requires PcmMode(s.channels[ch].regsA[ModeReg]) == 0
    ensures TickSample(s, ch, steps, mem).channels[ch].regsA[WaveDataReg] & 0xff == 0
  {
    var c := s.channels[ch];
    DecodeLowByte(WithChannel(s, ch, SavePrev(c)), ch, WaveAddress(c), steps, mem);
  }

  /** The address the decode loop of `SPU_TickSample` ends on. */
  function EndAddress(s: State, ch: Chan, steps: nat, mem: Memory): Addr
    requires ChannelValid(s.channels[ch])
  {
    var c := s.channels[ch];
    DecodeSteps(WithChannel(s, ch, SavePrev(c)), ch, PcmMode(c.regsA[ModeReg]), WaveAddress(c), steps, mem).addr
  }

  /** The low 22 bits of an address. */
  function Low22(a: Addr): Addr
  {
    a & 0x3f_ffff
  }

  /** Storing an address keeps exactly its low 22 bits: reading it back as
      `waveAddr | waveHi << 16` gives `a & 0x3fffff`. */
  lemma StoreAddressSplit(t: State, ch: Chan, a: Addr)
    ensures var r := StoreAddress(t, ch, a).channels[ch];
      && r.regsA[WaveAddrReg] == Low(a) && WaveHi(r.regsA[ModeReg]) == High6(a)
      && WaveAddress(r) == Low22(a)
  {
    var r := StoreAddress(t, ch, a).channels[ch];
    StoredSplit(t.channels[ch].regsA[ModeReg], a);
    assert WaveAddress(r) == Join(Low(a), High6(a));
  }

  /** The address the loop ends on goes back as its low 16 bits and its next
      six bits: reading it back as `waveAddr | waveHi << 16` gives its low
      22 bits. */
  lemma TickSampleAddress(s: State, ch: Chan, steps: nat, mem: Memory)
    requires ChannelValid(s.channels[ch]) && steps >= 1
    ensures TickSample(s, ch, steps, mem).channels[ch].regsA[WaveAddrReg] == Low(EndAddress(s, ch, steps, mem))
    ensures WaveHi(TickSample(s, ch, steps, mem).channels[ch].regsA[ModeReg]) == High6(EndAddress(s, ch, steps, mem))
    ensures WaveAddress(TickSample(s, ch, steps, mem).channels[ch]) == Low22(EndAddress(s, ch, steps, mem))
  {
    var c := s.channels[ch];
    var d := DecodeSteps(WithChannel(s, ch, SavePrev(c)), ch, PcmMode(c.regsA[ModeReg]), WaveAddress(c), steps, mem);
    StoreAddressSplit(d.s, ch, d.addr);
  }

  /** The two stores of lines 291-292 at word level. */
  lemma StoredSplit(mode: Word, a: Addr)
    ensures var m := WithWaveHi(mode, High6(a));
      WaveHi(m) == High6(a) && Join(Low(a), High6(a)) == a & 0x3f_ffff
  {
    var h := High6(a);
    assert h & 0x3f == h;
    SplitJoin(a);
  }

  /** Without a step the channel keeps its sample word, its address, its
      cursor and its decoder history; only `prevWaveData` is written. */
  lemma TickSampleIdle(s: State, ch: Chan, mem: Memory)
    requires ChannelValid(s.channels[ch])
    ensures var c := s.channels[ch];
      var r := TickSample(s, ch, 0, mem);
      && r.regs == s.regs
      && r.channels[ch].regsA[WaveDataReg] == c.regsA[WaveDataReg]
      && WaveAddress(r.channels[ch]) == WaveAddress(c)
      && r.channels[ch].pcmShift == c.pcmShift
      && r.channels[ch].adpcmLast == c.adpcmLast && r.channels[ch].adpcmIndex == c.adpcmIndex
      && r.channels[ch].adpcm36Prev0 == c.adpcm36Prev0 && r.channels[ch].adpcm36Prev1 == c.adpcm36Prev1
  {
  }
}
