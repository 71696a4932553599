/** The CPU-facing register interface: `SPU_Read` and `SPU_Write`
    (src/core/spu.c:491-616). A 16-bit bus address selects one of three
    register files by bits 8-11: per-channel block A (0x0000), per-channel
    block B (0x0200) and the global block (0x0400); every other block reads
    as zero and ignores writes. */
module Registers {
  import opened Bits
  import opened Masks
  import opened Layout
  import opened SpuState

  /** The register an address reaches. */
  datatype Target =
    | RegA(ch: Chan, reg: nat)
    | RegB(ch: Chan, reg: nat)
    | Glob(reg: nat)
    | Unmapped

  /** A target whose register number lies inside its block. */
  predicate InRange(t: Target)
  {
    match t
    case RegA(_, reg) => reg < 16
    case RegB(_, reg) => reg < 8
    case Glob(reg) => reg < 32
    case Unmapped => true
  }

  /** The address decoding shared by lines 514-529 and 559-614: block A takes
      the channel from bits 4-7 and the register from bits 0-3, block B the
      channel from bits 4-7 and the register from bits 0-2, the global block
      the register from bits 0-4. */
  function Decode(addr: Word): (t: Target)
    ensures InRange(t)
    ensures t.Unmapped? <==> addr & 0x0f00 != 0x0000 && addr & 0x0f00 != 0x0200 && addr & 0x0f00 != 0x0400
  {
    var block := addr & 0x0f00;
    if block == 0x0000 then RegA(((addr >> 4) & 0xf) as Chan, (addr & 0xf) as int)
    else if block == 0x0200 then RegB(((addr >> 4) & 0xf) as Chan, (addr & 0x7) as int)
    else if block == 0x0400 then Glob((addr & 0x1f) as int)
    else Unmapped
  }

  /** The canonical address of a register: the block number, the channel in
      bits 4-7 and the register number in the low bits. */
  function Encode(t: Target): Word
    requires InRange(t)
  {
    match t
    case RegA(ch, reg) => ((ch as Word) << 4) | (reg as Word)
    case RegB(ch, reg) => 0x0200 | ((ch as Word) << 4) | (reg as Word)
    case Glob(reg) => 0x0400 | (reg as Word)
    case Unmapped => 0x0100
  }

  lemma ChannelField(ch: Chan, reg: Word)
    requires reg < 16
    ensures ((((ch as Word) << 4) | reg) >> 4) & 0xf == ch as Word
    ensures (((ch as Word) << 4) | reg) & 0xf == reg
    ensures (((ch as Word) << 4) | reg) & 0x0f00 == 0
  {
  }

  lemma ChannelFieldB(ch: Chan, reg: Word)
    requires reg < 8
    ensures (((0x0200 | ((ch as Word) << 4) | reg)) >> 4) & 0xf == ch as Word
    ensures (0x0200 | ((ch as Word) << 4) | reg) & 0x7 == reg
    ensures (0x0200 | ((ch as Word) << 4) | reg) & 0x0f00 == 0x0200
  {
  }

  lemma GlobalField(reg: Word)
    requires reg < 32
    ensures (0x0400 | reg) & 0x1f == reg && (0x0400 | reg) & 0x0f00 == 0x0400
  {
  }

  lemma SmallWord(reg: nat)
    requires reg < 32
    ensures (reg as Word) as int == reg
  {
  }

  lemma NarrowBack(ch: Chan)
    ensures ((ch as Word) as Chan) == ch
  {
  }

  /** Every register has an address that reaches it. */
  lemma DecodeEncode(t: Target)
    requires InRange(t)
    ensures Decode(Encode(t)) == t
  {
    match t
    case RegA(ch, reg) =>
      ChannelField(ch, reg as Word);
      NarrowBack(ch);
      SmallWord(reg);
    case RegB(ch, reg) =>
      ChannelFieldB(ch, reg as Word);
      NarrowBack(ch);
      SmallWord(reg);
    case Glob(reg) =>
      GlobalField(reg as Word);
      SmallWord(reg);
    case Unmapped =>
  }

  /** The canonical address of a register reads and writes that register. */
  lemma EncodeReaches(s: State, t: Target, data: Word)
    requires InRange(t)
    ensures Read(s, Encode(t)) == ReadReg(s, t) && Write(s, Encode(t), data) == WriteReg(s, t, data)
  {
    DecodeEncode(t);
  }

  /** `SPU_Read`: the addressed register, or zero outside the three blocks.
      Reads have no side effects. */
  function Read(s: State, addr: Word): Word
  {
    ReadReg(s, Decode(addr))
  }

  function ReadReg(s: State, t: Target): Word
    requires InRange(t)
  {
    match t
    case RegA(ch, reg) => s.channels[ch].regsA[reg]
    case RegB(ch, reg) => s.channels[ch].regsB[reg]
    case Glob(reg) => s.regs[reg]
    case Unmapped => 0
  }

  /** A write to a block A register; registers 0 (wave address) and 1 (mode)
      also reset the phase accumulator (lines 564-571). */
  function WriteA(c: Channel, reg: nat, data: Word): Channel
    requires reg < 16
  {
    if reg == 0x0 || reg == 0x1 then c.(regsA := c.regsA[reg := data], accum := 0.0)
    else c.(regsA := c.regsA[reg := data])
  }

  /** A write to a block B register; registers 0 (phase high) and 4 (phase)
      set a new rate and reset the phase accumulator (lines 580-593). The
      rate itself is floating point and not part of this model. */
  function WriteB(c: Channel, reg: nat, data: Word): Channel
    requires reg < 8
  {
    if reg == 0x0 || reg == 0x4 then c.(regsB := c.regsB[reg := data], accum := 0.0)
    else c.(regsB := c.regsB[reg := data])
  }

  /** A write to the global block (lines 598-614): register 0 goes through
      `SPU_EnableChannels`, register 3 (FIQ status) and register 0xb (stop)
      clear the bits written as one, a FIQ status that drops to zero also
      drops the pending channel IRQ, register 5 goes through
      `SPU_WriteBeatCount`, and every other register is stored. */
  function WriteGlobal(s: State, reg: nat, data: Word): State
    requires reg < 32
  {
    if reg == 0x00 then EnableChannels(s, data)
    else if reg == 0x03 then ClearFiqStat(s, data)
    else if reg == 0x05 then WriteBeatCount(s, data)
    else if reg == 0x0b then s.(regs := s.regs[StopReg := AndNot(s.regs[StopReg], data)])
    else s.(regs := s.regs[reg := data])
  }

  /** Lines 603-607: `fiqStat &= ~data`, and an empty FIQ status drops the
      pending channel IRQ. */
  function ClearFiqStat(s: State, data: Word): State
  {
    var v := AndNot(s.regs[FiqStatReg], data);
    s.(regs := s.regs[FiqStatReg := v], channelIrq := if v == 0 then false else s.channelIrq)
  }

  /** `SPU_Write`. */
  function Write(s: State, addr: Word, data: Word): State
  {
    WriteReg(s, Decode(addr), data)
  }

  function WriteReg(s: State, t: Target, data: Word): State
    requires InRange(t)
  {
    match t
    case RegA(ch, reg) => s.(channels := s.channels[ch := WriteA(s.channels[ch], reg, data)])
    case RegB(ch, reg) => s.(channels := s.channels[ch := WriteB(s.channels[ch], reg, data)])
    case Glob(reg) => WriteGlobal(s, reg, data)
    case Unmapped => s
  }

  /** A global register that a write simply stores. */
  predicate PlainGlobal(reg: nat)
  {
    reg < 32 && reg != 0x00 && reg != 0x03 && reg != 0x05 && reg != 0x0b
  }

  /** A target whose write is a plain store (no side effect on other registers). */
  predicate PlainTarget(t: Target)
  {
    InRange(t) && (t.RegA? || t.RegB? || (t.Glob? && PlainGlobal(t.reg)))
  }

  /** Reading back a plain register gives the word just written. */
  lemma ReadAfterWrite(s: State, t: Target, data: Word)
    requires PlainTarget(t)
    ensures ReadReg(WriteReg(s, t, data), t) == data
  {
  }

  /** The enable mask reads back as the word just written, whatever the
      channels did. */
  lemma ReadAfterEnable(s: State, data: Word)
    ensures ReadReg(WriteReg(s, Glob(0x00), data), Glob(0x00)) == data
  {
    EnableChannelsMask(s, data);
  }

  /** The FIQ status register is write-one-to-clear: it reads back as its
      old value with the bits written as one cleared (per bit:
      `Masks.AndNotBit`). */
  lemma ReadAfterFiqClear(s: State, data: Word)
    ensures ReadReg(WriteReg(s, Glob(0x03), data), Glob(0x03)) == AndNot(s.regs[FiqStatReg], data)
  {
  }

  /** The stop register is write-one-to-clear as well. */
  lemma ReadAfterStopClear(s: State, data: Word)
    ensures ReadReg(WriteReg(s, Glob(0x0b), data), Glob(0x0b)) == AndNot(s.regs[StopReg], data)
  {
  }

  /** Clearing FIQ status bits drops the pending channel IRQ exactly when no
      status bit is left, and otherwise leaves it as it was. */
  lemma FiqStatClear(s: State, data: Word)
    ensures var r := WriteReg(s, Glob(0x03), data);
      && (r.regs[FiqStatReg] == 0 ==> !r.channelIrq)
      && (r.regs[FiqStatReg] != 0 ==> r.channelIrq == s.channelIrq)
      && r.channels == s.channels
  {
  }

  /** The beat-count register reads back with the written count and enable
      bit and with the IRQ bit cleared by a one and otherwise kept. */
  lemma ReadAfterBeatWrite(s: State, data: Word)
    ensures var w := ReadReg(WriteReg(s, Glob(0x05), data), Glob(0x05));
      && BeatCount(w) == BeatCount(data)
      && w & BeatIrqEnableBit == data & BeatIrqEnableBit
      && (w & BeatIrqBit != 0 <==> s.regs[BeatCountReg] & BeatIrqBit != 0 && data & BeatIrqBit == 0)
  {
    assert ReadReg(WriteReg(s, Glob(0x05), data), Glob(0x05)) == BeatMerge(s.regs[BeatCountReg], data);
  }

  /** Outside the three blocks a read gives zero and a write changes nothing. */
  lemma UnmappedInert(s: State, addr: Word, data: Word)
    requires addr & 0x0f00 != 0x0000 && addr & 0x0f00 != 0x0200 && addr & 0x0f00 != 0x0400
    ensures Read(s, addr) == 0 && Write(s, addr, data) == s
  {
  }

  /** A block A store touches only its own register: every other register
      reads as before. */
  lemma WriteFrameA(s: State, ch: Chan, reg: nat, t: Target, data: Word)
    requires reg < 16 && InRange(t) && t != RegA(ch, reg)
    ensures ReadReg(WriteReg(s, RegA(ch, reg), data), t) == ReadReg(s, t)
  {
    var c := WriteA(s.channels[ch], reg, data);
    assert WriteReg(s, RegA(ch, reg), data) == WithChannel(s, ch, c);
    ReadOtherRegister(s, ch, c, t);
  }

  /** The same for a block B store. */
  lemma WriteFrameB(s: State, ch: Chan, reg: nat, t: Target, data: Word)
    requires reg < 8 && InRange(t) && t != RegB(ch, reg)
    ensures ReadReg(WriteReg(s, RegB(ch, reg), data), t) == ReadReg(s, t)
  {
    var c := WriteB(s.channels[ch], reg, data);
    assert WriteReg(s, RegB(ch, reg), data) == WithChannel(s, ch, c);
    ReadOtherRegister(s, ch, c, t);
  }

  /** Replacing a channel record that agrees with the old one on register
      `t` leaves the read of `t` alone. */
  lemma ReadOtherRegister(s: State, ch: Chan, c: Channel, t: Target)
    requires InRange(t)
    requires t.RegA? && t.ch == ch ==> c.regsA[t.reg] == s.channels[ch].regsA[t.reg]
    requires t.RegB? && t.ch == ch ==> c.regsB[t.reg] == s.channels[ch].regsB[t.reg]
    ensures ReadReg(WithChannel(s, ch, c), t) == ReadReg(s, t)
  {
  }

  /** The same for a plain global store. */
  lemma WriteFrameGlobal(s: State, reg: nat, t: Target, data: Word)
    requires PlainGlobal(reg) && InRange(t) && t != Glob(reg)
    ensures ReadReg(WriteReg(s, Glob(reg), data), t) == ReadReg(s, t)
  {
    assert WriteReg(s, Glob(reg), data) == s.(regs := s.regs[reg := data]);
  }

  /** Only the addressed channel's record can change under a block A or
      block B write. */
  lemma ChannelWriteFrame(s: State, t: Target, data: Word)
    requires InRange(t) && (t.RegA? || t.RegB?)
    ensures var r := WriteReg(s, t, data);
      && r.regs == s.regs
      && (forall j: Chan :: j != t.ch ==> r.channels[j] == s.channels[j])
      && r.(channels := s.channels) == s
  {
  }

  /** A write keeps the channel invariant. */
  lemma WriteValid(s: State, t: Target, data: Word)
    requires Valid(s) && InRange(t)
    ensures Valid(WriteReg(s, t, data))
  {
    var r := WriteReg(s, t, data);
    if t.RegA? || t.RegB? {
      ChannelWriteFrame(s, t, data);
      forall j: Chan ensures ChannelValid(r.channels[j]) {
        if j != t.ch {
          assert r.channels[j] == s.channels[j];
        }
      }
    } else if t == Glob(0x00) {
      EnableValid(s, data);
    } else if t.Glob? {
      GlobalKeepsChannels(s, t.reg, data);
    }
  }

  /** Only the enable register reaches the channel records. */
  lemma GlobalKeepsChannels(s: State, reg: nat, data: Word)
    requires reg < 32 && reg != 0x00
    ensures WriteGlobal(s, reg, data).channels == s.channels
  {
  }

  lemma EnableValid(s: State, data: Word)
    requires Valid(s)
    ensures Valid(EnableChannels(s, data))
  {
    if s.regs[EnableReg] ^ data != 0 {
      EnableChannelsChanged(s, data);
      EnableUpToValid(s, data, s.regs[EnableReg] ^ data, |s.channels|);
      assert EnableChannels(s, data).channels == EnableUpTo(s, data, s.regs[EnableReg] ^ data, |s.channels|).channels;
    }
  }
}
