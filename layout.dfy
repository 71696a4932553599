/** Register numbering and the bit layout of the packed register words.

    The SPU keeps every control value in 16-bit registers: 16 "block A" and
    8 "block B" words per channel and 32 global words. Several C struct
    members are views onto those words (src/core/spu.c names them in the
    tables at lines 7-70). The header that declares the bit-fields is not
    part of this model, so the POSITIONS of the sub-fields below are an
    assumption of the model; the lemmas elsewhere are stated through these
    accessors and do not depend on the positions chosen here. The only
    positions the C code itself fixes are the beat-count IRQ bits (0x4000,
    0xc000, lines 689-693). */
module Layout {
  import opened Bits

  /** A bus address: the decoders keep it in a `uint32_t`. */
  type Addr = bv32

  // Block A (per channel) register numbers, from the name table at lines 7-24.
  const WaveAddrReg: nat := 0x0
  const ModeReg: nat := 0x1
  const LoopAddrReg: nat := 0x2
  const PanVolReg: nat := 0x3
  const Env0Reg: nat := 0x4
  const EnvDataReg: nat := 0x5
  const Env1Reg: nat := 0x6
  const EnvAddrHighReg: nat := 0x7
  const EnvAddrReg: nat := 0x8
  const PrevWaveDataReg: nat := 0x9
  const EnvLoopCtrlReg: nat := 0xA
  const WaveDataReg: nat := 0xB

  // Block B (per channel) register numbers, from lines 26-35.
  const PhaseHighReg: nat := 0x0
  const RampDownClockReg: nat := 0x3
  const PhaseReg: nat := 0x4

  // Global register numbers, from lines 37-70.
  const EnableReg: nat := 0x00
  const VolumeSelectReg: nat := 0x01
  const FiqEnableReg: nat := 0x02
  const FiqStatReg: nat := 0x03
  const BeatBaseReg: nat := 0x04
  const BeatCountReg: nat := 0x05
  const EnvClock0Reg: nat := 0x06
  const RampDownReg: nat := 0x0a
  const StopReg: nat := 0x0b
  const CtrlReg: nat := 0x0d
  const StatReg: nat := 0x0f
  const EnvModeReg: nat := 0x15
  const ToneReleaseReg: nat := 0x16

  // ---- mode word (block A 0x1): waveHi 0-5, loopHi 6-11, playMode 12-13, pcmMode 14-15

  function WaveHi(mode: Word): Word { mode & 0x3f }
  function LoopHi(mode: Word): Word { (mode >> 6) & 0x3f }
  function PlayMode(mode: Word): Word { (mode >> 12) & 0x3 }
  function PcmMode(mode: Word): (m: Word) ensures m < 4 { mode >> 14 }

  /** `mode.waveHi = h`: replaces the 6-bit field and keeps the others. */
  function WithWaveHi(mode: Word, h: Word): (r: Word)
    ensures WaveHi(r) == h & 0x3f
    ensures LoopHi(r) == LoopHi(mode) && PlayMode(r) == PlayMode(mode) && PcmMode(r) == PcmMode(mode)
  {
    (mode & !0x3f) | (h & 0x3f)
  }

  /** `mode.pcmMode = m` */
  function WithPcmMode(mode: Word, m: Word): (r: Word)
    ensures PcmMode(r) == m & 0x3
    ensures WaveHi(r) == WaveHi(mode) && LoopHi(r) == LoopHi(mode) && PlayMode(r) == PlayMode(mode)
  {
    (mode & 0x3fff) | ((m & 0x3) << 14)
  }

  // ---- pan/volume word (block A 0x3): vol 0-6, pan 8-14

  function Vol(panVol: Word): (v: Word) ensures v < 128 { panVol & 0x7f }
  function Pan(panVol: Word): (p: Word) ensures p < 128 { (panVol >> 8) & 0x7f }

  // ---- envelope 0 (block A 0x4): increment 0-7 (bit 7 = decrement), target 8-14

  function Increment(env0: Word): Word { env0 & 0xff }
  function Target(env0: Word): (t: Word) ensures t < 128 { (env0 >> 8) & 0x7f }

  // ---- envelope data (block A 0x5): amplitude 0-7, countdown 8-15

  function Amplitude(envData: Word): (a: Word) ensures a < 256 { envData & 0xff }
  function EnvCount(envData: Word): (c: Word) ensures c < 256 { envData >> 8 }

  function WithAmplitude(envData: Word, a: Word): (r: Word)
    ensures Amplitude(r) == a & 0xff && EnvCount(r) == EnvCount(envData)
  {
    (envData & 0xff00) | (a & 0xff)
  }

  function WithEnvCount(envData: Word, c: Word): (r: Word)
    ensures EnvCount(r) == c & 0xff && Amplitude(r) == Amplitude(envData)
  {
    (envData & 0xff) | ((c & 0xff) << 8)
  }

  // ---- envelope 1 (block A 0x6): load value 0-7, repeat enable 8, repeat count 9-15

  function LoadVal(env1: Word): (v: Word) ensures v < 256 { env1 & 0xff }
  predicate RepeatEnable(env1: Word) { env1 & 0x100 != 0 }
  function RepeatCount(env1: Word): (c: Word) ensures c < 128 { env1 >> 9 }

  function WithRepeatCount(env1: Word, c: Word): (r: Word)
    ensures RepeatCount(r) == c & 0x7f
    ensures LoadVal(r) == LoadVal(env1) && RepeatEnable(r) == RepeatEnable(env1)
  {
    (env1 & 0x1ff) | ((c & 0x7f) << 9)
  }

  // ---- envelope address high (block A 0x7): high bits 0-5

  function EnvAddrHi(high: Word): Word { high & 0x3f }

  function WithEnvAddrHi(high: Word, h: Word): (r: Word)
    ensures EnvAddrHi(r) == h & 0x3f && r & !0x3f == high & !0x3f
  {
    (high & !0x3f) | (h & 0x3f)
  }

  // ---- envelope loop control (block A 0xA): address offset 0-8, ramp-down offset 9-15

  function EnvAddrOffset(loopCtrl: Word): (o: Word) ensures o < 512 { loopCtrl & 0x1ff }
  function RampDownOffset(loopCtrl: Word): (o: Word) ensures o < 128 { loopCtrl >> 9 }

  // ---- ramp-down clock (block B 0x3): decay class 0-2

  function RampDownClock(reg: Word): (c: Word) ensures c < 8 { reg & 0x7 }

  // ---- ADPCM36 block header (not a register): shift 0-3, filter 4-9

  function HeaderShift(header: Word): (s: Word) ensures s < 16 { header & 0xf }
  function HeaderFilter(header: Word): (f: Word) ensures f < 64 { (header >> 4) & 0x3f }

  // ---- beat count (global 0x05): count 0-13, irq 14, irq enable 15

  const BeatIrqBit: Word := 0x4000
  const BeatIrqEnableBit: Word := 0x8000

  function BeatCount(beat: Word): (c: Word) ensures c < 0x4000 { beat & 0x3fff }

  function WithBeatCount(beat: Word, c: Word): (r: Word)
    ensures BeatCount(r) == c & 0x3fff
    ensures r & BeatIrqBit == beat & BeatIrqBit && r & BeatIrqEnableBit == beat & BeatIrqEnableBit
  {
    (beat & 0xc000) | (c & 0x3fff)
  }

  // ---- 22-bit addresses: a 16-bit low word and 6 high bits kept elsewhere

  /** `lo | (hi << 16)`, the expression the decoders and the envelope engine
      use to form a bus address (lines 196, 214, 439). */
  function Join(lo: Word, hi: Word): (a: Addr)
    requires hi < 64
    ensures a < 0x40_0000
  {
    (lo as Addr) | ((hi as Addr) << 16)
  }

  /** `a & 0xffff` */
  function Low(a: Addr): Word { (a & 0xffff) as Word }

  /** `(a >> 16) & 0x3f` */
  function High6(a: Addr): (h: Word) ensures h < 64 { ((a >> 16) & 0x3f) as Word }

  /** Storing an address as a low word plus six high bits keeps exactly its
      low 22 bits; an address already below 2^22 is kept whole. */
  lemma SplitJoin(a: Addr)
    ensures Join(Low(a), High6(a)) == a & 0x3f_ffff
    ensures a < 0x40_0000 ==> Join(Low(a), High6(a)) == a
  {
  }

  /** Joining and splitting again gives back both halves. */
  lemma JoinSplit(lo: Word, hi: Word)
    requires hi < 64
    ensures Low(Join(lo, hi)) == lo && High6(Join(lo, hi)) == hi
  {
  }
}
