/** The state of the sound unit as a value (the static record `this` of
    src/core/spu.c:3) and the operations on it that do not touch memory:
    channel start and stop, the enable-mask write, the channel IRQ and the
    beat timer. The imperative class in module Machine keeps the same state
    in arrays and is proved to follow these functions. */
module SpuState {
  import opened Bits
  import opened Masks
  import opened Layout

  type BlockA = s: seq<Word> | |s| == 16 witness seq(16, _ => 0)
  type BlockB = s: seq<Word> | |s| == 8 witness seq(8, _ => 0)
  type GlobalBlock = s: seq<Word> | |s| == 32 witness seq(32, _ => 0)

  /** One channel record (`Channel_t`). The raw blocks `regsA` (`regs0`) and
      `regsB` (`regs2`) are the source of truth for every field the C code
      reaches through a bit-field view; the other fields are the decoder and
      timing state the C record keeps beside them. The floating-point `rate`
      is not modelled; `accum` is kept only to record where it is reset. */
  datatype Channel = Channel(
    regsA: BlockA,
    regsB: BlockB,
    accum: real,
    pcmShift: Word,
    adpcmLast: int,
    adpcmIndex: int,
    adpcm36Remaining: nat,
    adpcm36Header: Word,
    adpcm36Prev0: int,
    adpcm36Prev1: int,
    envelopeFrame: nat,
    rampDownFrame: nat,
    playing: bool)

  /** A channel after the `memset` of `SPU_Init`. */
  const Silent: Channel := Channel(seq(16, _ => 0), seq(8, _ => 0), 0.0, 0, 0, 0, 0, 0, 0, 0, 0, 0, false)

  type ChannelTable = s: seq<Channel> | |s| == 16 witness seq(16, _ => Silent)

  /** The whole unit. `regs` is `regs4`: the channel masks, the volume
      select, the beat registers and the envelope clocks are words of it (see
      module Layout). The two counters record the calls into the CPU model
      (`CPU_TriggerFIQ`, `CPU_ActivatePendingIRQs`), which are not modelled. */
  datatype State = State(
    regs: GlobalBlock,
    channels: ChannelTable,
    channelIrq: bool,
    irq: bool,
    currBeatBase: Word,
    sampleTimer: int,
    accumulatedSamples: int,
    fiqRequests: nat,
    irqRequests: nat)

  /** What every reachable channel record satisfies: the shift cursor stays
      inside a word, the ADPCM step index and last sample stay clamped, the
      ADPCM36 word counter never exceeds a block and its history is 16-bit. */
  predicate ChannelValid(c: Channel)
  {
    c.pcmShift < 16 && 0 <= c.adpcmIndex <= 48 && -2048 <= c.adpcmLast <= 2047
    && c.adpcm36Remaining <= 8 && InInt16(c.adpcm36Prev0) && InInt16(c.adpcm36Prev1)
  }

  ghost predicate Valid(s: State)
  {
    forall ch: Chan :: ChannelValid(s.channels[ch])
  }

  /** The state after `SPU_Init`'s `memset` and the reload of the sample timer. */
  function Initial(samplePeriod: int): (s: State)
    ensures Valid(s)
    ensures s.regs[EnableReg] == 0 && s.sampleTimer == samplePeriod
  {
    State(seq(32, _ => 0), seq(16, _ => Silent), false, false, 0, samplePeriod, 0, 0, 0)
  }

  /** The unit with channel `ch`'s record replaced. */
  function WithChannel(s: State, ch: Chan, c: Channel): State
  {
    s.(channels := s.channels[ch := c])
  }

  // ---- channel start and stop (src/core/spu.c:642-683)

  /** The per-channel part of `SPU_StartChannel`. */
  function StartRecord(c: Channel, stopped: bool): Channel
  {
    if stopped then c.(playing := true)
    else c.(adpcm36Remaining := 0, adpcm36Header := 0, adpcm36Prev0 := 0, adpcm36Prev1 := 0, playing := true)
  }

  /** The per-channel part of `SPU_StopChannel`. */
  function StopRecord(c: Channel): Channel
  {
    c.(regsA := c.regsA[ModeReg := WithPcmMode(c.regsA[ModeReg], 0)],
       pcmShift := 0, adpcmLast := 0, adpcmIndex := 0, playing := false)
  }

  /** `SPU_StartChannel`: sets the enable bit; unless the channel's stop bit
      is set, also sets its status bit and restarts ADPCM36 block decoding. */
  function Start(s: State, ch: Chan): State
  {
    var stopped := Has(s.regs[StopReg], ch);
    var regs := s.regs[EnableReg := Set(s.regs[EnableReg], ch)];
    s.(regs := if stopped then regs else regs[StatReg := Set(regs[StatReg], ch)],
       channels := s.channels[ch := StartRecord(s.channels[ch], stopped)])
  }

  /** Starting a channel sets its enable bit, sets its status bit exactly
      when its stop bit is clear, marks it playing and, when not stopped,
      clears the ADPCM36 block state; no other bit, register or channel moves. */
  lemma StartBits(s: State, ch: Chan)
    ensures var r := Start(s, ch);
      && (forall j: Chan :: Has(r.regs[EnableReg], j) <==> j == ch || Has(s.regs[EnableReg], j))
      && (forall j: Chan :: Has(r.regs[StatReg], j) <==> (j == ch && !Has(s.regs[StopReg], ch)) || Has(s.regs[StatReg], j))
      && (forall k :: 0 <= k < 32 && k != EnableReg && k != StatReg ==> r.regs[k] == s.regs[k])
      && (forall j: Chan :: j != ch ==> r.channels[j] == s.channels[j])
      && r.channels[ch].playing
      && (!Has(s.regs[StopReg], ch) ==>
            r.channels[ch].adpcm36Remaining == 0 && r.channels[ch].adpcm36Header == 0
            && r.channels[ch].adpcm36Prev0 == 0 && r.channels[ch].adpcm36Prev1 == 0)
      && r.channels[ch].regsA == s.channels[ch].regsA && r.channels[ch].regsB == s.channels[ch].regsB
      && r.(regs := s.regs, channels := s.channels) == s
  {
    SetBits(s.regs[EnableReg], ch);
    SetBits(s.regs[StatReg], ch);
  }

  /** `SPU_StopChannel`: clears the channel's enable, ramp-down, status and
      tone-release bits, selects 8-bit PCM, and zeroes the shift cursor and
      the ADPCM history. */
  function Stop(s: State, ch: Chan): State
  {
    s.(regs := s.regs[EnableReg := Clear(s.regs[EnableReg], ch)]
                     [RampDownReg := Clear(s.regs[RampDownReg], ch)]
                     [StatReg := Clear(s.regs[StatReg], ch)]
                     [ToneReleaseReg := Clear(s.regs[ToneReleaseReg], ch)],
       channels := s.channels[ch := StopRecord(s.channels[ch])])
  }

  /** Stopping a channel clears its four mask bits and only those, selects
      8-bit PCM while keeping the other mode fields, resets the decoder
      cursor and history, and leaves every other channel alone. */
  lemma StopBits(s: State, ch: Chan)
    ensures var r := Stop(s, ch);
      && (forall j: Chan :: Has(r.regs[EnableReg], j) <==> j != ch && Has(s.regs[EnableReg], j))
      && (forall j: Chan :: Has(r.regs[RampDownReg], j) <==> j != ch && Has(s.regs[RampDownReg], j))
      && (forall j: Chan :: Has(r.regs[StatReg], j) <==> j != ch && Has(s.regs[StatReg], j))
      && (forall j: Chan :: Has(r.regs[ToneReleaseReg], j) <==> j != ch && Has(s.regs[ToneReleaseReg], j))
      && (forall k :: 0 <= k < 32 && k != EnableReg && k != RampDownReg && k != StatReg && k != ToneReleaseReg ==> r.regs[k] == s.regs[k])
      && (forall j: Chan :: j != ch ==> r.channels[j] == s.channels[j])
      && r.(regs := s.regs, channels := s.channels) == s
  {
    ClearBits(s.regs[EnableReg], ch);
    ClearBits(s.regs[RampDownReg], ch);
    ClearBits(s.regs[StatReg], ch);
    ClearBits(s.regs[ToneReleaseReg], ch);
  }

  /** The record a stopped channel is left with. */
  lemma StopRecordBits(c: Channel)
    ensures var c' := StopRecord(c);
      && PcmMode(c'.regsA[ModeReg]) == 0 && c'.pcmShift == 0 && c'.adpcmLast == 0 && c'.adpcmIndex == 0 && !c'.playing
      && WaveHi(c'.regsA[ModeReg]) == WaveHi(c.regsA[ModeReg]) && LoopHi(c'.regsA[ModeReg]) == LoopHi(c.regsA[ModeReg])
      && PlayMode(c'.regsA[ModeReg]) == PlayMode(c.regsA[ModeReg])
      && (forall k :: 0 <= k < 16 && k != ModeReg ==> c'.regsA[k] == c.regsA[k])
  {
  }

  /** Starting a channel keeps the channel invariant. */
  lemma StartValid(s: State, ch: Chan)
    requires Valid(s)
    ensures Valid(Start(s, ch))
  {
    var r := Start(s, ch);
    forall j: Chan ensures ChannelValid(r.channels[j]) {
      if j != ch {
        assert r.channels[j] == s.channels[j];
      }
    }
  }

  /** Stopping a channel keeps the channel invariant. */
  lemma StopValid(s: State, ch: Chan)
    requires Valid(s)
    ensures Valid(Stop(s, ch))
  {
    var r := Stop(s, ch);
    forall j: Chan ensures ChannelValid(r.channels[j]) {
      if j != ch {
        assert r.channels[j] == s.channels[j];
      }
    }
  }

  // ---- the enable-mask write (src/core/spu.c:619-639)

  /** One pass of the loop at lines 623-635: channel `ch` is started or
      stopped when its bit changed. */
  function EnableStep(s: State, data: Word, changed: Word, ch: Chan): State
  {
    if !Has(changed, ch) then s
    else if Has(data, ch) then Start(s, ch)
    else Stop(s, ch)
  }

  /** The first `k` passes of that loop. */
  function EnableUpTo(s: State, data: Word, changed: Word, k: nat): State
    requires k <= 16
  {
    if k == 0 then s else EnableStep(EnableUpTo(s, data, changed, k - 1), data, changed, ToChan(k - 1))
  }

  /** `SPU_EnableChannels`. */
  function EnableChannels(s: State, data: Word): State
  {
    var changed := s.regs[EnableReg] ^ data;
    if changed == 0 then s
    else
      var r := EnableUpTo(s, data, changed, |s.channels|);
      r.(regs := r.regs[EnableReg := data])
  }

  /** A changed mask runs the loop over all channels and then stores the mask. */
  lemma EnableChannelsLoop(s: State, data: Word, r: State)
    requires s.regs[EnableReg] ^ data != 0
    requires r == EnableUpTo(s, data, s.regs[EnableReg] ^ data, |s.channels|)
    ensures EnableChannels(s, data) == r.(regs := r.regs[EnableReg := data])
  {
  }

  /** The mask words a run of the enable loop changes. */
  predicate OtherRegsKept(r: State, s: State)
  {
    forall k :: 0 <= k < 32 && k != EnableReg && k != RampDownReg && k != StatReg && k != ToneReleaseReg ==> r.regs[k] == s.regs[k]
  }

  /** What the loop has done to channel `j` once it has passed it: started
      it if its bit turned on, stopped it if its bit turned off, else nothing. */
  function Started(c: Channel, s: State, data: Word, changed: Word, j: Chan): Channel
  {
    if !Has(changed, j) then c
    else if Has(data, j) then StartRecord(c, Has(s.regs[StopReg], j))
    else StopRecord(c)
  }

  lemma ChanEq(a: Chan, b: Chan)
    ensures a == b <==> a as int == b as int
  {
  }

  /** The bits of `after` are those of `before` less the channels below `k`
      whose enable bit turned off. */
  ghost predicate ClearedBelow(before: Word, after: Word, data: Word, changed: Word, k: nat)
  {
    forall j: Chan :: Has(after, j) <==> Has(before, j) && !(j as int < k && Has(changed, j) && !Has(data, j))
  }

  /** The status bits after the channels below `k` were started or stopped. */
  ghost predicate StatBelow(before: Word, stop: Word, after: Word, data: Word, changed: Word, k: nat)
  {
    forall j: Chan :: Has(after, j) <==>
      if j as int < k && Has(changed, j) then Has(data, j) && (Has(before, j) || !Has(stop, j)) else Has(before, j)
  }

  ghost predicate ChannelsBelow(s: State, r: State, data: Word, changed: Word, k: nat)
  {
    forall j: Chan :: r.channels[j] == if j as int < k then Started(s.channels[j], s, data, changed, j) else s.channels[j]
  }

  /** The invariant of the enable loop after `k` passes, bit by bit. */
  ghost predicate EnableInv(s: State, r: State, data: Word, changed: Word, k: nat)
  {
    && OtherRegsKept(r, s)
    && r.(regs := s.regs, channels := s.channels) == s
    && ClearedBelow(s.regs[RampDownReg], r.regs[RampDownReg], data, changed, k)
    && ClearedBelow(s.regs[ToneReleaseReg], r.regs[ToneReleaseReg], data, changed, k)
    && StatBelow(s.regs[StatReg], s.regs[StopReg], r.regs[StatReg], data, changed, k)
    && ChannelsBelow(s, r, data, changed, k)
  }

  lemma ClearedStep(before: Word, mid: Word, after: Word, data: Word, changed: Word, k: nat)
    requires k < 16 && ClearedBelow(before, mid, data, changed, k)
    requires forall j: Chan :: Has(after, j) <==> Has(mid, j) && !(j == ToChan(k) && Has(changed, j) && !Has(data, j))
    ensures ClearedBelow(before, after, data, changed, k + 1)
  {
    var ch := ToChan(k);
    forall j: Chan ensures Has(after, j) <==> Has(before, j) && !(j as int < k + 1 && Has(changed, j) && !Has(data, j)) {
      ChanEq(j, ch);
    }
  }

  lemma StatStep(before: Word, stop: Word, mid: Word, after: Word, data: Word, changed: Word, k: nat)
    requires k < 16 && StatBelow(before, stop, mid, data, changed, k)
    requires forall j: Chan :: Has(after, j) <==>
      if j == ToChan(k) && Has(changed, j) then Has(data, j) && (Has(mid, j) || !Has(stop, j)) else Has(mid, j)
    ensures StatBelow(before, stop, after, data, changed, k + 1)
  {
    var ch := ToChan(k);
    forall j: Chan ensures Has(after, j) <==>
      if j as int < k + 1 && Has(changed, j) then Has(data, j) && (Has(before, j) || !Has(stop, j)) else Has(before, j)
    {
      ChanEq(j, ch);
    }
  }

  lemma ChannelsStep(s: State, mid: State, after: State, data: Word, changed: Word, k: nat)
    requires k < 16 && ChannelsBelow(s, mid, data, changed, k)
    requires forall j: Chan :: j != ToChan(k) ==> after.channels[j] == mid.channels[j]
    requires after.channels[ToChan(k)] == Started(mid.channels[ToChan(k)], s, data, changed, ToChan(k))
    ensures ChannelsBelow(s, after, data, changed, k + 1)
  {
    var ch := ToChan(k);
    forall j: Chan ensures after.channels[j] == if j as int < k + 1 then Started(s.channels[j], s, data, changed, j) else s.channels[j] {
      ChanEq(j, ch);
    }
  }

  /** One pass of the loop keeps the invariant. */
  lemma EnableStepKeeps(s: State, r: State, data: Word, changed: Word, k: nat)
    requires k < 16 && EnableInv(s, r, data, changed, k)
    ensures EnableInv(s, EnableStep(r, data, changed, ToChan(k)), data, changed, k + 1)
  {
    var ch := ToChan(k);
    if !Has(changed, ch) {
      SkipKeeps(s, r, data, changed, k);
    } else if Has(data, ch) {
      StartKeeps(s, r, data, changed, k);
    } else {
      StopKeeps(s, r, data, changed, k);
    }
  }

  /** A pass over an unchanged channel keeps the invariant. */
  lemma SkipKeeps(s: State, r: State, data: Word, changed: Word, k: nat)
    requires k < 16 && EnableInv(s, r, data, changed, k) && !Has(changed, ToChan(k))
    ensures EnableInv(s, r, data, changed, k + 1)
  {
    ChannelsStep(s, r, r, data, changed, k);
    ClearedStep(s.regs[RampDownReg], r.regs[RampDownReg], r.regs[RampDownReg], data, changed, k);
    ClearedStep(s.regs[ToneReleaseReg], r.regs[ToneReleaseReg], r.regs[ToneReleaseReg], data, changed, k);
    StatStep(s.regs[StatReg], s.regs[StopReg], r.regs[StatReg], r.regs[StatReg], data, changed, k);
  }

  /** A pass that starts its channel keeps the invariant. */
  lemma StartKeeps(s: State, r: State, data: Word, changed: Word, k: nat)
    requires k < 16 && EnableInv(s, r, data, changed, k) && Has(changed, ToChan(k)) && Has(data, ToChan(k))
    ensures EnableInv(s, Start(r, ToChan(k)), data, changed, k + 1)
  {
    var ch := ToChan(k);
    var r' := Start(r, ch);
    assert r.regs[StopReg] == s.regs[StopReg];
    StartBits(r, ch);
    ChannelsStep(s, r, r', data, changed, k);
    ClearedStep(s.regs[RampDownReg], r.regs[RampDownReg], r'.regs[RampDownReg], data, changed, k);
    ClearedStep(s.regs[ToneReleaseReg], r.regs[ToneReleaseReg], r'.regs[ToneReleaseReg], data, changed, k);
    StatStep(s.regs[StatReg], s.regs[StopReg], r.regs[StatReg], r'.regs[StatReg], data, changed, k);
  }

  /** A pass that stops its channel keeps the invariant. */
  lemma StopKeeps(s: State, r: State, data: Word, changed: Word, k: nat)
    requires k < 16 && EnableInv(s, r, data, changed, k) && Has(changed, ToChan(k)) && !Has(data, ToChan(k))
    ensures EnableInv(s, Stop(r, ToChan(k)), data, changed, k + 1)
  {
    var ch := ToChan(k);
    var r' := Stop(r, ch);
    StopBits(r, ch);
    ChannelsStep(s, r, r', data, changed, k);
    ClearedStep(s.regs[RampDownReg], r.regs[RampDownReg], r'.regs[RampDownReg], data, changed, k);
    ClearedStep(s.regs[ToneReleaseReg], r.regs[ToneReleaseReg], r'.regs[ToneReleaseReg], data, changed, k);
    StatStep(s.regs[StatReg], s.regs[StopReg], r.regs[StatReg], r'.regs[StatReg], data, changed, k);
  }

  /** The invariant of the enable loop holds after every pass. */
  lemma {:induction false} EnableUpToBits(s: State, data: Word, changed: Word, k: nat)
    requires k <= 16
    ensures EnableInv(s, EnableUpTo(s, data, changed, k), data, changed, k)
  {
    if k > 0 {
      EnableUpToBits(s, data, changed, k - 1);
      EnableStepKeeps(s, EnableUpTo(s, data, changed, k - 1), data, changed, k - 1);
    }
  }

  /** After all sixteen passes, a channel's ramp-down or tone-release bit is
      lost exactly when its enable bit turned off. */
  lemma ClearedFinal(before: Word, after: Word, e: Word, data: Word)
    requires ClearedBelow(before, after, data, e ^ data, 16)
    ensures forall j: Chan :: Has(after, j) <==> Has(before, j) && !(Has(e, j) && !Has(data, j))
  {
    forall j: Chan ensures Has(after, j) <==> Has(before, j) && !(Has(e, j) && !Has(data, j)) {
      XorAt(e, data, j);
    }
  }

  /** After all sixteen passes, the status bits as the changed channels left them. */
  lemma StatFinal(before: Word, stop: Word, after: Word, e: Word, data: Word)
    requires StatBelow(before, stop, after, data, e ^ data, 16)
    ensures forall j: Chan :: Has(after, j) <==>
      if Has(e, j) == Has(data, j) then Has(before, j)
      else Has(data, j) && (Has(before, j) || !Has(stop, j))
  {
    forall j: Chan ensures Has(after, j) <==>
      if Has(e, j) == Has(data, j) then Has(before, j)
      else Has(data, j) && (Has(before, j) || !Has(stop, j))
    {
      XorAt(e, data, j);
    }
  }

  /** After all sixteen passes, every channel as its own bit change left it. */
  lemma ChannelsFinal(s: State, r: State, e: Word, data: Word)
    requires e == s.regs[EnableReg] && ChannelsBelow(s, r, data, e ^ data, 16)
    ensures forall j: Chan :: (r.channels[j] ==
      if Has(e, j) == Has(data, j) then s.channels[j]
      else if Has(data, j) then StartRecord(s.channels[j], Has(s.regs[StopReg], j))
      else StopRecord(s.channels[j]))
  {
    forall j: Chan ensures r.channels[j] ==
        if Has(e, j) == Has(data, j) then s.channels[j]
        else if Has(data, j) then StartRecord(s.channels[j], Has(s.regs[StopReg], j))
        else StopRecord(s.channels[j])
    {
      ChannelFinalAt(s.channels[j], r.channels[j], s, e, data, j);
    }
  }

  lemma ChannelFinalAt(before: Channel, after: Channel, s: State, e: Word, data: Word, j: Chan)
    requires after == Started(before, s, data, e ^ data, j)
    ensures after ==
      if Has(e, j) == Has(data, j) then before
      else if Has(data, j) then StartRecord(before, Has(s.regs[StopReg], j))
      else StopRecord(before)
  {
    XorAt(e, data, j);
  }

  /** `SPU_EnableChannels` when the mask changed: the loop's result with the
      written mask stored. */
  lemma EnableChannelsChanged(s: State, data: Word)
    requires s.regs[EnableReg] ^ data != 0
    ensures var r16 := EnableUpTo(s, data, s.regs[EnableReg] ^ data, |s.channels|);
      EnableChannels(s, data) == r16.(regs := r16.regs[EnableReg := data])
  {
    var r16 := EnableUpTo(s, data, s.regs[EnableReg] ^ data, |s.channels|);
    assert EnableChannels(s, data) == r16.(regs := r16.regs[EnableReg := data]);
  }

  /** The status-mask part of the loop invariant after all sixteen passes. */
  lemma EnableUpToStat(s: State, data: Word)
    ensures var c := s.regs[EnableReg] ^ data;
      StatBelow(s.regs[StatReg], s.regs[StopReg], EnableUpTo(s, data, c, |s.channels|).regs[StatReg], data, c, 16)
  {
    EnableUpToBits(s, data, s.regs[EnableReg] ^ data, |s.channels|);
  }

  /** The ramp-down and tone-release part of the loop invariant after all sixteen passes. */
  lemma EnableUpToReleases(s: State, data: Word)
    ensures var c := s.regs[EnableReg] ^ data; var r16 := EnableUpTo(s, data, c, |s.channels|);
      && ClearedBelow(s.regs[RampDownReg], r16.regs[RampDownReg], data, c, 16)
      && ClearedBelow(s.regs[ToneReleaseReg], r16.regs[ToneReleaseReg], data, c, 16)
  {
    EnableUpToBits(s, data, s.regs[EnableReg] ^ data, |s.channels|);
  }

  /** The channel-record part of the loop invariant after all sixteen passes. */
  lemma EnableUpToChannels(s: State, data: Word)
    ensures var c := s.regs[EnableReg] ^ data;
      ChannelsBelow(s, EnableUpTo(s, data, c, |s.channels|), data, c, 16)
  {
    EnableUpToBits(s, data, s.regs[EnableReg] ^ data, |s.channels|);
  }

  /** The untouched registers and fields part of the loop invariant. */
  lemma EnableUpToKept(s: State, data: Word)
    ensures var r16 := EnableUpTo(s, data, s.regs[EnableReg] ^ data, |s.channels|);
      OtherRegsKept(r16, s) && r16.(regs := s.regs, channels := s.channels) == s
  {
    EnableUpToBits(s, data, s.regs[EnableReg] ^ data, |s.channels|);
  }

  /** Writing the current mask changes nothing. */
  lemma EnableChannelsSame(s: State)
    ensures EnableChannels(s, s.regs[EnableReg]) == s
  {
    XorSelf(s.regs[EnableReg]);
  }

  /** After `SPU_EnableChannels` the enable mask is the written word, and no
      other register but the status, ramp-down and tone-release masks moves. */
  lemma EnableChannelsMask(s: State, data: Word)
    ensures var r := EnableChannels(s, data);
      && r.regs[EnableReg] == data
      && OtherRegsKept(r, s)
      && r.(regs := s.regs, channels := s.channels) == s
  {
    var e := s.regs[EnableReg];
    XorZero(e, data);
    if e == data {
      EnableChannelsSame(s);
    } else {
      EnableChannelsChanged(s, data);
      EnableUpToKept(s, data);
    }
  }

  /** Only a channel whose bit turned off loses its ramp-down and
      tone-release bits. */
  lemma EnableChannelsReleases(s: State, data: Word)
    ensures var r := EnableChannels(s, data); var e := s.regs[EnableReg];
      && (forall j: Chan :: Has(r.regs[RampDownReg], j) <==> Has(s.regs[RampDownReg], j) && !(Has(e, j) && !Has(data, j)))
      && (forall j: Chan :: Has(r.regs[ToneReleaseReg], j) <==> Has(s.regs[ToneReleaseReg], j) && !(Has(e, j) && !Has(data, j)))
  {
    var e := s.regs[EnableReg];
    XorZero(e, data);
    if e == data {
      EnableChannelsSame(s);
    } else {
      ReleasesChanged(s, data);
    }
  }

  lemma ReleasesChanged(s: State, data: Word)
    requires s.regs[EnableReg] ^ data != 0
    ensures var r := EnableChannels(s, data); var e := s.regs[EnableReg];
      && (forall j: Chan :: Has(r.regs[RampDownReg], j) <==> Has(s.regs[RampDownReg], j) && !(Has(e, j) && !Has(data, j)))
      && (forall j: Chan :: Has(r.regs[ToneReleaseReg], j) <==> Has(s.regs[ToneReleaseReg], j) && !(Has(e, j) && !Has(data, j)))
  {
    var e := s.regs[EnableReg];
    var r16 := EnableUpTo(s, data, e ^ data, |s.channels|);
    EnableChannelsChanged(s, data);
    var r := EnableChannels(s, data);
    assert r.regs[RampDownReg] == r16.regs[RampDownReg] && r.regs[ToneReleaseReg] == r16.regs[ToneReleaseReg];
    EnableUpToReleases(s, data);
    ClearedFinal(s.regs[RampDownReg], r.regs[RampDownReg], e, data);
    ClearedFinal(s.regs[ToneReleaseReg], r.regs[ToneReleaseReg], e, data);
  }

  /** A channel whose bit turned on gains its status bit unless its stop bit
      is set; one whose bit turned off loses it; the others keep theirs. */
  lemma EnableChannelsStat(s: State, data: Word)
    ensures var r := EnableChannels(s, data); var e := s.regs[EnableReg];
      forall j: Chan :: Has(r.regs[StatReg], j) <==>
        if Has(e, j) == Has(data, j) then Has(s.regs[StatReg], j)
        else Has(data, j) && (Has(s.regs[StatReg], j) || !Has(s.regs[StopReg], j))
  {
    var e := s.regs[EnableReg];
    XorZero(e, data);
    if e == data {
      EnableChannelsSame(s);
    } else {
      StatChanged(s, data);
    }
  }

  lemma StatChanged(s: State, data: Word)
    requires s.regs[EnableReg] ^ data != 0
    ensures var r := EnableChannels(s, data); var e := s.regs[EnableReg];
      forall j: Chan :: Has(r.regs[StatReg], j) <==>
        if Has(e, j) == Has(data, j) then Has(s.regs[StatReg], j)
        else Has(data, j) && (Has(s.regs[StatReg], j) || !Has(s.regs[StopReg], j))
  {
    StatUpTo(s, data);
    StatKept(s, data);
  }

  /** The status mask after the sixteen passes of the loop. */
  lemma StatUpTo(s: State, data: Word)
    ensures var e := s.regs[EnableReg]; var r16 := EnableUpTo(s, data, e ^ data, |s.channels|);
      forall j: Chan :: Has(r16.regs[StatReg], j) <==>
        if Has(e, j) == Has(data, j) then Has(s.regs[StatReg], j)
        else Has(data, j) && (Has(s.regs[StatReg], j) || !Has(s.regs[StopReg], j))
  {
    var e := s.regs[EnableReg];
    EnableUpToStat(s, data);
    StatFinal(s.regs[StatReg], s.regs[StopReg], EnableUpTo(s, data, e ^ data, |s.channels|).regs[StatReg], e, data);
  }

  /** Storing the written mask leaves the loop's status mask alone. */
  lemma StatKept(s: State, data: Word)
    requires s.regs[EnableReg] ^ data != 0
    ensures EnableChannels(s, data).regs[StatReg] == EnableUpTo(s, data, s.regs[EnableReg] ^ data, |s.channels|).regs[StatReg]
  {
    EnableChannelsChanged(s, data);
  }

  /** Exactly the channels whose bit changed are started (bit turned on) or
      stopped (bit turned off); every other channel record is untouched. */
  lemma EnableChannelsStarts(s: State, data: Word)
    ensures var r := EnableChannels(s, data); var e := s.regs[EnableReg];
      forall j: Chan :: r.channels[j] ==
        if Has(e, j) == Has(data, j) then s.channels[j]
        else if Has(data, j) then StartRecord(s.channels[j], Has(s.regs[StopReg], j))
        else StopRecord(s.channels[j])
  {
    var e := s.regs[EnableReg];
    XorZero(e, data);
    if e == data {
      EnableChannelsSame(s);
    } else {
      StartsChanged(s, data);
    }
  }

  lemma StartsChanged(s: State, data: Word)
    requires s.regs[EnableReg] ^ data != 0
    ensures var r := EnableChannels(s, data); var e := s.regs[EnableReg];
      forall j: Chan :: r.channels[j] ==
        if Has(e, j) == Has(data, j) then s.channels[j]
        else if Has(data, j) then StartRecord(s.channels[j], Has(s.regs[StopReg], j))
        else StopRecord(s.channels[j])
  {
    var e := s.regs[EnableReg];
    EnableChannelsChanged(s, data);
    EnableUpToChannels(s, data);
    ChannelsFinal(s, EnableUpTo(s, data, e ^ data, |s.channels|), e, data);
  }

  lemma XorZero(a: Word, b: Word)
    ensures a ^ b == 0 <==> a == b
  {
  }

  /** Every pass of the loop keeps the channel invariant. */
  lemma {:induction false} EnableUpToValid(s: State, data: Word, changed: Word, k: nat)
    requires k <= 16 && Valid(s)
    ensures Valid(EnableUpTo(s, data, changed, k))
  {
    if k > 0 {
      EnableUpToValid(s, data, changed, k - 1);
      StartValid(EnableUpTo(s, data, changed, k - 1), ToChan(k - 1));
      StopValid(EnableUpTo(s, data, changed, k - 1), ToChan(k - 1));
    }
  }

  // ---- interrupts (src/core/spu.c:478-488, 686-727)

  /** The flag logic of `SPU_TriggerChannelIRQ`. */
  function TriggerChannelIrq(s: State, ch: Chan): State
  {
    if Has(s.regs[FiqEnableReg], ch) then s
    else s.(regs := s.regs[FiqStatReg := Set(s.regs[FiqStatReg], ch)], channelIrq := true, irqRequests := s.irqRequests + 1)
  }

  /** A channel whose FIQ-enable bit is clear latches its FIQ-status bit,
      raises the pending channel IRQ and requests IRQ activation once; a
      channel whose bit is set changes nothing. */
  lemma TriggerChannelIrqBits(s: State, ch: Chan)
    ensures var r := TriggerChannelIrq(s, ch);
      && (Has(s.regs[FiqEnableReg], ch) ==> r == s)
      && (!Has(s.regs[FiqEnableReg], ch) ==>
            && (forall j: Chan :: Has(r.regs[FiqStatReg], j) <==> j == ch || Has(s.regs[FiqStatReg], j))
            && r.channelIrq && r.irqRequests == s.irqRequests + 1
            && r.regs == s.regs[FiqStatReg := r.regs[FiqStatReg]]
            && r.(regs := s.regs, channelIrq := s.channelIrq, irqRequests := s.irqRequests) == s)
  {
    SetBits(s.regs[FiqStatReg], ch);
  }

  /** The merged beat-count word of lines 689-691. */
  function BeatMerge(stored: Word, data: Word): (v: Word)
    ensures BeatCount(v) == BeatCount(data)
    ensures v & BeatIrqEnableBit == data & BeatIrqEnableBit
    ensures v & BeatIrqBit != 0 <==> stored & BeatIrqBit != 0 && data & BeatIrqBit == 0
  {
    ((stored & !(data & 0x4000)) & 0x4000) | (data & !0x4000)
  }

  /** `SPU_WriteBeatCount`: bit 14 is write-1-to-clear, every other bit comes
      from the data, and the beat IRQ is raised exactly when bits 15 and 14
      are both set afterwards. */
  function WriteBeatCount(s: State, data: Word): (r: State)
    ensures BeatCount(r.regs[BeatCountReg]) == BeatCount(data)
    ensures r.irq <==> data & BeatIrqEnableBit != 0 && s.regs[BeatCountReg] & BeatIrqBit != 0 && data & BeatIrqBit == 0
    ensures r.irqRequests == s.irqRequests + (if r.irq then 1 else 0)
    ensures r.regs == s.regs[BeatCountReg := BeatMerge(s.regs[BeatCountReg], data)]
    ensures r.(regs := s.regs, irq := s.irq, irqRequests := s.irqRequests) == s
  {
    var v := BeatMerge(s.regs[BeatCountReg], data);
    var s1 := s.(regs := s.regs[BeatCountReg := v]);
    if v & 0xc000 == 0xc000 then s1.(irq := true, irqRequests := s1.irqRequests + 1)
    else s1.(irq := false)
  }

  /** `count--` guarded by `count > 0`, on the 14-bit field. */
  function CountDown(c: Word): (d: Word)
    requires c < 0x4000
    ensures d < 0x4000 && d & 0x3fff == d
    ensures d == if c > 0 then c - 1 else 0
  {
    if c > 0 then CountFits(c - 1); c - 1 else CountFits(0); 0
  }

  /** The beat-count word when the beat base has run down (lines 708-714):
      the 14-bit count steps down, stopping at zero, and on reaching zero the
      IRQ bit latches if the IRQ is enabled. */
  function BeatStep(beat: Word): (r: Word)
    ensures BeatCount(r) == CountDown(BeatCount(beat))
    ensures r & BeatIrqEnableBit == beat & BeatIrqEnableBit
    ensures r & BeatIrqBit != 0 <==> beat & BeatIrqBit != 0 || (BeatCount(r) == 0 && beat & BeatIrqEnableBit != 0)
  {
    var count := CountDown(BeatCount(beat));
    var beat1 := WithBeatCount(beat, count);
    if count == 0 && beat1 & BeatIrqEnableBit != 0 then
      LatchIrq(beat1);
      beat1 | BeatIrqBit
    else beat1
  }

  lemma CountFits(c: Word)
    requires c < 0x4000
    ensures c & 0x3fff == c
  {
  }

  /** Setting the IRQ bit keeps the count and the enable bit. */
  lemma LatchIrq(w: Word)
    ensures BeatCount(w | BeatIrqBit) == BeatCount(w)
    ensures (w | BeatIrqBit) & BeatIrqEnableBit == w & BeatIrqEnableBit
    ensures (w | BeatIrqBit) & BeatIrqBit != 0
  {
  }

  /** `SPU_TriggerBeatIRQ`, one expiry of the beat timer: the beat base
      counts down; when it runs out it reloads from register 4 and the beat
      counter steps; when the counter is zero the pending beat IRQ is raised
      if the IRQ is enabled and its bit is set, and dropped otherwise. */
  function TriggerBeatIrq(s: State): (r: State)
    ensures s.currBeatBase > 1 ==> r == s.(currBeatBase := s.currBeatBase - 1)
    ensures s.currBeatBase <= 1 ==> r.currBeatBase == s.regs[BeatBaseReg]
    ensures r.channels == s.channels
  {
    var base := if s.currBeatBase > 0 then s.currBeatBase - 1 else 0;
    if base != 0 then s.(currBeatBase := base)
    else
      var beat := BeatStep(s.regs[BeatCountReg]);
      var s1 := s.(currBeatBase := s.regs[BeatBaseReg], regs := s.regs[BeatCountReg := beat]);
      if BeatCount(beat) != 0 then s1
      else if beat & BeatIrqEnableBit != 0 && beat & BeatIrqBit != 0 then s1.(irq := true, irqRequests := s1.irqRequests + 1)
      else s1.(irq := false)
  }

  /** When the beat base runs out, the beat counter steps down by one
      (stopping at zero); once it is zero the pending beat IRQ equals the
      enable bit and the IRQ bit is latched when enabled; before that the
      pending IRQ is left alone. */
  lemma TriggerBeatIrqCount(s: State)
    requires s.currBeatBase <= 1
    ensures var r := TriggerBeatIrq(s); var n := BeatCount(s.regs[BeatCountReg]);
      && BeatCount(r.regs[BeatCountReg]) == (if n > 0 then n - 1 else 0)
      && r.regs == s.regs[BeatCountReg := r.regs[BeatCountReg]]
      && (BeatCount(r.regs[BeatCountReg]) == 0 ==>
            && (r.irq <==> s.regs[BeatCountReg] & BeatIrqEnableBit != 0)
            && (r.irq <==> r.regs[BeatCountReg] & BeatIrqBit != 0 && r.regs[BeatCountReg] & BeatIrqEnableBit != 0)
            && r.irqRequests == s.irqRequests + (if r.irq then 1 else 0))
      && (BeatCount(r.regs[BeatCountReg]) != 0 ==> r.irq == s.irq && r.irqRequests == s.irqRequests)
  {
  }
}
