# SPU sound unit model

A Dafny model of the sound processing unit (SPU) of a V.Smile-style console
emulator: the core of `src/core/spu.c`. The unit has sixteen channels. Each
channel has a block A of 16 registers and a block B of 8 registers. A global
block holds 32 further registers: the channel masks (enable, status, stop,
ramp-down, tone release, FIQ enable and FIQ status), the volume select, the
beat timer registers and the envelope clocks. Each channel:

- decodes a wave from bus memory in one of four modes: 8-bit PCM, 16-bit PCM,
  IMA-style ADPCM, or the block-predicted ADPCM36;
- scales the decoded sample by an 8-bit envelope amplitude;
- splits it left and right with a pan law.

Once per output sample the enabled channels are mixed, and the mixed pair is
shifted by the volume selector. Two more engines run on frame counters:

- An envelope engine steps the amplitude toward a target and fetches the next
  envelope program words from memory.
- A ramp-down engine fades a released channel out and then silences it.

A beat timer counts down and raises the beat IRQ. A channel IRQ latches the
FIQ status bit.

The model is organised as follows:

| module | file | contents |
|---|---|---|
| `Bits` | bits.dfy | word types, channel numbers, 16-bit two's complement |
| `Masks` | masks.dfy | per-bit facts about the mask updates `\|=`, `&= ~` and `^` |
| `Layout` | layout.dfy | register numbers and the packed bit-fields |
| `SpuState` | state.dfy | the unit's state as a value; start, stop, enable, the channel IRQ and the beat timer |
| `Registers` | registers.dfy | `SPU_Read` and `SPU_Write` |
| `Adpcm` | adpcm.dfy | the two ADPCM decoders |
| `Decoder` | decoder.dfy | `SPU_TickSample`: the four decode loops, the end sentinel and the address store |
| `Envelope` | envelope.dfy | `SPU_TickEnvelope`, `SPU_GetEnvelopeClock` and the frame tables |
| `Voice` | voice.dfy | the sample path of `SPU_TickChannel`: interpolation, amplitude scaling, pan law |
| `Mixer` | mixer.dfy | the rest of `SPU_TickChannel`: ramp-down, envelope countdown, one channel's output |
| `Mix` | mix.dfy | `SPU_Tick`: sample counter, drain, FIQ forwarding, mix, volume select |
| `Machine` | machine.dfy | class `Spu`, which keeps the state in arrays and updates it in place |

Bus memory (`Bus_Load`) is a read-only parameter `mem` of type `Memory = Addr -> Word`: a function from 32-bit bus addresses (`bv32`, like the code's `uint32_t waveAddr`) to 16-bit words.

Each method of `Machine.Spu` is proved to leave the arrays and fields in the
state that the corresponding function computes from the state before the
call. The loops are proved the same way: the enable loop, the decode loop,
the drain loop and the mix loop. The properties of the unit are lemmas about
those functions.

Registers are held raw. Every C bit-field view is an accessor function in
`Layout`. The header that declares the bit-fields is not part of this model,
so the positions of the sub-fields inside the words are assumed:

- `mode`: waveHi 0-5, loopHi 6-11, playMode 12-13, pcmMode 14-15.
- `panVol`: vol 0-6, pan 8-14.
- `env0`: increment 0-7, target 8-14.
- `envData`: amplitude 0-7, count 8-15.
- `env1`: loadVal 0-7, repeatEnable 8, repeatCount 9-15.
- `envAddrHigh`: envAddrHi 0-5.
- `envLoopCtrl`: envAddrOffset 0-8, rampDownOffset 9-15.
- `rampDownClock`: 0-2.
- ADPCM36 header: shift 0-3, filter 4-9.
- `beatCount`: count 0-13, irq 14, irqEn 15. These positions follow the `0x4000` and `0xc000` literals.

The global aliases are taken from the register name table:

| register | alias |
|---|---|
| 0x00 | enable |
| 0x01 | volume select |
| 0x02 | FIQ enable |
| 0x03 | FIQ status |
| 0x04 | beat base |
| 0x05 | beat count |
| 0x06-0x09 | envelope clocks |
| 0x0a | ramp-down |
| 0x0b | stop |
| 0x0d | control |
| 0x0f | status |
| 0x15 | envelope mode |
| 0x16 | tone release |

The lemmas are stated through these accessors, so none of them relies on a
particular choice of positions.

Two kinds of value cannot be computed here, so they are inputs of the model:

- the number of decode steps per sample, which the C code derives from the
  floating-point phase accumulator;
- the interpolation weight, which it derives from the floating-point rate.

No range is assumed for the weight: the bounds on a channel's output hold for
every integer weight, because the interpolation as written returns the current
sample or one below it whatever the weight.

## Model

| member | source | states |
|---|---|---|
| Adpcm.Clamp | src/core/spu.c:378-384 | the clamped value lies in [lo, hi] and equals the input whenever the input is already in range |
| Adpcm.IndexShiftAsWritten | src/core/spu.c:382 | the step-index lookup as written has a table entry exactly for nybbles 0-7; nybbles 8-15 read past the 8-entry table |
| Adpcm.IndexShiftOverrun | src/core/spu.c:79 | nybbles 8 and 15, both legal decoder inputs, have no entry in `adpcmStepShift` |
| Adpcm.IndexAdjust | src/core/spu.c:382-384 | the corrected adjustment lies in [-1, 8] and agrees with the table as written on every nybble 0-7 |
| Adpcm.IndexAdjustSignFree | src/core/spu.c:382 | the corrected adjustment is the same for a nybble with and without its sign bit |
| Adpcm.Magnitude | src/core/spu.c:370-374 | the offset magnitude lies between `step/8` and `2*step` |
| Adpcm.MagnitudeApprox | src/core/spu.c:370-374 | eight times the magnitude is within 18 below `(2m+1)*step`, where m is the nybble's magnitude bits: the four truncated shifts approximate `(2m+1)*step/8` |
| Adpcm.MagnitudeMonotone | src/core/spu.c:370-374 | a larger magnitude never gives a smaller offset |
| Adpcm.AdpcmDecode | src/core/spu.c:367-387 | the sample returned (also the new last sample) is in [-2048, 2047]; the new step index is in [0, 48]; with bit 3 clear the sample does not fall below the last sample, and with bit 3 set it does not rise above it |
| Adpcm.AdpcmMonotone | src/core/spu.c:375-379 | for one sign, the decoded sample is monotone in the magnitude bits |
| Adpcm.AdpcmSignMirror | src/core/spu.c:375-377 | away from the clamps, setting bit 3 mirrors the new sample around the last one; the step index moves the same way for both |
| Adpcm.ZeroNybbleRises | src/core/spu.c:370-376 | below the upper clamp, a zero nybble strictly raises the sample, so silence encoded as zero nybbles does not settle |
| Adpcm.Filter | src/core/spu.c:393-394 | the sign-extended filter lies in [-32, 31] and is congruent to the 6-bit field modulo 64 |
| Adpcm.SignedNybble | src/core/spu.c:396 | a nybble read as 4-bit two's complement lies in [-8, 7] and is congruent to the nybble modulo 16 |
| Adpcm.RawSample | src/core/spu.c:396 | `nybble << 12` stored in an `int16_t` is the signed nybble times 4096 |
| Adpcm.Adpcm36Decode | src/core/spu.c:390-401 | the ADPCM36 sample always fits an `int16_t` |
| Adpcm.Adpcm36Unpredicted | src/core/spu.c:396-397 | with an empty history and a shift of at most 12, the sample is exactly the signed nybble times `2^(12-shift)` |
| Layout.SplitJoin | src/core/spu.c:291-292 | storing an address as a low word plus six high bits keeps exactly its low 22 bits |
| Layout.JoinSplit | src/core/spu.c:196 | joining a low word and six high bits and splitting again gives both halves back |
| SpuState.Initial | src/core/spu.c:89-104 | after initialisation every channel is valid, no channel is enabled and the sample counter holds one period |
| SpuState.StartBits | src/core/spu.c:642-664 | starting a channel sets its enable bit, sets its status bit exactly when its stop bit is clear, marks it playing and (unless stopped) clears the ADPCM36 block state; no other bit, register or channel changes |
| SpuState.StopBits | src/core/spu.c:667-683 | stopping a channel clears its enable, ramp-down, status and tone-release bits and only those, selects 8-bit PCM with the other mode fields kept, and zeroes the cursor and ADPCM history; no other channel changes |
| SpuState.StopRecordBits | src/core/spu.c:673-682 | the stopped channel record: pcmMode 0 with the other mode fields kept, cursor 0, ADPCM history 0, not playing, every other block A register kept |
| SpuState.StartValid | src/core/spu.c:642-664 | a start keeps every channel valid |
| SpuState.StopValid | src/core/spu.c:667-683 | a stop keeps every channel valid |
| SpuState.Start | src/core/spu.c:642-664 | `SPU_StartChannel` as written; no contract of its own: SpuState.StartBits and SpuState.StartValid state what it does |
| SpuState.Stop | src/core/spu.c:667-683 | `SPU_StopChannel` as written; no contract of its own: SpuState.StopBits, SpuState.StopRecordBits and SpuState.StopValid state what it does |
| SpuState.EnableChannelsLoop | src/core/spu.c:619-639 | a changed mask runs the loop over all sixteen channels and then stores the written mask |
| SpuState.EnableStepKeeps | src/core/spu.c:623-635 | one pass of the enable loop keeps the bit-by-bit loop invariant |
| SpuState.EnableUpToBits | src/core/spu.c:623-635 | after k passes, the masks and channel records are as the changed channels below k left them, bit by bit |
| SpuState.EnableChannelsChanged | src/core/spu.c:619-639 | for a changed mask, the result is the loop's result with the written mask stored |
| SpuState.EnableChannelsSame | src/core/spu.c:622 | writing the current mask changes nothing |
| SpuState.EnableChannelsMask | src/core/spu.c:619-639 | afterwards the enable mask equals the written word; the only other global registers that can change are the status, ramp-down and tone-release masks |
| SpuState.EnableChannelsReleases | src/core/spu.c:619-639 | a channel loses its ramp-down and tone-release bits exactly when its enable bit turned off; every other bit is kept |
| SpuState.EnableChannelsStat | src/core/spu.c:619-639 | a channel whose bit turned on gains its status bit unless its stop bit is set; one whose bit turned off loses it; all others keep theirs |
| SpuState.EnableChannelsStarts | src/core/spu.c:619-639 | exactly the channels whose bit changed are started (bit on) or stopped (bit off); every other channel record is untouched |
| SpuState.EnableUpToValid | src/core/spu.c:623-635 | every pass of the enable loop keeps every channel valid |
| SpuState.EnableChannels | src/core/spu.c:619-639 | `SPU_EnableChannels` as written; no contract of its own: the SpuState.EnableChannels* lemmas above state what it does |
| SpuState.TriggerChannelIrqBits | src/core/spu.c:478-488 | with the channel's FIQ-enable bit clear, the FIQ status bit is latched, the channel IRQ is raised and IRQ activation is requested once; with it set, nothing changes |
| SpuState.TriggerChannelIrq | src/core/spu.c:478-488 | the flag logic of `SPU_TriggerChannelIRQ` as written; no contract of its own: SpuState.TriggerChannelIrqBits states what it does |
| SpuState.BeatMerge | src/core/spu.c:689-691 | the merged beat word takes every bit but 14 from the data; bit 14 is cleared by a written one and otherwise kept |
| SpuState.WriteBeatCount | src/core/spu.c:686-700 | the beat register becomes the merged word; the beat IRQ is raised (and activation requested) exactly when bits 15 and 14 are both set, and is dropped otherwise |
| SpuState.CountDown | src/core/spu.c:708-709 | the 14-bit count goes down by one, stopping at zero |
| SpuState.BeatStep | src/core/spu.c:708-714 | the beat word's count steps down, stopping at zero; on zero the IRQ bit latches if enabled; the enable bit is kept |
| SpuState.TriggerBeatIrq | src/core/spu.c:703-727 | the beat base counts down; when it runs out it reloads from register 4; the channel records are never touched |
| SpuState.TriggerBeatIrqCount | src/core/spu.c:706-723 | when the beat base runs out, the count steps down; once the count is zero the pending beat IRQ equals the enable bit; before that the pending IRQ is left alone |
| Registers.Decode | src/core/spu.c:514-529 | the decoded register always lies inside its block, and an address selects nothing exactly when its bits 8-11 name none of the three blocks |
| Registers.DecodeEncode | src/core/spu.c:514-529 | every register of every block has an address that decodes to it |
| Registers.EncodeReaches | src/core/spu.c:491-616 | a register's canonical address reads and writes that register |
| Registers.ReadAfterWrite | src/core/spu.c:559-614 | every block A and block B register, and every global register other than 0, 3, 5 and 0x0b, reads back the word just written |
| Registers.ReadAfterEnable | src/core/spu.c:602 | the enable mask reads back as the word written, whatever the channels did |
| Registers.ReadAfterFiqClear | src/core/spu.c:603-607 | the FIQ status becomes `old & ~data` |
| Registers.ReadAfterStopClear | src/core/spu.c:609 | the stop mask becomes `old & ~data` |
| Registers.FiqStatClear | src/core/spu.c:603-607 | clearing FIQ status bits drops the pending channel IRQ exactly when no status bit is left, and keeps it otherwise |
| Registers.ReadAfterBeatWrite | src/core/spu.c:608 | the beat register reads back with the written count and enable bit; the IRQ bit is cleared by a written one and kept otherwise |
| Registers.UnmappedInert | src/core/spu.c:531 | outside the three blocks a read gives 0 and a write changes nothing |
| Registers.WriteFrameA | src/core/spu.c:559-573 | a block A store changes only its own register; every other register reads as before |
| Registers.WriteFrameB | src/core/spu.c:575-596 | a block B store changes only its own register |
| Registers.WriteFrameGlobal | src/core/spu.c:610 | a plain global store changes only its own register |
| Registers.ChannelWriteFrame | src/core/spu.c:559-596 | a block A or block B write changes only the addressed channel's record |
| Registers.WriteValid | src/core/spu.c:535-616 | every register write keeps every channel valid |
| Registers.GlobalKeepsChannels | src/core/spu.c:598-614 | only the enable register reaches the channel records |
| Registers.EnableValid | src/core/spu.c:602 | an enable write keeps every channel valid |
| Registers.Read | src/core/spu.c:491-532 | `SPU_Read` as written; no contract of its own: Registers.EncodeReaches, Registers.ReadAfterWrite and Registers.UnmappedInert state what it returns |
| Registers.Write | src/core/spu.c:535-616 | `SPU_Write` as written; no contract of its own: the Registers.ReadAfter*, Registers.WriteFrame* and Registers.WriteValid lemmas state what it does |
| Registers.WriteGlobal | src/core/spu.c:598-614 | the global-block dispatch of `SPU_Write` as written; no contract of its own: Registers.ReadAfterEnable, ReadAfterFiqClear, ReadAfterStopClear, ReadAfterBeatWrite, WriteFrameGlobal and GlobalKeepsChannels state what it does |
| Registers.ClearFiqStat | src/core/spu.c:603-607 | the FIQ status clear as written; no contract of its own: Registers.FiqStatClear states what it does |
| Decoder.AtEndCases | src/core/spu.c:209-217 | at the sentinel, a one-shot channel is stopped where it is, and a looping one jumps to its loop address with the mode's reset applied |
| Decoder.AtEndLoops | src/core/spu.c:213-216 | a looping channel jumps to `loopAddr \| loopHi << 16` with the global registers and block A kept; the cursor is cleared unless the mode keeps it, and the ADPCM history is cleared when the mode asks for it |
| Decoder.BlockStart | src/core/spu.c:263-266 | after a block start the word counter is non-zero |
| Decoder.Fetch | src/core/spu.c:198-288 | one pass in any mode keeps the channel valid and writes no block A register but the sample word, and no block B register |
| Decoder.Step | src/core/spu.c:198-288 | one full pass keeps the channel valid and changes no other channel and no scalar; the global registers change only as a stop changes them |
| Decoder.DecodeSteps | src/core/spu.c:200-288 | any number of passes keeps the channel valid and stays within the same frame as a single pass |
| Decoder.FinishStop | src/core/spu.c:211-212 | a pass that meets the sentinel in one-shot mode stops the channel at the fetched address |
| Decoder.FinishRun | src/core/spu.c:208-216 | a pass that keeps running stores the fetched record, with the loop reset applied when it looped |
| Decoder.FinishValid | src/core/spu.c:208-216 | the sentinel test keeps the channel valid |
| Decoder.FinishKeepsReg | src/core/spu.c:208-216 | the sentinel test writes no channel register but the mode word |
| Decoder.StepKeepsReg | src/core/spu.c:198-288 | a pass writes no channel register but the sample word and the mode word |
| Decoder.DecodeKeepsReg | src/core/spu.c:198-288 | the whole decode loop writes no channel register but the sample word and the mode word |
| Decoder.TickSamplePrev | src/core/spu.c:184 | afterwards `prevWaveData` holds the sample word the channel had on entry, in every mode and for every step count |
| Decoder.TickSampleFrame | src/core/spu.c:181-295 | other channels and the unit's scalars are untouched; the global registers change only by stopping this channel |
| Decoder.TickSampleValid | src/core/spu.c:181-295 | every channel stays valid: cursor below 16, step index in [0, 48], last sample clamped, ADPCM36 word counter in [0, 8], 16-bit history |
| Decoder.StepSentinel | src/core/spu.c:198-288 | in every mode: without the sentinel the fetched record and address stand; a one-shot channel is stopped; a looping one jumps to its loop address with the cursor cleared (except in 16-bit mode) and, in the ADPCM modes, the ADPCM history cleared |
| Decoder.FinishSentinel | src/core/spu.c:208-285 | the sentinel test for a pass that kept the mode word and the loop address |
| Decoder.Fetch8Sample | src/core/spu.c:200-207 | 8-bit PCM: the sample is the byte under the cursor in the high half of the word, so its low byte is 0; the cursor alternates 0/8 and the address moves on after the high byte |
| Decoder.Fetch16Sample | src/core/spu.c:222-223 | 16-bit PCM: the sample is the whole word and the address moves by one |
| Decoder.FetchAdpcmSample | src/core/spu.c:238-246 | ADPCM: the nybble under the cursor is decoded; the result becomes the new last sample; the stored word is that sample times four with the sign bit flipped; the cursor moves by 4 and wraps to the next word |
| Decoder.Fetch36Sample | src/core/spu.c:262-275 | ADPCM36: a header is read, and the address moves past it, exactly when the word counter is 0; the history shifts by one sample with the new sample in front; the stored word is the sample with its sign bit flipped; the counter (8 at a block start) drops by one when the cursor leaves the word |
| Decoder.FinishKeepsBlock | src/core/spu.c:277-286 | neither a stop nor a loop reset touches the ADPCM36 block state |
| Decoder.Step36History | src/core/spu.c:397-399 | a pass in ADPCM36 mode shifts the prediction history by one sample, even when it meets the sentinel |
| Decoder.DecodeLowByte | src/core/spu.c:200-203 | in 8-bit mode every pass leaves a sample word whose low byte is 0 |
| Decoder.TickSampleLowByte | src/core/spu.c:199-219 | a channel in 8-bit mode that decoded at least one sample holds a word whose low byte is 0 |
| Decoder.StoreAddressSplit | src/core/spu.c:291-292 | storing an address and reading it back as `waveAddr \| waveHi << 16` gives its low 22 bits |
| Decoder.TickSampleAddress | src/core/spu.c:291-292 | the address the loop ends on comes back as its low 22 bits |
| Decoder.TickSampleIdle | src/core/spu.c:193-194 | with no step the channel keeps its sample word, address, cursor and decoder history; only `prevWaveData` is written |
| Decoder.TickSample | src/core/spu.c:181-295 | `SPU_TickSample` as written, with the step count as an input; no contract of its own: the Decoder.TickSample* lemmas state what it does |
| Envelope.EnvelopeFramesDouble | src/core/spu.c:85-87 | clock settings 0-11 double the envelope period, starting from 4 frames; settings 12-15 saturate at 8192 |
| Envelope.RampDownFramesGrow | src/core/spu.c:81-83 | the ramp-down periods grow by four per class up to class 5, and the slowest class repeats |
| Envelope.EnvelopeClock | src/core/spu.c:466-475 | the clock is a nybble in [0, 15], so it always indexes the 16-entry table |
| Envelope.UnpackNybbles | src/core/spu.c:468-471 | packing four nybbles and reading nybble i back gives the i-th |
| Envelope.EnvelopeClockUnpacks | src/core/spu.c:466-475 | reading the clock from packed registers gives each channel its own nybble |
| Envelope.AmplitudeStep | src/core/spu.c:413-434 | the stepped amplitude is an 8-bit value (its cases are stated by the next lemmas) |
| Envelope.NextAmplitude | src/core/spu.c:413-434 | the amplitude after the step of an `env0` word stays 8-bit |
| Envelope.IncrementBounded | src/core/spu.c:430-434 | on the increment path the amplitude never ends above the target; from below it rises toward the target without passing it |
| Envelope.DecrementCases | src/core/spu.c:416-422 | on the decrement path a wrapped subtraction gives 0, a result below the target gives the target, and any other result is the difference |
| Envelope.DecrementFromAbove | src/core/spu.c:416-422 | from above the target, a decrement lands between the target and the old amplitude, or at 0 when it wrapped |
| Envelope.Advance | src/core/spu.c:438-461 | the program step changes only the channel's block A registers |
| Envelope.CountedDownWord | src/core/spu.c:410-411 | the countdown drops by one when it is non-zero; the amplitude is kept |
| Envelope.EnvelopeWaits | src/core/spu.c:410-413 | while the countdown is above 1, a call only counts it down; amplitude, program, other registers, channels and masks are unchanged |
| Envelope.EnvelopeSteps | src/core/spu.c:413-461 | with the countdown at 0 or 1, a call steps the amplitude and then either stops the channel (decrement to 0), runs the program step (target reached) or leaves the rest alone |
| Envelope.SteppedAmplitude | src/core/spu.c:413-434 | the stored amplitude is the one the amplitude step computes, and the countdown is left at 0 |
| Envelope.AmplitudeStored | src/core/spu.c:416-434 | an 8-bit amplitude stored into the data word reads back unchanged, with the countdown kept |
| Envelope.ProgramPlain | src/core/spu.c:452-456 | without repeat, env0 and env1 are loaded from ptr and ptr+1 and the pointer moves on by 2 |
| Envelope.ProgramRepeat | src/core/spu.c:441-451 | with repeat, the pass that brings the 7-bit count to 0 loads env0, env1 and loopCtrl from ptr..ptr+2 and adds the unsigned offset; any other pass only counts down, keeping the reload value and the repeat flag |
| Envelope.RepeatCountDown | src/core/spu.c:442-443 | the 7-bit decrement reaches 0 exactly from 1 and otherwise wraps modulo 128 |
| Envelope.InstallStores | src/core/spu.c:459-461 | installing a program stores its words, keeps its address modulo 2^22, reloads the countdown from the new `loadVal` and keeps the amplitude |
| Envelope.SteppedProgram | src/core/spu.c:413-440 | the amplitude step does not change what the program step reads |
| Envelope.EnvelopeReachesTarget | src/core/spu.c:438-461 | a call that reaches the target holds the program step's words and address (mod 2^22), reloads the countdown from the new `loadVal`, and leaves the amplitude at the old target |
| Envelope.EnvelopeMoves | src/core/spu.c:413-438 | a call that steps without reaching the target or fading out stores only the new amplitude, with the countdown at 0 |
| Envelope.EnvelopeFadesOut | src/core/spu.c:425-428 | a decrement to 0 stops the channel, clearing its enable bit, leaves the amplitude at 0 and returns before any program fetch |
| Envelope.EnvelopeRises | src/core/spu.c:430-434 | from at or below the target, an incrementing envelope only rises and never passes the target |
| Envelope.NextAmplitudeRises | src/core/spu.c:430-434 | the word-level form of the increment bound; an increment never fades out |
| Envelope.EnvelopeFrame | src/core/spu.c:405-463 | a call changes only this channel's record, and the global registers only as a stop does |
| Envelope.EnvelopeOwnValid | src/core/spu.c:405-463 | the channel stays valid |
| Envelope.EnvelopeKeepsTimers | src/core/spu.c:405-463 | the channel's frame countdowns are not touched |
| Envelope.EnvelopeValid | src/core/spu.c:405-463 | every channel stays valid |
| Envelope.TickEnvelope | src/core/spu.c:405-463 | `SPU_TickEnvelope` as written; no contract of its own: the Envelope.Envelope* lemmas above state what it does |
| Voice.SampleOf | src/core/spu.c:302 | flipping the top bit of the offset-binary word and reading it as `int16_t` takes 32768 off |
| Voice.InterpolateAsWrittenFlat | src/core/spu.c:305-309 | whatever the weight and the previous sample, the interpolation as written returns the current sample or one below it |
| Voice.InterpolateIgnoresPrev | src/core/spu.c:305 | for a channel whose previous sample is 0 and current sample 1000, at weight 0 the code gives 1000 where the previous sample, 0, is meant |
| Voice.Interpolate | src/core/spu.c:303-310 | the corrected interpolation is the previous sample at weight 0 and the current sample at weight 256 |
| Voice.InterpolateBetween | src/core/spu.c:303-310 | for a weight in [0, 256] the corrected interpolation lies between the two samples, give or take one for rounding; the tick itself uses the interpolation as written |
| Voice.ScaledBound | src/core/spu.c:312 | a 16-bit sample scaled by any 8-bit amplitude stays within 17 bits |
| Voice.PanLouderSide | src/core/spu.c:316-326 | the nearer side gets the full `127*vol`; the other side gets between 0 and that much |
| Voice.LawLouderSide | src/core/spu.c:320-326 | the same bound for the pan law on numbers |
| Voice.PanMirror | src/core/spu.c:320-326 | mirroring the pan (`127 - pan`) swaps the two weights |
| Voice.PanMonotone | src/core/spu.c:320-326 | moving the pan right never lowers the right weight nor raises the left one |
| Mixer.RampDownValue | src/core/spu.c:336-339 | the `uint8_t` subtraction with the wrap replaced by 0 is the difference when it is positive, and 0 otherwise |
| Mixer.SilenceBits | src/core/spu.c:344-348 | silencing clears this channel's enable, status, ramp-down and tone-release bits, sets its stop bit, and changes no other bit, register or channel |
| Mixer.RampDownLevel | src/core/spu.c:336-339 | the ramp-down level is an 8-bit value |
| Mixer.RampDownWaits | src/core/spu.c:332-335 | while the countdown is above 1, only the countdown changes |
| Mixer.RampDownDecays | src/core/spu.c:335-342 | at 0 with the amplitude above the offset, the amplitude drops by the offset, the countdown is reloaded from `rampdownFrameCounts[rampDownClock]`, and nothing else changes |
| Mixer.RampDownEnds | src/core/spu.c:341-352 | at 0 with the offset taking the amplitude to 0 or below, the amplitude is left as it was, the channel is silenced, and the countdown is still reloaded |
| Mixer.EnvelopeTimerWaits | src/core/spu.c:355-358 | while the envelope countdown is above 1, only the countdown changes |
| Mixer.EnvelopeTimerFires | src/core/spu.c:358-362 | at 0 the envelope engine runs once, and the countdown is reloaded with the period of the channel's clock, which the engine does not change |
| Mixer.ClockKept | src/core/spu.c:362 | neither a frame nor a stop changes the envelope clock registers |
| Mixer.ChannelSampleBound | src/core/spu.c:302-312 | for every weight, with the interpolation as written or without it, the scaled sample stays within 17 bits |
| Mixer.ChannelOutputBound | src/core/spu.c:298-329 | for every weight, each side of one channel's output is within `MaxOut`, the largest sample times `127*127` |
| Mixer.RampDownKeepsEnvelope | src/core/spu.c:331-353 | the ramp-down leaves the envelope program, its address and its countdown alone |
| Mixer.RampDownShape | src/core/spu.c:331-353 | the ramp-down rewrites at most the envelope data word and the ramp-down countdown |
| Mixer.RampDownExcludesEnvelope | src/core/spu.c:331-354 | with the ramp-down bit set, the envelope program and its countdown are not touched in that frame |
| Mixer.RampDownFrame | src/core/spu.c:331-353 | the ramp-down changes no other channel and no scalar, and keeps the channel valid |
| Mixer.EnvelopeTimerFrame | src/core/spu.c:354-363 | the envelope countdown changes no other channel and no scalar |
| Mixer.EnvelopeTimerValid | src/core/spu.c:354-363 | the envelope countdown keeps the channel valid |
| Mixer.FrameUpdateFrame | src/core/spu.c:331-364 | the frame update changes no other channel and no scalar, and keeps the channel valid |
| Mixer.TickChannelFrame | src/core/spu.c:298-364 | a channel tick changes no other channel record and no scalar of the unit, and keeps every channel valid |
| Mixer.Silence | src/core/spu.c:344-348 | the five mask updates of the ramp-down as written; no contract of its own: Mixer.SilenceBits states what it does |
| Mixer.RampDown | src/core/spu.c:331-353 | one ramp-down frame as written; no contract of its own: Mixer.RampDownWaits, RampDownDecays, RampDownEnds and RampDownFrame state what it does |
| Mixer.EnvelopeTimer | src/core/spu.c:354-363 | the envelope countdown as written; no contract of its own: Mixer.EnvelopeTimerWaits, EnvelopeTimerFires and EnvelopeTimerFrame state what it does |
| Mixer.FrameUpdate | src/core/spu.c:331-364 | the frame update as written: ramp-down if its bit is set, else the envelope countdown unless env-mode is set; no contract of its own: Mixer.RampDownExcludesEnvelope and Mixer.FrameUpdateFrame state what it does |
| Mixer.ChannelSample | src/core/spu.c:302-312 | the channel's scaled sample with the interpolation as written (`Voice.InterpolateAsWritten`), skipped when bit 9 of ctrl is set; no contract of its own: Mixer.ChannelSampleBound states its range |
| Mixer.TickChannel | src/core/spu.c:298-364 | `SPU_TickChannel` as written (interpolation as written), with the step count and weight as inputs; no contract of its own: Mixer.TickChannelFrame and Mixer.ChannelOutputBound state what it does |
| Mix.MixUpTo | src/core/spu.c:147-162 | the mix of the first k channels keeps every channel valid and changes only registers and channel records |
| Mix.MixChannel | src/core/spu.c:151-160 | pass k ticks only channel k and keeps every channel valid; a channel whose enable bit is clear contributes silence and changes nothing |
| Mix.MixBound | src/core/spu.c:147-156 | for every weight, the exact mix of k channels is within `k * MaxOut` on each side |
| Mix.MixChannelBound | src/core/spu.c:151-156 | for every weight, one pass adds at most `MaxOut` to either side |
| Mix.MixSilent | src/core/spu.c:147-162 | with the enable mask 0, the mix is silence and the state is unchanged |
| Mix.Wrap32 | src/core/spu.c:147-156 | the `int32_t` wrap lies in [-2^31, 2^31) and is congruent to its input modulo 2^32 |
| Mix.AccumulateWraps | src/core/spu.c:147-156 | the `int32_t` accumulator as written ends at the exact sum wrapped to 32 bits |
| Mix.AccumulateAsWritten | src/core/spu.c:147-156 | the `int32_t` accumulator as written; no contract of its own: Mix.AccumulateWraps and Mix.AccumulateOverflows state what it computes |
| Mix.AccumulateOverflows | src/core/spu.c:154-155 | three full-scale channels overflow it: the exact sum is negative, and the accumulator as written ends positive |
| Mix.FullScaleChannel | src/core/spu.c:298-329 | one channel reaches the full-scale left output: word 0, amplitude 255, volume 127, pan 0 |
| Mix.VolumeAsWrittenLopsided | src/core/spu.c:170-173 | as written, selectors 1-3 divide the left side by 2^16 and pass the right side through unscaled |
| Mix.VolumeAsWrittenUnequal | src/core/spu.c:170-173 | equal sides of 65536 with selector 1 come out as 1 on the left and 65536 on the right |
| Mix.VolumeSymmetric | src/core/spu.c:164-174 | the corrected shift treats both sides alike (swapping the inputs swaps the outputs) and divides by 2^10 for selector 0 and by 2^8 otherwise |
| Mix.VolumeAsWritten | src/core/spu.c:164-174 | the volume shift as written, which the tick uses; no contract of its own: Mix.VolumeAsWrittenLopsided and Mix.VolumeAsWrittenUnequal state what it does |
| Mix.Volume | src/core/spu.c:164-174 | the corrected volume shift; no contract of its own: Mix.VolumeSymmetric states what it does |
| Mix.Drained | src/core/spu.c:135-140 | the drain loop leaves a non-positive count alone, and takes a positive one into (-period, 0] by whole periods |
| Mix.Ready | src/core/spu.c:133-145 | the state a sample is mixed from keeps every channel valid |
| Mix.TickWaits | src/core/spu.c:128-132 | while the counter is positive, the cycles move from the counter to the accumulator (their sum is kept) and nothing else changes |
| Mix.TickSamples | src/core/spu.c:133-145 | once the counter has run out: it is pushed on by one period; the accumulator is drained to within one period below 0; a pending channel IRQ becomes exactly one FIQ and is cleared; the beat IRQ is untouched; every channel stays valid |
| Mix.TickSilent | src/core/spu.c:147-174 | with no channel enabled, a sample is silence on both sides, with the volume shift as written |
| Mix.Tick | src/core/spu.c:125-178 | `SPU_Tick` as written (volume shift and interpolation as written, exact mix sums); no contract of its own: Mix.TickWaits, Mix.TickSamples and Mix.TickSilent state what it does |
| Machine.Spu.constructor | src/core/spu.c:89-104 | the unit starts in the initial state, and every channel is valid |
| Machine.Spu.SetChannel | src/core/spu.c:3 | storing a record in its slot changes only that slot |
| Machine.Spu.Read | src/core/spu.c:491-532 | the word returned is the addressed register, or 0 outside the blocks |
| Machine.Spu.Write | src/core/spu.c:535-616 | the arrays end in the state of a register write, and every channel stays valid |
| Machine.Spu.WriteChannelA | src/core/spu.c:559-573 | a block A store (with the phase reset for registers 0 and 1) done in place |
| Machine.Spu.WriteChannelB | src/core/spu.c:575-596 | a block B store (with the phase reset for registers 0 and 4) done in place |
| Machine.Spu.WriteGlobal | src/core/spu.c:598-614 | a global write, with its dispatch, done in place |
| Machine.Spu.ClearFiqStat | src/core/spu.c:603-607 | `fiqStat &= ~data`, and an empty status drops the pending channel IRQ, done in place |
| Machine.Spu.EnableChannels | src/core/spu.c:619-639 | the enable loop done in place ends in the state of the enable write |
| Machine.Spu.EnablePass | src/core/spu.c:624-634 | one pass of the enable loop done in place |
| Machine.Spu.StartChannel | src/core/spu.c:642-664 | a start done in place |
| Machine.Spu.StopChannel | src/core/spu.c:667-683 | a stop done in place |
| Machine.Spu.TriggerChannelIrq | src/core/spu.c:478-488 | the channel IRQ's flag logic done in place |
| Machine.Spu.WriteBeatCount | src/core/spu.c:686-700 | the beat-count merge done in place |
| Machine.Spu.TriggerBeatIrq | src/core/spu.c:703-727 | one beat timer expiry done in place |
| Machine.Spu.TickSample | src/core/spu.c:181-295 | the decode of one sample done in place, with the loop and the address store |
| Machine.Spu.DecodeLoop | src/core/spu.c:198-289 | the decode loop done in place ends at the cursor of `steps` passes |
| Machine.Spu.DecodePass | src/core/spu.c:198-288 | one decode pass done in place keeps the channel valid |
| Machine.Spu.FinishPass | src/core/spu.c:208-216 | the sentinel test done in place |
| Machine.Spu.TickEnvelope | src/core/spu.c:405-463 | the envelope engine done in place |
| Machine.Spu.RampDown | src/core/spu.c:331-353 | one ramp-down frame done in place |
| Machine.Spu.Silence | src/core/spu.c:344-348 | the five mask updates done in place |
| Machine.Spu.EnvelopeTimer | src/core/spu.c:354-363 | the envelope countdown done in place |
| Machine.Spu.TickChannel | src/core/spu.c:298-364 | one channel tick done in place, with the interpolation as written: the pair returned and the new arrays are those of Mixer.TickChannel, and every channel stays valid |
| Machine.Spu.Tick | src/core/spu.c:125-178 | one call of the sample tick done in place, with the drain loop, the mix loop and the volume shift as written: it either waits or returns the sample Mix.Tick gives |
| Machine.Spu.MixChannels | src/core/spu.c:147-162 | the mix loop done in place returns the exact sums of the enabled channels' outputs, each computed with the interpolation as written |
| Machine.Spu.MixPass | src/core/spu.c:150-160 | one pass of the mix loop done in place, with the interpolation as written |

## Left out

- The floating-point parts are inputs, not computed:
  - the per-channel `rate` and its derivation from the phase registers (src/core/spu.c:584-585);
  - the `accum` resampling loop (186-191), which gives the decode step count, taken as the input `steps`;
  - the interpolation weight `lerp` (306), taken as the input `lerp`.

  A write still resets `accum` where the code does; the value is otherwise not modelled.
- The timer facility (`Timer_Init`, `Timer_Tick`, `Timer_Adjust`, `Timer_Stop`, `Timer_Reset`, `Timer_Cleanup`) is foreign code. Every call to it is left out:
  - the channel timers ticked inside the drain loop (137);
  - the beat timer (100-101, 126, 726).

  The drain loop is modelled by its effect on the cycle accumulator only.
- `CPU_TriggerFIQ` and `CPU_ActivatePendingIRQs` are foreign code and are counted in `fiqRequests` and `irqRequests`.
- `Backend_PushAudioSample` and `SDLBackend_PushOscilloscopeSample` are output devices. The tick returns the sample pair instead, and the oscilloscope is left out.
- `SPU_Init` is modelled by the constructor without the audio device and timer set-up. `SPU_Cleanup` and `SPU_Reset` only touch timers and are left out.
- `SPU_SAMPLE_TIMER` is defined outside this file, so it is the input `period`.
- Mix.Tick: does not model the `int32_t` wrap of `sampleTimer` and `accumulatedSamples`; both are unbounded integers.
- Mix.MixUpTo: sums the channel outputs exactly instead of in an `int32_t` accumulator. The wrap as written is modelled separately, by Mix.AccumulateAsWritten; see Findings.
- The C code has one decode loop per PCM mode. The model has one loop whose pass is chosen by the mode read on entry, which is what the `switch` does.
- `SPU_GetIRQ` and `SPU_GetChannelIRQ` return the `irq` and `channelIrq` fields, which are plain fields of the state here.
- The bit positions inside the packed register words are assumed, as listed at the top, because the header that declares them is not part of this model.
- The commented-out register tracing in `SPU_Read` and `SPU_Write` is not modelled.
- src/main.c (command line and ROM loading) is not part of this model.
- In the code, an ADPCM36 block is a header plus 8 data words (32 nybbles), not 8 samples. The model follows the code.
- The ramp-down countdown is reloaded even after the channel is silenced (Mixer.RampDownEnds), as the code does.

## Findings

| source | as written | input that shows it | evidently intended | confidence | as-written member | corrected member |
|---|---|---|---|---|---|---|
| src/core/spu.c:382 | `adpcmStepShift[nybble]` indexes the 8-entry table with the full 4-bit nybble | any nybble with bit 3 set, e.g. 8 or 15 | index by the three magnitude bits, so the sign bit does not change the adaptation | not executed | Adpcm.IndexShiftOverrun | Adpcm.IndexAdjustSignFree |
| src/core/spu.c:170-173 | volume selectors 1-3 shift `leftSample` right by 8 twice and never shift `rightSample` | selector 0x40 with both sides 65536 gives (1, 65536) | shift both sides right by 8 | not executed | Mix.VolumeAsWrittenUnequal | Mix.VolumeSymmetric |
| src/core/spu.c:147-156 | sixteen channel outputs of up to about 2^30 each are added in an `int32_t` | three channels at the full-scale left output, -65280·16129 each | an accumulator wide enough for the sum | not executed | Mix.AccumulateOverflows | Mix.MixBound |
| src/core/spu.c:305 | the interpolation reads `waveData` for both endpoints | previous word 0x8000 and current word 0x8000+1000 at weight 0 give 1000 instead of 0 | read `prevWaveData` for the first endpoint | not executed | Voice.InterpolateIgnoresPrev | Voice.InterpolateBetween |

The tick (Mix.Tick, Mixer.TickChannel and the methods of Machine.Spu) follows
the code as written for the volume shift and the interpolation. The corrected
Mix.Volume and Voice.Interpolate stand beside it, with their intended
properties proved. The mix itself sums exactly; the `int32_t` wrap is stated
by Mix.AccumulateAsWritten.

A zero ADPCM nybble still adds `step>>3`, which is at least 2 (Adpcm.ZeroNybbleRises). A run of zero nybbles therefore climbs to the clamp instead of settling at 0; the model states the code's behaviour.
