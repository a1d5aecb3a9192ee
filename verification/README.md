# Verified models of a Doom source port's engines

This project models, in Dafny, seven engines of the port that keep hard state, and proves what their
callers rely on. Each file is one module.

| engine | files | models |
|---|---|---|
| OPL3 emulator | `Opl3Slot`, `Opl3Wiring`, `Opl3Chip`, `Opl3Sound`, `Opl3WriteBuffer`, `Opl3Emulator`, `Opl3Resampler` | `opl/opl3.c` |
| virtual-time player | `OplQueue`, `OplScheduler` | `opl/opl_queue.c`, `opl/opl_sdl.c`, the track code of `src/i_oplmusic.c` |
| DMX driver | `VoiceLists`, `VoiceRegisters`, `OplVoices` | the voice code of `src/i_oplmusic.c` |
| AES random numbers | `AesField`, `AesSBox`, `AesTables`, `Fips197`, `AesPrng`, `Prng` | `src/aes_prng.c` |
| sound cache | `SoundCache` | `src/i_sdlsound.c` |
| lockstep tics | `TicNet`, `TicLoop` | `src/d_loop.c` |
| DeHackEd and MIDI files | `DehStrings`, `DehReader`, `DehSections`, `DehParser`, `MidiFormat`, `MidiFile`, `MidiSong` | `src/deh_str.c`, `src/deh_io.c`, `src/deh_main.c`, `src/midifile.c` |

Code that works in place is a class whose methods update fields and arrays. A predicate `Valid`
of the class holds after its constructor and is kept by every method, and so it holds over every
run. Beside the classes stand functions that say what a
call does to its inputs, and the lemmas about these functions carry the properties over whole runs:
that the table-driven cipher is the one of FIPS 197 and is injective, that what the reader of MIDI files
accepts is exactly what a writer may write, that two players of one game run the same commands,
that the register writes reach the chip in order, each once, that a keyed note is heard and a released one dies
away.

Some properties that the code or its comments suggest do not hold as they stand. They are kept as
the code has them, with the exact condition:

- A comment in `ReplaceExistingVoice` (src/i_oplmusic.c:736-742) says that a second voice is
  used if there is one, and that a lower channel is never discarded for a higher one. The scan goes on
  after a second voice and does not know the new note's channel: `VoiceLists.Victim19Is` says which voice it
  takes, `VoiceLists.SecondGivesWay` exactly when that is a second voice, `VoiceLists.LowerGivesWay` exactly
  when it is below a given channel, and `VoiceLists.VictimExample` gives a case against both.
- Drivers before 1.9 lose all voices when every voice from the released index on is a second voice:
  `VoiceLists.WipedWhen`, `VoiceLists.WipedExample`.
- A voice that is given the instrument it has keeps the side of its last note, whatever the pan of the channel
  (src/i_oplmusic.c:499-503): `OplVoices.SideIsRight`, `OplVoices.StaleSide`.
- A normal start of a sound locks it twice (src/i_sdlsound.c:952 and 984), so that locks exceed the channels
  that play: by one for each start at normal pitch or at a pitch that another channel plays, and by none otherwise
  (`SoundCache.Cache.StartSound`, `SoundCache.Cache.SharedMeans`). A sound once started at normal pitch is never
  evicted again (`SoundCache.Run`).
- `MIDI_GetFileTimeDivision` loses a frame when the time is in frames: `MidiFormat.TimeDivisionRight`,
  `MidiFormat.FramesExample`.
- `DEH_RestoreLineStart` counts one line too few when the last line of a lump has no line feed:
  `DehReader.ReadAndPutBack`, `DehReader.UnterminatedLine`.
- A server that is a whole ring ahead destroys tics that have not run: `TicLoop.OverrunOverwrites`,
  `TicLoop.OverrunExample`. Below that none is lost (`TicLoop.RingReceived`).
- The resampler's step is zero for output rates below 49 Hz, and the rate is taken modulo 2^22:
  `Opl3Resampler.RateServed`, `Opl3Resampler.RateExact`, `Opl3Resampler.WrappedRateExample`.
- A change of tempo scales the delays from `current_time` and ignores the paused time
  (opl/opl_sdl.c:496). What remains of a delay is scaled exactly just when nothing was paused before or the tempo
  stays as it is: `OplScheduler.RestScaled`, `OplScheduler.PausedTempoExample`.
- The same adjustment can take a time below zero. It is stored as a word without sign (opl/opl_queue.c:212-213),
  which comes after all others, so that the queue may be no heap any more and hide a callback that is overdue.
  `OplQueue.AdjustTimeStaysAbove` says exactly when a time falls below zero, `OplQueue.AdjustedIsHeap` exactly when
  the heap is lost, and `OplQueue.OverdueHidden` is a case. What `OplScheduler` proves about the order of events and
  about whole passes holds all the same; that nothing due is left, and that the mixing loop ends, holds as long as
  no change of tempo has taken a time below zero since the tracks began.
- The counter of the hash table is not reset when the table grows, so that growing may grow
  again (src/deh_str.c:112-143); it never undercounts, and the recursion ends.

BACKUPTICS is 128, as src/net_defs.h:45 has it, and BT_SPECIAL is 128, as src/d_event.h:82 has it.
`dafny verify dfyconfig.toml` checks the whole project.

## Model

| member | source | states |
|---|---|---|
| `AesTables.FtTabIsMixedByte` | src/aes_prng.c:110-372 | Each entry of the four round tables is the MixColumns image of one S-box byte in its row of the column. |
| `AesTables.FlTabIsLoneByte` | src/aes_prng.c:374-636 | Each entry of the four final tables is one S-box byte in its place of the column. |
| `AesSBox.SBoxIsAffineInverse` | src/aes_prng.c:374-440 | The S-box in the tables is the one of FIPS 197: the multiplicative inverse in GF(2^8), then the affine map. |
| `AesSBox.InvSBoxSBox` | src/aes_prng.c:374-440 | The S-box is undone by the inverse S-box, so it is a bijection. |
| `AesPrng.RcoTabIsRoundConstant` | src/aes_prng.c:108 | The ten round constants are the powers of x in GF(2^8). |
| `AesPrng.LsBoxIsSubColumn` | src/aes_prng.c:661-665 | The key schedule's table lookup is SubWord. |
| `AesField.XTimeIsConditional` | src/aes_prng.c:648 | Doubling is a shift, and a subtraction of the polynomial when the high bit is set. |
| `AesPrng.StarXIsDouble` | src/aes_prng.c:648 | The word trick doubles all four bytes of a word in GF(2^8) at once. |
| `AesPrng.ImixColIsInvMixColumn` | src/aes_prng.c:650-659 | Four rotations and doublings are InvMixColumns of a column. |
| `AesPrng.FullRound` | src/aes_prng.c:813-826 | A table-driven round is SubBytes, ShiftRows, MixColumns and AddRoundKey. |
| `AesPrng.LastRound` | src/aes_prng.c:828-840 | The last table-driven round is SubBytes, ShiftRows and AddRoundKey. |
| `AesPrng.AesContext.ExpandForward` | src/aes_prng.c:744-772 | For every key length the loops fill key_enc with the KeyExpansion of section 5.2 of FIPS 197. |
| `AesPrng.AesContext.MixInner` | src/aes_prng.c:774-786 | The inner words of key_dec are InvMixColumns of the mirrored schedule. |
| `AesPrng.AesContext.ExpandKey` | src/aes_prng.c:736-788 | Keys of 16, 24 and 32 bytes give the whole schedule and the schedule of the equivalent inverse cipher (section 5.3.5); any other length is refused and changes nothing. |
| `AesPrng.AesContext.Encrypt` | src/aes_prng.c:842-881 | For every key and block the sixteen bytes out are Cipher of section 5.1 of FIPS 197. |
| `Fips197.InvMixColumnMixColumn` | src/aes_prng.c:650-659 | MixColumns is undone by InvMixColumns on every column. |
| `Fips197.InverseStateMeets` | src/aes_prng.c:736-788 | Round by round, the equivalent inverse cipher on the decryption schedule meets the states of the cipher in reverse. |
| `Fips197.InverseCipherUndoesCipher` | src/aes_prng.c:736-788 | The decryption schedule is right: the equivalent inverse cipher undoes the cipher for every key and block. |
| `Fips197.CipherInjective` | src/aes_prng.c:842-881 | For a fixed key two blocks with the same encryption are equal. |
| `Prng.Generator.Start` | src/aes_prng.c:891-897 | Starting resets the stream: the next number drawn is number 0 of the stream of that key. |
| `Prng.Generator.NextBlock` | src/aes_prng.c:906-921 | The input block holds four consecutive counter values, low bytes first, and the counter moves on by four modulo 2^32. |
| `Prng.Generator.Random` | src/aes_prng.c:937-955 | The n-th call after a start returns word n mod 4 of the encryption of counters 4(n/4) to 4(n/4)+3; a stopped generator returns zero and stays where it is. |
| `Prng.CounterBytesInjective` | src/aes_prng.c:910-917 | Different counters are different bytes. |
| `Prng.RefillsDiffer` | src/aes_prng.c:891-955 | No two of the first 2^30 refills give the same four words. |
| `Prng.RefillsRepeat` | src/aes_prng.c:891-955 | After 2^30 refills the counter has wrapped and the stream repeats. |
| `DehStrings.ProbeDecides` | src/deh_str.c:55-78 | A probe that reaches an empty slot without a match proves that the string has no entry. |
| `DehStrings.EmptySlotExists` | src/deh_str.c:55-78 | A table with fewer strings than slots has an empty slot, so that every probe stops. |
| `DehStrings.InsertKeepsSound` | src/deh_str.c:145-166 | Storing a string in the first empty slot of its probe keeps every string reachable. |
| `DehStrings.StringTable.SubstitutionForString` | src/deh_str.c:55-78 | The search ends, and finds the entry of the string exactly if it has one. |
| `DehStrings.StringTable.DehString` | src/deh_str.c:83-97 | The replacement of the string if there is one, the string itself otherwise. |
| `DehStrings.StringTable.AddToHashtable` | src/deh_str.c:145-166 | A new entry joins the table, which grows first exactly when it is more than six tenths full; the growth calls this again and ends. |
| `DehStrings.StringTable.IncreaseHashtable` | src/deh_str.c:112-143 | Growing, and re-inserting through the function that may grow again, loses no entry. |
| `DehStrings.StringTable.AddStringReplacement` | src/deh_str.c:168-206 | Exactly one entry of the map changes or is added. |
| `DehStrings.ReplaceThenLookUp` | src/deh_str.c:83-206 | After any sequence of replacements a string is answered with its last replacement, if any. |
| `OplQueue.SwapUp` | opl/opl_queue.c:83-103 | Moving the hole to its parent keeps the heap broken there at most. |
| `OplQueue.SwapDown` | opl/opl_queue.c:137-182 | Moving the hole to its smaller child keeps the heap broken there at most. |
| `OplQueue.AtMostIsWordOrder` | opl/opl_queue.c:83-103 | Below 2^63 either way, the order on times is the one that the unsigned comparisons of the source make on their words of 64 bits. |
| `OplQueue.RootMinimal` | opl/opl_queue.c:192-202 | The root of the heap has the least word of all entries. |
| `OplQueue.CallbackQueue.Peek` | opl/opl_queue.c:192-202 | The time at the root, in a heap the least one in the queue, or zero for an empty queue. |
| `OplQueue.CallbackQueue.Push` | opl/opl_queue.c:65-112 | The multiset gains the entry, a heap stays a heap, and the root is the old one or the new entry; a full queue is left as it is. |
| `OplQueue.CallbackQueue.SmallerChild` | opl/opl_queue.c:145-171 | The child to move up is the smaller one, and none is chosen just when the entry may stay. |
| `OplQueue.CallbackQueue.Pop` | opl/opl_queue.c:114-190 | The entry at the root leaves, in a heap one with the least time; the rest stays as a multiset, and a heap stays a heap; an empty queue reports so. |
| `OplQueue.CallbackQueue.AdjustCallbacks` | opl/opl_queue.c:204-215 | Every delay is divided by the factor and truncated. A heap of proper times stays a heap exactly when all times end up below zero or none does; none does exactly when no delay, so divided, goes back beyond the start of the clock. |
| `OplQueue.AdjustTimeStaysAbove` | opl/opl_queue.c:204-215 | An adjusted time is not below zero exactly when (now - t) < (now + 1) * factor. |
| `OplQueue.AdjustedIsHeap` | opl/opl_queue.c:204-215 | The words keep the order of a heap exactly when all adjusted times are below zero or none is. |
| `OplQueue.OverdueHidden` | opl/opl_queue.c:204-215 | After 0.6 s of pause a tempo four times as slow takes a time to -0.5 s; the callback booked next, 4 s away, is ahead of it, and the clock seems to have reached nothing. |
| `OplQueue.AdjustTimeMonotone` | opl/opl_queue.c:204-215 | As numbers, not as words, for any positive factor an earlier callback does not become later than a later one. |
| `OplQueue.Drain` | opl/opl_queue.c:114-190 | Popping until empty yields every entry once, in non-decreasing order of time. |
| `OplScheduler.ClockReaches` | opl/opl_sdl.c:106-112 | A number of samples rounded up from a time takes the clock, rounded down, at least to that time. |
| `OplScheduler.ClockOvershoots` | opl/opl_sdl.c:171-226 | The clock passes the time by less than one sample period. |
| `OplScheduler.HoldsAdjusted` | opl/opl_sdl.c:493-498 | Adjusting the queue adjusts every scheduled callback and adds or drops none. |
| `OplScheduler.Player.SetCallback` | opl/opl_sdl.c:462-469 | The callback is due after the delay, on the clock without the paused time. |
| `OplScheduler.Player.DelayLasts` | src/i_oplmusic.c:1427-1441 | The delay is what the delta time in ticks lasts at the current tempo, to the microsecond below. |
| `OplScheduler.Player.ScheduleTrack` | src/i_oplmusic.c:1427-1441 | The timer of a track is due after its delta time at the current tempo. |
| `OplScheduler.Player.MetaSetTempo` | src/i_oplmusic.c:1264-1268 | A new tempo keeps the callbacks that wait; with a paused time p, a rest d becomes p + trunc((d - p) / factor), which is trunc(d / factor) when nothing was paused. A time falls below zero exactly when a delay, so divided, goes back beyond the start of the clock. |
| `OplScheduler.Player.AdjustCallbacks` | opl/opl_sdl.c:493-498 | Every scheduled callback is adjusted; the times are all proper afterwards exactly when every callback meets the condition, and otherwise the order of the queue is lost until the tracks begin again. |
| `OplScheduler.RestScaled` | opl/opl_sdl.c:493-498 | What remains of a delay is scaled exactly just when no time was paused or the tempo stays as it is. |
| `OplScheduler.PausedTempoExample` | opl/opl_sdl.c:493-498 | After 0.6 s of pause a slower tempo makes a callback overdue that was 100 ms away. |
| `OplScheduler.Player.TrackTimer` | src/i_oplmusic.c:1386-1425 | One event of the track is used up and takes effect: a tempo moves every waiting callback; the next event is due after its delta time at the tempo then; the last one of a track lowers the running count, and the last track of a looping song books a restart 5000 us away. |
| `OplScheduler.Player.Restart` | src/i_oplmusic.c:1363-1381 | A pass that ends has delivered every event of every track once and in order; then all tracks begin again. |
| `OplScheduler.Player.PlaySong` | src/i_oplmusic.c:1476-1514 | Every track of at most 64 waits at its first event, due after its delta time at 120 beats a minute, and the running count is their number. |
| `OplScheduler.Player.Invoke` | src/i_oplmusic.c:1363-1425 | The timers waiting are exactly those of the unfinished tracks, and the running count is their number; a callback uses up an event and books the next one when it should be, or completes a pass and books all tracks anew. |
| `OplScheduler.Player.RunCallbacks` | opl/opl_sdl.c:133-151 | The loop ends even with zero delta times. The clock has not reached the root, and nothing is due unless a change of tempo took a time below zero since the tracks began. |
| `OplScheduler.Player.AdvanceTime` | opl/opl_sdl.c:106-154 | The clock moves by the samples, and the paused time moves with it; nothing has been invoked before its time, and everything due has been invoked unless a change of tempo took a time below zero since the tracks began. |
| `OplScheduler.Player.SamplesToNext` | opl/opl_sdl.c:185-207 | The samples to the next callback, or to the end of the buffer; zero only if something is due now. |
| `OplScheduler.Player.MixStep` | opl/opl_sdl.c:185-225 | A turn of the loop that neither generates a sample nor finds a callback due needs a time below zero at the root. |
| `OplScheduler.Player.MixCallback` | opl/opl_sdl.c:171-226 | Unless a change of tempo took a time below zero, the loop ends and the buffer is filled exactly; with a constant tempo callbacks are never early and less than a sample period late; while paused nothing fires and due times shift with the clock. |
| `OplScheduler.LogNext` | src/i_oplmusic.c:1386-1400 | Delivering the next event of a track keeps every track in order. |
| `OplScheduler.StepCounts` | src/i_oplmusic.c:1386-1425 | An event delivered lowers the events left by one, and the unfinished tracks by one when it is the last. |
| `Opl3WriteBuffer.FullAtLast` | opl/opl3.c:1382-1388 | The slot at the write index is marked exactly when the ring is full, and then it is the oldest write. |
| `Opl3WriteBuffer.WriteBuffer.WriteRegBuffered` | opl/opl3.c:1378-1404 | The write joins the pending ones, for two samples after the last one or for now, whichever is later; a full ring first applies its oldest write, and time jumps to it. |
| `Opl3WriteBuffer.WriteBuffer.Drain` | opl/opl3.c:1204-1215 | At most one write is applied for a sample, exactly when it is due. |
| `Opl3WriteBuffer.Run` | opl/opl3.c:1378-1404 | For any interleaving of writes and samples the writes applied are a prefix of the writes issued, and at most 1024 are outstanding. |
| `Opl3Emulator.Emulator.WriteRegBuffered` | opl/opl3.c:1378-1404 | A write is issued; the chip gets at most the oldest waiting one. |
| `Opl3Emulator.Emulator.Generate` | opl/opl3.c:1090-1216 | The chip makes a sample and then gets the write that is due, so that it has got an interleaving of samples and applied writes. |
| `Opl3Emulator.Run` | opl/opl3.c:1090-1404 | Over any writes and samples, at every time the chip has got all samples asked for and, between them, the writes issued but for the latest 1024, in order and each once; its levels, outputs and pointers stay in bounds. |
| `Opl3Slot.CalcExp` | opl/opl3.c:204-211 | The exponential is between 0 and 4084 for every attenuation. |
| `Opl3Slot.CalcSin` | opl/opl3.c:213-361 | All eight waveforms stay between -4085 and 4084, and never leave the tables. |
| `Opl3Slot.CalcRate` | opl/opl3.c:384-398 | The rate is at most 0x3c, zero for register rate 0 and at least 4 otherwise. |
| `Opl3Slot.GenStepValid` | opl/opl3.c:429-478 | Every envelope generator keeps the level between 0 and 0x202. |
| `Opl3Slot.EnvelopeCalcValid` | opl/opl3.c:480-503 | One sample keeps the envelope valid, whatever timer and tremolo. |
| `Opl3Slot.WritesValid` | opl/opl3.c:590-639 | Every register write of any value keeps an operator valid. |
| `Opl3Slot.KeyOnValid` | opl/opl3.c:505-520 | Keying an operator on, by channel or by drum, keeps it valid. |
| `Opl3Slot.KeyOffValid` | opl/opl3.c:522-533 | Keying it off keeps it valid. |
| `Opl3Slot.TickRises` | opl/opl3.c:480-503 | Half a period past a multiple of its period an envelope with a rate rises. |
| `Opl3Slot.TickNears` | opl/opl3.c:480-503 | Each sample comes nearer to that moment, through the wrap of the 16-bit timer. |
| `Opl3Slot.SilentAfterStep` | opl/opl3.c:468-503 | A sample in release lowers the number of samples that are left. |
| `Opl3Slot.ReleaseEnds` | opl/opl3.c:384-503 | An operator in release with a release rate is off after a number of samples computed from rate, level and timer, from any timer value. |
| `Opl3Slot.AttackStep` | opl/opl3.c:434-447 | An attack step takes off (level + 1) * increment / 8, rounded up and stopped at zero; at zero the decay begins with its own rate. |
| `Opl3Slot.AttackEnds` | opl/opl3.c:384-503 | An operator in attack with an attack rate, left alone, is at level 0 and begins to decay after a number of samples bounded from rate, level and timer. |
| `Opl3Slot.AttackNever` | opl/opl3.c:384-503 | Without an attack rate it stays at its level for ever. |
| `Opl3Slot.DecayEnds` | opl/opl3.c:449-458 | A decay with a rate reaches its sustain level, at most three steps beyond, within such a bound, and the operator is then sustained. |
| `Opl3Slot.SustainHolds` | opl/opl3.c:460-466 | A sustained sound keeps its level. |
| `Opl3Slot.SustainFalls` | opl/opl3.c:460-478 | The other kind falls silent as in release. |
| `Opl3Wiring.OperatorAddressUnique` | opl/opl3.c:188-191 | Every register of every operator has exactly one address. |
| `Opl3Wiring.ChannelAddressUnique` | opl/opl3.c:1279-1376 | Every register of every channel has exactly one address. |
| `Opl3Wiring.EveryOperatorUsedOnce` | opl/opl3.c:823-874 | In each four-operator algorithm every operator is used exactly once, by a later one or by the output. |
| `Opl3Wiring.PairConnectionsValid` | opl/opl3.c:815-908 | The pointers of a paired channel stay within it and its pair. |
| `Opl3Wiring.ChannelWrittenElsewhere` | opl/opl3.c:765-995 | A write to a channel leaves every operator and channel as it was that is neither its own nor that of its pair. |
| `Opl3Wiring.KeysAreChanged` | opl/opl3.c:949-995 | A key-on or key-off sets the key of exactly the operators of its channel, and of the second one of its pair; a note begins with its phase at zero and ends in release; all other operators stay as they are. |
| `Opl3Chip.ChannelSumFits` | opl/opl3.c:1124-1132 | No four-term channel sum leaves 16 bits. |
| `Opl3Chip.MixFits` | opl/opl3.c:1124-1172 | No mix of channels leaves 32 bits. |
| `Opl3Chip.CalcFbValid` | opl/opl3.c:656-667 | The feedback stays in the range of an output. |
| `Opl3Chip.AdvancedValid` | opl/opl3.c:1098-1104 | Feedback, phase and envelope of a sample keep an operator valid and its output as it was. |
| `Opl3Chip.Chip.constructor` | opl/opl3.c:1234-1277 | A reset chip is valid: all operators off, all channels with two operators. |
| `Opl3Chip.Chip.SetupAlg` | opl/opl3.c:815-908 | The pointers of the channel, and of its pair for a four-operator algorithm, become those of the algorithm; nothing else changes. |
| `Opl3Chip.Chip.ChannelWriteA0` | opl/opl3.c:765-787 | The low frequency bits change, with the attenuation and rates of both operators; a first channel of a pair takes the other with it, except its block; a second one ignores the write; nothing else changes. |
| `Opl3Chip.Chip.ChannelWriteB0` | opl/opl3.c:789-813 | Block and high frequency bits change, for both channels of a pair, and nothing else. |
| `Opl3Chip.Chip.ChannelWriteC0` | opl/opl3.c:910-947 | Feedback, connection and sides are stored; the pointers become those of the algorithm of the channel that carries it for the pair; nothing else changes. |
| `Opl3Chip.Chip.ChannelKey` | opl/opl3.c:949-995 | Exactly the operators of the channel, and of its pair for a first channel, are keyed. |
| `Opl3Chip.Chip.ChannelSet4Op` | opl/opl3.c:997-1019 | The types of the six pairs follow the six bits, and nothing else of a channel changes. |
| `Opl3Chip.Chip.ChannelUpdateRhythm` | opl/opl3.c:675-763 | Every operator and channel after a rhythm write: channels 6 to 8 with outputs and modulation for drums, each keyed by its bit, or given back with all drums off. |
| `Opl3Chip.Chip.WriteReg` | opl/opl3.c:1279-1376 | Any write of any value keeps all bounds, and the state after it is stated register by register, with all that stays. |
| `Opl3Chip.Chip.Generate` | opl/opl3.c:1028-1202 | Every operator has exactly one turn, reading new outputs of earlier operators and last ones of later operators; the drums have the phases that operators 13 and 17 and the noise give them; the left mix hears operators 0 to 14 new, the right mix 0 to 32, one sample later; the noise moves on. |
| `Opl3Chip.NoiseGoesOn` | opl/opl3.c:577-584 | The noise register never runs empty, stays within 23 bits, and no two of its states have the same successor. |
| `Opl3Sound.DrumPhasesAre` | opl/opl3.c:1028-1088 | The phases of hi-hat, snare and cymbal, and what the noise changes of them. |
| `Opl3Chip.Chip.Tick` | opl/opl3.c:1180-1202 | Tremolo, vibrato and the wrapping timer. |
| `Opl3Chip.Run` | opl/opl3.c:1090-1376 | After any writes and any samples from a reset, each applied once and in order, every level is in 0 to 0x202, every output in -4085 to 4084, and every output pointer refers to silence or to an operator of the channel or its pair. |
| `Opl3Chip.DoneEnvelope` | opl/opl3.c:1090-1202 | A sample takes every envelope exactly one step. |
| `Opl3Chip.FadeOut` | opl/opl3.c:384-503 | Whatever else plays, an operator in release with a release rate is off after the computed number of samples. |
| `Opl3Chip.FadeIn` | opl/opl3.c:384-503 | Whatever else plays, a keyed operator with an attack rate reaches level 0 and begins to decay within the computed number of samples. |
| `Opl3Chip.FadeToSustain` | opl/opl3.c:449-458 | Whatever else plays, an operator in decay with a rate reaches its sustain level within the computed number of samples. |
| `Opl3Sound.CalcExpFalls` | opl/opl3.c:204-211 | More attenuation is never louder. |
| `Opl3Sound.CalcExpHalves` | opl/opl3.c:204-211 | Each 0x100 of attenuation halves the output. |
| `Opl3Sound.CalcExpSilent` | opl/opl3.c:204-211 | Exactly from 0xc00 on nothing is heard; without attenuation the output is the greatest. |
| `Opl3Sound.SineShape` | opl/opl3.c:213-231 | Waveform 0 is odd, its halves are symmetric, and it rises in its first quarter up to the greatest output. |
| `Opl3Sound.SineHalves` | opl/opl3.c:213-231 | 32 steps of the envelope halve it. |
| `Opl3Sound.WaveformsFromSine` | opl/opl3.c:233-323 | Waveforms 1 to 5 are cut from waveform 0. |
| `Opl3Sound.SquareAndSaw` | opl/opl3.c:325-348 | Waveform 6 is a square; waveform 7 is odd and halves every 32 steps of the phase. |
| `Opl3Sound.Octave` | opl/opl3.c:539-584 | The phase moves on modulo 2^32, and twice as far an octave up, but for what rounding loses. |
| `Opl3Sound.Multiples` | opl/opl3.c:135-138 | The frequency multiples, doubled. |
| `Opl3Sound.VibratoBalances` | opl/opl3.c:539-572 | What vibrato adds in one half of its positions it takes off in the other. |
| `Opl3Sound.PitchReadsBack` | opl/opl3.c:765-813 | Frequency and block are those written, and the key scale value is the block with a bit of the frequency. |
| `Opl3Sound.RateSteps` | opl/opl3.c:384-397 | A rate rises by four with its register, and by one with the key scale value or with each four of it, up to 0x3c. |
| `Opl3Sound.KeyScaleLevel` | opl/opl3.c:399-408 | The key scale level rises by 32 with the block and with the frequency. |
| `Opl3Sound.FeedbackIs` | opl/opl3.c:656-667 | The feedback is the sum of the last two outputs shifted down by nine less the register. |
| `Opl3Sound.MixSilent` | opl/opl3.c:1124-1132 | A side that no channel is on is silent. |
| `Opl3Sound.MixAdds` | opl/opl3.c:1124-1132 | A channel put on a side adds its four outputs there and nothing else. |
| `Opl3Sound.FieldsReadBack` | opl/opl3.c:590-640 | What is written to the registers of an operator is in its fields, and no other field changes. |
| `Opl3Resampler.BlendBetween` | opl/opl3.c:1227-1230 | Each output lies between the two samples it blends; no product leaves 32 bits and the cast loses nothing. |
| `Opl3Resampler.RateServed` | opl/opl3.c:1274 | The step is positive and small enough exactly for rates that are, modulo 2^22, from 49 to 3181823 Hz. |
| `Opl3Resampler.RateExact` | opl/opl3.c:1274 | The step is that of the rate itself exactly below 2^22 Hz. |
| `Opl3Resampler.WrappedRateExample` | opl/opl3.c:1274 | 4238404 Hz is served as 44100 Hz. |
| `Opl3Resampler.Resampler.GenerateResampled` | opl/opl3.c:1218-1232 | Position and native samples are exact: count + ratio * native = 1024 * outputs; output n is the interpolation at position 1024 n / ratio. |
| `Opl3Resampler.Resampler.GenerateStream` | opl/opl3.c:1406-1415 | The stream is the interpolation at each of its positions. |
| `TicLoop.SquashIdempotent` | src/d_loop.c:669-681 | Squashing again changes nothing. |
| `TicLoop.RingBuilt` | src/d_loop.c:198-205 | Building a tic keeps every other tic of the ring. |
| `TicLoop.RingReceived` | src/d_loop.c:296-310 | A received tic overwrites none that has not run, with the server less than a ring ahead. |
| `TicLoop.OverrunOverwrites` | src/d_loop.c:296-310 | With the server a whole ring ahead the next tic destroys one that has not run. |
| `TicLoop.OverrunExample` | src/d_loop.c:296-310 | A drone and a server that numbers its tics: tic 128 destroys tic 0 before it has run. |
| `TicLoop.SlotIsFull` | src/d_loop.c:794-816 | A tic that was built and received is in its slot exactly as it is to run. |
| `TicLoop.RanMore` | src/d_loop.c:794-822 | The run goes on in order: the copies of the next tic follow, the first in full and the others squashed. |
| `TicLoop.FullIsGame` | src/d_loop.c:285-311 | With commands relayed unchanged a client's tic is the game's tic. |
| `TicLoop.ClientsAgree` | src/d_loop.c:285-311 | Two clients of one game run identical command sets for as long as both are connected. |
| `TicNet.LowestIsGreatest` | src/d_loop.c:565-582 | The low tic is the greatest up to which tics can be run. |
| `TicNet.Backlog` | src/d_loop.c:733-742 | What is left waiting: nothing with the new synchronisation; otherwise a backlog shrinks by one tic more than the time. |
| `TicNet.WantedFits` | src/d_loop.c:726-758 | No more tics are tried than are available, but one; none at all in one case only. |
| `TicNet.AloneReady` | src/d_loop.c:217-264 | A player alone has a tic to run exactly when one was left or the clock has moved on. |
| `TicLoop.LoopsAgree` | src/d_loop.c:705-828 | At any time the run of one of two connected clients is the beginning of the run of the other. |
| `TicLoop.Loop.BuildNewTic` | src/d_loop.c:150-208 | A tic is built exactly within the limits on the lead of the player, and never by a drone. |
| `TicLoop.Loop.BuildTics` | src/d_loop.c:238-263 | As many tics are built as the clock has moved on and the limit allows. |
| `TicLoop.Loop.ReceiveTic` | src/d_loop.c:285-311 | The commands of the others go into the ring, the player's own stay. |
| `TicLoop.Loop.NetUpdate` | src/d_loop.c:217-264 | All counters after an update, from what the server offers and the time; a disconnected player goes on alone. |
| `TicLoop.Loop.GetLowTic` | src/d_loop.c:565-582 | Tics below the result were all built and received, and it is never below the game's tic. |
| `TicLoop.Loop.OldNetSync` | src/d_loop.c:588-635 | All counters after the adjustment: the clock by one at most, a skipped tic after four lags in a row, and nothing for the first player. |
| `TicLoop.Loop.TicdupSquash` | src/d_loop.c:669-681 | All commands of the slot lose what must not be repeated. |
| `TicLoop.Loop.SinglePlayerClear` | src/d_loop.c:686-697 | Only the local player is left in the game. |
| `TicLoop.Loop.RunCopies` | src/d_loop.c:805-820 | The tic runs ticdup times, first in full and then squashed; it is never above the low tic. |
| `TicLoop.Loop.RunTic` | src/d_loop.c:794-822 | The next tic runs as it was built and received. |
| `TicLoop.Loop.RunTics` | src/d_loop.c:787-826 | The tics asked for run in order, unless a drone has no players left or loses the server, which it does exactly at the update that says so; an update follows each. |
| `TicLoop.Loop.WaitForTics` | src/d_loop.c:761-785 | For a player waiting ends well exactly when some of the updates make the tics available in time; the low tic is never below the game's tic. |
| `TicLoop.Loop.TryRunTics` | src/d_loop.c:705-828 | How many tics are tried follows from time and availability, zero only for the early return; a player runs all of them exactly when they become available during the wait, at once if they are there, and otherwise none; all counters afterwards. |
| `TicLoop.RunAlone` | src/d_loop.c:705-828 | A player alone whose clock moves on between calls runs a tic at least in each, and keeps in step with a clock that moves by one. |
| `SoundCache.Cache.Link` | src/i_sdlsound.c:97-112 | The sound becomes the first of a well-formed doubly linked list. |
| `SoundCache.Cache.Unlink` | src/i_sdlsound.c:116-135 | The sound leaves the list, and the others keep their order. |
| `SoundCache.Cache.FreeAllocatedSound` | src/i_sdlsound.c:137-148 | An idle sound leaves; bytes, locks and order stay exact. |
| `SoundCache.Cache.FindAndFreeSound` | src/i_sdlsound.c:154-174 | The least recently used idle sound is freed, or there is none. |
| `SoundCache.Cache.ReserveCacheSpace` | src/i_sdlsound.c:180-199 | The last idle sounds go, one by one and no more than needed, until the new one fits or none is idle. |
| `SoundCache.AttemptedMeans` | src/i_sdlsound.c:203-246 | An allocation fails exactly when as many attempts fail as there are idle sounds, and one more. |
| `SoundCache.Cache.AllocateSound` | src/i_sdlsound.c:203-246 | The whole list after an allocation, and exactly when there is room: a new sound enters at the head after evictions of the last idle sounds. |
| `SoundCache.Cache.LockAllocatedSound` | src/i_sdlsound.c:250-263 | The sound is used once more and becomes the most recent; the set of sounds is the same. |
| `SoundCache.Cache.UnlockAllocatedSound` | src/i_sdlsound.c:267-277 | A held lock is given back; the error of releasing too often cannot occur. |
| `SoundCache.Cache.GetAllocatedSound` | src/i_sdlsound.c:282-296 | The first sound of that name and pitch, or none exists. |
| `SoundCache.Cache.PitchShift` | src/i_sdlsound.c:301-339 | Making room for the shifted sound does not free its source. |
| `SoundCache.Cache.ReleaseSoundOnChannel` | src/i_sdlsound.c:345-366 | The channel is empty and its lock is gone; the list is the same but for a shifted sound that nothing uses. |
| `SoundCache.Cache.LockSound` | src/i_sdlsound.c:862-876 | It succeeds exactly when the sound is in the cache at normal pitch, or is valid and has room; the sound is then first and locked, and no sound in use was evicted. |
| `SoundCache.Cache.ChooseSound` | src/i_sdlsound.c:959-985 | The sound to play has a lock for the channel and the pitch asked for, exactly when a sound of that pitch was there or shifting has room; when it was there, one lock too many stays on the normal one. |
| `SoundCache.Cache.StartSound` | src/i_sdlsound.c:936-998 | It succeeds exactly when the sound was in the cache or there is room for it, and plays at the pitch asked for if there is memory; other channels go on; a lock that no channel gives back stays exactly when the pitch is normal or the shifted sound was in use elsewhere. |
| `SoundCache.Cache.SharedMeans` | src/i_sdlsound.c:936-998 | In use elsewhere means that another channel plays that name at that pitch. |
| `SoundCache.Run` | src/i_sdlsound.c:936-1044 | Over any run of starts, stops and updates, with each state as its command leaves it, a sound with such a lock is never evicted. |
| `SoundCache.Cache.UpdateSound` | src/i_sdlsound.c:1028-1044 | Exactly the channels that have finished are released. |
| `SoundCache.Cache.PlayingIsSafe` | src/i_sdlsound.c:137-174 | A sound that plays is in the cache with at least as many uses as channels that play it. |
| `SoundCache.EvictedTwice` | src/i_sdlsound.c:180-199 | Evictions one after the other still take the oldest idle sounds. |
| `VoiceLists.TakenKeeps` | src/i_oplmusic.c:382-410 | Taking a free voice keeps the two lists a partition of the voices. |
| `VoiceLists.ReleasedKeeps` | src/i_oplmusic.c:416-457 | A release keeps a partition, or, with drivers before 1.9 or a bad index, wipes both lists. |
| `VoiceLists.WipedWhen` | src/i_oplmusic.c:416-457 | The older drivers wipe the lists exactly when all voices from the index on are second voices. |
| `VoiceLists.WipedExample` | src/i_oplmusic.c:416-457 | One second voice is left allocated: its release loses the two free ones too. |
| `VoiceLists.SweptExactly` | src/i_oplmusic.c:708-723 | The 1.9 driver frees exactly the matching voices, in order, and keeps the order of the others. |
| `VoiceLists.SweptClean` | src/i_oplmusic.c:708-723 | With every driver no matching voice stays allocated. |
| `VoiceLists.SweptKeeps` | src/i_oplmusic.c:693-724 | Every driver ends with a partition or with both lists empty, and empty lists stay empty. |
| `VoiceLists.BentKeeps` | src/i_oplmusic.c:1222-1262 | Pitch bend keeps a partition. |
| `VoiceLists.SplitMembers` | src/i_oplmusic.c:1237-1261 | The two parts of a pitch bend hold the matching and the other voices, each once. |
| `VoiceLists.Victim19Is` | src/i_oplmusic.c:731-757 | The 1.9 victim is the last of the voices with the highest channel, from the last second voice on. |
| `VoiceLists.SecondGivesWay` | src/i_oplmusic.c:731-757 | A second voice is sacrificed just when all voices after the last one have lower channels. |
| `VoiceLists.LowerGivesWay` | src/i_oplmusic.c:731-757 | A voice below a channel is discarded just when all voices from the last second one on are below it. |
| `VoiceLists.VictimExample` | src/i_oplmusic.c:731-757 | A first voice goes although there is a second one, and although it is on a lower channel than the note. |
| `VoiceLists.VictimDoom1Is` | src/i_oplmusic.c:762-779 | The first of the voices with the highest channel. |
| `VoiceLists.VictimDoom2Is` | src/i_oplmusic.c:781-802 | The first of the voices with the lowest priority among those of equal or higher channel, or voice 0. |
| `VoiceLists.PlayedOn19Keeps` | src/i_oplmusic.c:1054-1070 | With the 1.9 driver a key on keeps the partition and allocates a voice for the note. |
| `VoiceRegisters.AddressesDiffer` | src/i_oplmusic.c:160-163 | No two registers of the eighteen voices share an address. |
| `VoiceRegisters.CarVolume` | src/i_oplmusic.c:549-557 | The attenuation of the carrier fits six bits. |
| `VoiceRegisters.LouderIsLouder` | src/i_oplmusic.c:549-557 | A louder note or channel is never attenuated more; the loudest is not attenuated, and volume zero is silence. |
| `VoiceRegisters.ModLevelIs` | src/i_oplmusic.c:569-590 | An additive modulator has its own attenuation or the carrier's, whichever is larger; another one its own. |
| `VoiceRegisters.CurveBound` | src/i_oplmusic.c:844-878 | The frequency table is never left, and the register value is positive and fits 13 bits. |
| `VoiceRegisters.TwelveNotesUp` | src/i_oplmusic.c:805-879 | Twelve notes up the block is one more and the place on the curve the same. |
| `VoiceRegisters.InRangeIs` | src/i_oplmusic.c:820-842 | A note out of range is moved by whole octaves, and no further than needed. |
| `VoiceRegisters.StateReleased` | src/i_oplmusic.c:416-457 | A released voice is silent and without a channel, and the driver's state stays consistent. |
| `VoiceRegisters.StateTaken` | src/i_oplmusic.c:907-959 | So it does when a free voice is programmed. |
| `OplVoices.Driver.GetFreeVoice` | src/i_oplmusic.c:382-410 | The first free voice becomes the last allocated one, in place; nothing changes if none is free. |
| `OplVoices.Driver.ReleaseVoice` | src/i_oplmusic.c:416-457 | The lists become those of the driver version; voices still allocated are untouched. |
| `OplVoices.Driver.KeyOffEvent` | src/i_oplmusic.c:693-724 | No voice goes on playing the key; the 1.9 driver frees exactly the voices of the key, in order. |
| `OplVoices.Driver.AllNotesOff` | src/i_oplmusic.c:1164-1179 | The same for all keys of a channel. |
| `OplVoices.Driver.FrequencyForVoice` | src/i_oplmusic.c:805-879 | The value of the curve at the note moved by octaves into range, bent and tuned. |
| `OplVoices.Driver.SetVoiceInstrument` | src/i_oplmusic.c:491-536 | A voice that gets an instrument is loaded and silent, with its priority, its side and shadows equal to the registers; a voice that has it is left alone. |
| `OplVoices.Driver.SetVoiceVolume` | src/i_oplmusic.c:538-592 | The registers are those of a driver that always writes both levels; an additive modulator gets the larger attenuation. |
| `OplVoices.Driver.VoiceKeyOn` | src/i_oplmusic.c:907-959 | The first free voice is programmed with the instrument at its note and keyed, and no other voice changes; its side is written unless it had the instrument. |
| `OplVoices.SideIsRight` | src/i_oplmusic.c:493-529 | The side of a reused voice is right exactly when its instrument was loaded or its register had that side. |
| `OplVoices.StaleSide` | src/i_oplmusic.c:493-529 | A voice keeps the left side on a channel that is set to the right. |
| `OplVoices.Driver.KeyOnEvent` | src/i_oplmusic.c:961-1073 | Unless the lists are wiped the note plays with every driver: on the instrument of the channel or of the percussion key, at its fixed note, at 60 or at the key, with the registers so programmed; so does the second voice when there is room. The lists are those that the driver's way of making room leaves; other voices in use are untouched. |
| `OplVoices.ProgramThenKey` | src/i_oplmusic.c:1075-1088 | A program change decides the instrument of the notes that follow. |
| `OplVoices.Driver.KeyOn19` | src/i_oplmusic.c:1054-1070 | The lists after a key on of the 1.9 driver, and both voices exactly when two were free. |
| `OplVoices.Driver.ReplaceExistingVoice` | src/i_oplmusic.c:731-757 | Its victim is released. |
| `OplVoices.Driver.ReplaceExistingVoiceDoom1` | src/i_oplmusic.c:762-779 | Its victim is released, and with a second voice the next one. |
| `OplVoices.Driver.ReplaceExistingVoiceDoom2` | src/i_oplmusic.c:781-802 | The same, with the last three voices allocated out of reach. |
| `OplVoices.Driver.SetChannelVolume` | src/i_oplmusic.c:1090-1118 | Every voice of the channel follows the clipped volume, others stay as they are. |
| `OplVoices.Driver.SetMusicVolume` | src/i_oplmusic.c:637-663 | Every channel follows the music volume, and every voice in use follows its channel; nothing else of the voices changes. |
| `OplVoices.Driver.SetChannelPan` | src/i_oplmusic.c:1120-1161 | With two sides a new side is stored in the channel and written to the feedback registers of its voices; other channels, voices and registers stay. |
| `OplVoices.Driver.PitchBendEvent` | src/i_oplmusic.c:1222-1262 | The voices of the channel are retuned and move behind the others; both parts keep their order; of other channels and voices nothing changes, and no register but frequencies. |
| `OplVoices.Driver.PauseSong` | src/i_oplmusic.c:1516-1540 | All voices but the percussion fall silent and stay allocated; no other register changes. |
| `OplVoices.Driver.StopSong` | src/i_oplmusic.c:1552-1571 | No voice is left allocated. |
| `OplVoices.Driver.ResetChannels` | src/i_oplmusic.c:1363-1381 | All channels are as at the start of a song, and the volume at the start becomes the music volume. |
| `MidiFormat.VlqRead` | src/midifile.c:130-162 | A quantity written in n bytes, at most as many as the reader takes, reads back, and exactly these bytes are read. |
| `MidiFormat.VlqWritten` | src/midifile.c:130-162 | Whatever is read as a quantity is such a writing, in at most four bytes. |
| `MidiFormat.ShortestIsShortest` | src/midifile.c:130-162 | Every quantity below 2^28 fits four bytes, and the shortest writing is the shortest. |
| `MidiFormat.StatusBytes` | src/midifile.c:342-384 | The status bytes of the standard as numbers, with what follows each of them. |
| `MidiFormat.BodyRead` | src/midifile.c:342-384 | The reader chosen by the status byte reads back the body written under it. |
| `MidiFormat.EventRead` | src/midifile.c:308-385 | An event reads back under every legal writing: any length of its quantities, with or without running status. |
| `MidiFormat.EventWritten` | src/midifile.c:308-385 | Whatever is read as an event is a legal writing of that event. |
| `MidiFormat.EventsRead` | src/midifile.c:452-486 | A list of events that ends with its only end of track reads back, and exactly its bytes are read. |
| `MidiFormat.TrackEnd` | src/midifile.c:452-486 | The bytes FF 2F 00 end a track. |
| `MidiFormat.EventsWritten` | src/midifile.c:452-486 | Whatever is read as the events of a track is a legal writing of them, under any running status. |
| `MidiFormat.TrackRead` | src/midifile.c:435-489 | A written track chunk reads back. |
| `MidiFormat.TrackWritten` | src/midifile.c:435-489 | Whatever is read as a track is a written track. |
| `MidiFormat.HeaderRead` | src/midifile.c:535-568 | A written header of format 0 or 1 reads back. |
| `MidiFormat.FileRead` | src/midifile.c:587-636 | A written file reads back, with the events of all its tracks. |
| `MidiFormat.FileWritten` | src/midifile.c:587-636 | Whatever is read as a file is a written file: the reader accepts nothing else. |
| `MidiFormat.TimeDivisionRight` | src/midifile.c:700-715 | The time division is that of the format exactly when it is not in frames, or has no ticks. |
| `MidiFormat.FramesExample` | src/midifile.c:700-715 | A division of 25 frames of 40 ticks is read as 960 instead of 1000. |
| `MidiSong.TempoRead` | src/i_oplmusic.c:1292-1297 | A tempo is three bytes, the high one first; 07 A1 20 is half a second. |
| `MidiSong.TrackPlays` | src/i_oplmusic.c:1264-1268 | The events stored for a track are a track for the player exactly when no tempo is zero. |
| `MidiSong.FilePlays` | src/i_oplmusic.c:1476-1506 | Every file that the reader accepts is a song for the player exactly when it has at most 64 tracks and no tempo is zero. |
| `MidiSong.DivisionPositive` | src/midifile.c:700-715 | The time division that delays are divided by is positive exactly for these header words; the reader accepts the others, too. |
| `MidiFile.Reader.ReadVariableLength` | src/midifile.c:130-162 | The loop reads the quantity at the position, or fails exactly if there is none. |
| `MidiFile.Reader.ReadChannelEvent` | src/midifile.c:202-239 | One or two parameters after the status. |
| `MidiFile.Reader.ReadSysExEvent` | src/midifile.c:243-266 | The length, then as many bytes. |
| `MidiFile.Reader.ReadMetaEvent` | src/midifile.c:270-306 | The type, the length, then as many bytes. |
| `MidiFile.Reader.ReadEvent` | src/midifile.c:308-385 | The event at the position; a byte that is no status is put back and the last status is used. |
| `MidiFile.Reader.ReadTrack` | src/midifile.c:435-489 | The track at the position, or failure exactly if there is none. |
| `MidiFile.Reader.LoadFile` | src/midifile.c:587-636 | The file at the position, or failure exactly if there is none. |
| `DehReader.PlainLine` | src/deh_io.c:268-343 | Without escapes a line is what comes before the line feed or the end, less NULs; nothing at all is the end of the file. |
| `DehReader.ExtendedLine` | src/deh_io.c:296-326 | An extended line reads back: escaped line feeds and characters, and pieces continued over lines with their indentation dropped. |
| `DehReader.Context.GetChar` | src/deh_io.c:179-210 | The next character that is no carriage return, and the line number follows. |
| `DehReader.Context.IncreaseReadBuffer` | src/deh_io.c:214-228 | Twice the room, with the old contents. |
| `DehReader.Context.ReadLine` | src/deh_io.c:268-343 | Exactly the next line, NUL-terminated inside a buffer that grows to at most twice the line. |
| `DehReader.Context.RestoreLineStart` | src/deh_io.c:246-264 | The position goes back to the start of the line, if there is one, and the line number by one. |
| `DehReader.ReadAndPutBack` | src/deh_io.c:246-343 | After a line is read and put back the position is the old one, and the line number is right exactly when a line feed was still to come; else it is one too low. |
| `DehReader.UnterminatedLine` | src/deh_io.c:246-264 | A lump of one line without a line feed is read again as line 0. |
| `DehParser.TrimIs` | src/deh_main.c:145-165 | Cleaning takes the blanks off both ends and nothing else. |
| `DehParser.CleanString` | src/deh_main.c:145-165 | In place the string is cleaned, and the buffer outside it is untouched. |
| `DehParser.ParseAssignment` | src/deh_main.c:177-201 | The line is split at its first equals sign and both halves are cleaned; without one nothing changes. |
| `DehParser.Parser.GetSectionByName` | src/deh_main.c:107-128 | The first section of that name, without regard to case; string sections only if allowed. |
| `DehParser.Parser.CheckSignatures` | src/deh_main.c:206-238 | A first line that is a signature is used up, any other is put back. |
| `DehSections.RunIsDocument` | src/deh_main.c:291-400 | Line by line the handlers get what they get section by section, if they read nothing on. |
| `DehSections.BlockRuns` | src/deh_main.c:291-400 | From within a section every line up to the next blank one that is no comment goes to its line parser, in order and once, with the tag of its start, and then the section ends. |
| `DehSections.ContainsMeans` | src/deh_main.c:244-287 | A comment is searched at every place. |
| `DehSections.FirstWordIs` | src/deh_main.c:372-376 | The name is the first word, of 19 characters at most. |
| `DehParser.Parser.ParseLine` | src/deh_main.c:303-398 | One round is one round of the text. |
| `DehParser.Parser.ParseContext` | src/deh_main.c:291-400 | Parsing ends on every lump, each line goes to one handler at most, and the handlers get exactly what the text gives them: with handlers that read nothing on, every line of every section. |

## Left out

- Prng.Generator.Start: seeds of other lengths than the 16 bytes of `prng_seed_t` do not exist in the source's types.
- AesPrng.AesContext.Encrypt: the key pointer may not be null and the context is one that was expanded.
- OplScheduler.Player.MetaSetTempo: the tempo factor is a real number; its rounding to a `float` is not modelled, and tempos are positive; with a tempo of zero the source would work with an infinite factor.
- OplScheduler.Player.PlaySong: the song before it must have been stopped, as the sound code does, and the time division is positive: with the divisions that `MidiSong.DivisionPositive` excludes the source divides by zero when it schedules a track.
- OplQueue.CallbackQueue.AdjustCallbacks: the factor is an exact real number where the source has a `float`, and delays are rounded once, towards zero. In C the conversion of a negative `float` to `uint64_t` is undefined, for any callback that is behind the clock; the model takes it modulo 2^64, as compilers for common machines do.
- OplScheduler.Player.AdvanceTime: times of 2^63 us and more, in either direction, are not modelled; each callback and each critical section is one step.
- OplScheduler.Player.MixCallback: what the samples sound like is left to the emulator; the buffer is shorter than a second, as an assertion in `FillBuffer` demands.
- DehStrings.StringTable.AddToHashtable: 32-bit wrap-around of `hash_table_entries * 10` and of the length is not modelled.
- Opl3Slot.CalcSin: shapes, symmetries and levels of the waveforms are proved; how close the table comes to a sine is not.
- Opl3WriteBuffer.WriteBuffer.WriteRegBuffered: 64-bit wrap-around of the sample count is not modelled.
- Opl3Resampler.Resampler.GenerateResampled: the rate is one that the resampler serves, since the source's loop does not end with a step of zero; the samples of the chip are an input stream of 16-bit values.
- TicLoop.Loop.NetUpdate: the network hands over what the server offers while it is less than a ring ahead; the server itself, packets and acknowledgements are not modelled.
- TicLoop.Loop.WaitForTics: the wait also ends when the given inputs end; the source may wait for ever, above all as a drone without players.
- TicLoop.Loop.BuildNewTic: events and menus are not modelled, and the duplication factor is positive.
- SoundCache.Cache.StartSound: the sound system is initialised; volume and separation, the conversion of samples and the length of a shifted sound are inputs or left out.
- SoundCache.Cache.AllocateSound: whether memory is available is an input for each attempt.
- OplVoices.Driver.KeyOnEvent: keys and volumes are data bytes below 128, as the standard has them; the source would read past its volume table otherwise. The log of percussion keys is left out.
- OplVoices.Driver.FrequencyForVoice: the frequency curve is a parameter, with values between 1 and 0x3ff.
- OplVoices.Driver.SetVoiceInstrument: scale and level of an instrument's operators use the bits that the register has for them.
- OplVoices.Driver.ResetChannels: voices that still sound keep their volume, as in the source; the tempo and the track positions of a restart are in `OplScheduler`.
- MidiFile.Reader.LoadFile: opening the file, failures of the allocator and the uninitialised second parameter of one-parameter events are left out.
- DehReader.Context.GetChar: input from files is not modelled, only from lumps.
- DehParser.Parser.ParseContext: what the handlers do is an input: how far they read on, whether they fail, and which tag they return.
- Format strings of replacements (src/deh_str.c:210-432), SHA-1 digests and section handlers.
- SDL, threads, files and the WAD directory; register writes are the trace of the chip.
- OPL hardware drivers, timers of the chip, video, joystick, configuration, IWAD search and PC speaker.
- The network server and client below `D_ReceiveTic`.
