/**
  opl/opl3.c: the whole chip, whose fields a register write or a sample updates. The phases of
  the rhythm sounds are inputs.
 */
module Opl3Chip {
  import opened Opl3Slot
  import opened Opl3Wiring

  // ------------------------------------------------------------------
  // Samples
  // ------------------------------------------------------------------

  /** The value behind a pointer. */
  function Read(slot: seq<Slot>, source: Source): int
    requires source.Out? || source.FeedbackMod? ==> source.n < |slot|
  {
    match source
    case ZeroMod => 0
    case Out(n) => slot[n].out
    case FeedbackMod(n) => slot[n].fbmod
  }

  /** x >> n, rounding down. */
  function ShiftDown(x: int, n: nat): int
    requires n <= 12
  {
    x / Pow2(n)
  }

  /** OPL3_SlotCalcFB. */
  function CalcFb(s: Slot, fb: nat): Slot
    requires fb <= 7
  {
    s.(fbmod := if fb != 0 then ShiftDown(s.prout + s.out, 9 - fb) else 0, prout := s.out)
  }

  lemma CalcFbValid(s: Slot, fb: nat)
    requires ValidSlot(s) && fb <= 7
    ensures ValidSlot(CalcFb(s, fb))
  {
    if fb != 0 {
      var sum := s.prout + s.out;
      if fb == 7 {} else if fb == 6 {} else if fb == 5 {} else if fb == 4 {} else if fb == 3 {} else if fb == 2 {}
        else {}
    }
  }

  /** The frequency number with vibrato. */
  function VibratoFNum(vib: bool, fNum: nat, vibpos: nat, vibshift: nat): int
    requires vibshift <= 1
  {
    var range :=
      if !vib || vibpos % 4 == 0 then 0
      else (if vibpos % 2 == 1 then fNum / 128 / 2 else fNum / 128) / Pow2(vibshift);
    if vibpos / 4 % 2 == 1 then fNum - range else fNum + range
  }

  /** OPL3_PhaseGenerate: the frequency, with vibrato, moves the phase. */
  function PhaseGenerate(s: Slot, p: Pitch, vibpos: nat, vibshift: nat): Slot
    requires ValidPitch(p) && vibshift <= 1 && s.regs.mult <= 15
  {
    var baseFreq := VibratoFNum(s.regs.vib, p.fNum, vibpos, vibshift) * Pow2(p.block) / 2;
    s.(pgPhase := (s.pgPhase + baseFreq * Multiple(s.regs.mult) / 2) % 0x1_0000_0000)
  }

  /** mt: twice the frequency multiple. */
  function Multiple(mult: nat): nat
    requires mult <= 15
  {
    [1, 2, 4, 6, 8, 10, 12, 14, 16, 18, 20, 20, 24, 24, 30, 30][mult]
  }

  /** OPL3_SlotGeneratePhase. */
  function GeneratePhase(s: Slot, phase: nat): Slot
    requires s.regs.wf < 8 && s.eg.out >= 0
  {
    s.(out := CalcSin(s.regs.wf, phase, s.eg.out))
  }

  lemma GeneratePhaseValid(s: Slot, phase: nat)
    requires ValidSlot(s)
    ensures ValidSlot(GeneratePhase(s, phase))
  {
    hide CalcSin;
    var r := CalcSin(s.regs.wf, phase, s.eg.out);
    assert -4085 <= r <= 4084;
  }

  /** The four sources of a channel added up: no sum wraps 16 bits. */
  function ChannelSum(slot: seq<Slot>, out: seq<Source>): int
    requires |slot| == SLOTS
    requires |out| == 4 && forall j | 0 <= j < 4 :: out[j].ZeroMod? || out[j].n < SLOTS
  {
    Read(slot, out[0]) + Read(slot, out[1]) + Read(slot, out[2]) + Read(slot, out[3])
  }

  lemma ReadInRange(slot: seq<Slot>, source: Source)
    requires |slot| == SLOTS && forall s | 0 <= s < SLOTS :: ValidSlot(slot[s])
    requires source.ZeroMod? || source.n < SLOTS
    ensures InRange(Read(slot, source))
  {}

  lemma ChannelSumFits(slot: seq<Slot>, c: nat, out: seq<Source>)
    requires |slot| == SLOTS && forall s | 0 <= s < SLOTS :: ValidSlot(slot[s])
    requires c < CHANNELS && ValidOut(c, out)
    ensures -16340 <= ChannelSum(slot, out) <= 16336
  {
    ReadInRange(slot, out[0]);
    ReadInRange(slot, out[1]);
    ReadInRange(slot, out[2]);
    ReadInRange(slot, out[3]);
  }

  /** OPL3_ClipSample. */
  function ClipSample(sample: int): int {
    if sample > 32767 then 32767 else if sample < -32768 then -32768 else sample
  }

  /** The mix of the first n channels, on the left or on the right. */
  function Mix(slot: seq<Slot>, channel: seq<Channel>, right: bool, n: nat): int
    requires ValidWiring(slot, channel) && n <= CHANNELS
  {
    if n == 0 then 0
    else
      var ch := channel[n - 1];
      assert ValidChannel(n - 1, ch);
      Mix(slot, channel, right, n - 1) + if (if right then ch.chb else ch.cha) then ChannelSum(slot, ch.out) else 0
  }

  /** No mix wraps 32 bits. */
  lemma {:induction false} MixFits(slot: seq<Slot>, channel: seq<Channel>, right: bool, n: nat)
    requires ValidWiring(slot, channel) && n <= CHANNELS
    ensures -16340 * n <= Mix(slot, channel, right, n) <= 16340 * n
  {
    if n > 0 {
      MixFits(slot, channel, right, n - 1);
      assert ValidChannel(n - 1, channel[n - 1]);
      ChannelSumFits(slot, n - 1, channel[n - 1].out);
    }
  }

  // ------------------------------------------------------------------
  // One sample
  // ------------------------------------------------------------------

  /** The phases of the hi-hat, snare and cymbal while the rhythm mode is on. */
  datatype Drums = NoDrums | DrumPhases(hh: nat, sd: nat, tc: nat)

  /** OPL3_NoiseGenerate: a shift register of 23 bits with feedback. */
  function NextNoise(noise: bv32): bv32 {
    (if noise & 1 == 1 then noise ^ 0x80_0302 else noise) >> 1
  }

  /** The register never runs empty, and no two of its states are followed by the same one. */
  lemma NoiseGoesOn(x: bv32, y: bv32)
    requires 0 < x < 0x80_0000 && 0 < y < 0x80_0000
    ensures 0 < NextNoise(x) < 0x80_0000
    ensures NextNoise(x) == NextNoise(y) ==> x == y
  {}

  /** The bit that hi-hat and cymbal share, from the phases of operators 13 and 17. */
  function PhaseBit(p13: nat, p17: nat): bool {
    Bit(p13, 3) || Bit(p13, 7) != Bit(p13, 2) || Bit(p17, 5) != Bit(p17, 3)
  }

  /**
    OPL3_GenerateRhythm1 and 2: the phases of the drums from those of operators 13 and 17. The hi-hat looks at operator
    17 before its phase has moved on, the cymbal after that.
   */
  function DrumsOf(p13: nat, before17: nat, p17: nat, noise: bool): Drums {
    var early, late := PhaseBit(p13, before17), PhaseBit(p13, p17);
    DrumPhases((if early then 0x200 else 0) + (if early != noise then 0xd0 else 0x34),
               if Bit(p13, 8) then (if noise then 0x300 else 0x200) else (if noise then 0 else 0x100),
               if late then 0x300 else 0x100)
  }

  /** What the operators see of the chip. */
  datatype Clock = Clock(timer: nat, vibpos: nat, vibshift: nat, tremolo: nat)

  /** Operator s, of channel ch, after its feedback, phase and envelope have moved on. */
  function Advanced(s: Slot, ch: Channel, k: Clock): Slot
    requires ValidSlot(s) && ValidPitch(ch.pitch) && ch.fb <= 7 && k.vibshift <= 1
  {
    var moved := PhaseGenerate(CalcFb(s, ch.fb), ch.pitch, k.vibpos, k.vibshift);
    moved.(eg := EnvelopeCalc(moved.eg, moved.regs, ch.pitch.ksv, k.timer, k.tremolo))
  }

  lemma AdvancedValid(s: Slot, ch: Channel, k: Clock)
    requires ValidSlot(s) && ValidPitch(ch.pitch) && ch.fb <= 7 && k.vibshift <= 1 && k.tremolo <= 26
    ensures var r := Advanced(s, ch, k);
      && ValidSlot(r) && r.out == s.out && r.mod == s.mod && r.regs == s.regs
      && r.eg == EnvelopeCalc(s.eg, s.regs, ch.pitch.ksv, k.timer, k.tremolo)
  {
    hide ValidEnvelope, EnvelopeCalc, ShiftDown;
    CalcFbValid(s, ch.fb);
    EnvelopeCalcValid(s.eg, s.regs, ch.pitch.ksv, k.timer, k.tremolo);
  }

  /** OPL3_SlotGenerate; in rhythm mode operator 14 is not modulated and three operators have phases of their own. */
  function Sounded(n: nat, s: Slot, modulation: int, drums: Drums): Slot
    requires ValidSlot(s)
  {
    var phase := s.pgPhase / 512;
    match drums
    case NoDrums => GeneratePhase(s, (phase + modulation) % 0x1_0000)
    case DrumPhases(hh, sd, tc) =>
      GeneratePhase(s,
        if n == 13 then hh else if n == 14 then phase % 0x1_0000 else if n == 16 then sd else if n == 17 then tc
        else (phase + modulation) % 0x1_0000)
  }

  lemma SoundedValid(n: nat, s: Slot, modulation: int, drums: Drums)
    requires ValidSlot(s)
    ensures var r := Sounded(n, s, modulation, drums);
      ValidSlot(r) && r == s.(out := r.out)
  {
    hide CalcSin;
    forall phase: nat ensures s.regs.wf < 8 && s.eg.out >= 0 && ValidSlot(GeneratePhase(s, phase)) {
      GeneratePhaseValid(s, phase);
    }
  }

  /** What modulates operator n: its own new feedback, or the output of another operator, new if that one came first. */
  function Modulation(before: seq<Slot>, now: seq<Slot>, n: nat, feedback: int): int
    requires |before| == |now| == SLOTS && n < SLOTS && ValidMod(n, before[n].mod)
  {
    match before[n].mod
    case ZeroMod => 0
    case Out(m) => if m < n then now[m].out else before[m].out
    case FeedbackMod(_) => feedback
  }

  /** Operator n has had its turn: it advanced once and sounded once. */
  ghost predicate Done(before: seq<Slot>, now: seq<Slot>, channel: seq<Channel>, k: Clock, drums: Drums, n: nat)
    requires ValidWiring(before, channel) && |now| == SLOTS && n < SLOTS && k.vibshift <= 1 && k.tremolo <= 26
  {
    assert ValidChannel(ChannelOf(n), channel[ChannelOf(n)]);
    var moved := Advanced(before[n], channel[ChannelOf(n)], k);
    AdvancedValid(before[n], channel[ChannelOf(n)], k);
    now[n] == Sounded(n, moved, Modulation(before, now, n, moved.fbmod), drums)
  }

  /** A sample takes every envelope exactly one step, whatever the operator plays. */
  lemma DoneEnvelope(before: seq<Slot>, now: seq<Slot>, channel: seq<Channel>, k: Clock, drums: Drums, n: nat)
    requires Stage(before, now, channel, k, drums, SLOTS, SLOTS) && n < SLOTS
    ensures ValidSlot(before[n]) && |channel| == CHANNELS && now[n].regs == before[n].regs
    ensures now[n].eg == EnvelopeCalc(before[n].eg, before[n].regs, channel[ChannelOf(n)].pitch.ksv, k.timer, k.tremolo)
  {
    hide ValidWiring, Advanced, Sounded, ValidMod, EnvelopeCalc, ChannelOf;
    WiringAt(before, channel, n);
    assert Done(before, now, channel, k, drums, n);
    var moved := Advanced(before[n], channel[ChannelOf(n)], k);
    AdvancedValid(before[n], channel[ChannelOf(n)], k);
    SoundedValid(n, moved, Modulation(before, now, n, moved.fbmod), drums);
  }

  /** The operators below done have had their turn; those below moved have advanced; the others are as before. */
  ghost predicate Stage(before: seq<Slot>, now: seq<Slot>, channel: seq<Channel>, k: Clock, drums: Drums, done: nat,
    moved: nat) {
    && ValidWiring(before, channel) && |now| == SLOTS && k.vibshift <= 1 && k.tremolo <= 26 && done <= moved <= SLOTS
    && (forall n | 0 <= n < done :: Done(before, now, channel, k, drums, n))
    && (forall n | done <= n < moved :: MovedOnly(before, now, channel, k, n))
    && (forall n | moved <= n < SLOTS :: now[n] == before[n])
  }

  ghost predicate MovedOnly(before: seq<Slot>, now: seq<Slot>, channel: seq<Channel>, k: Clock, n: nat)
    requires ValidWiring(before, channel) && |now| == SLOTS && n < SLOTS && k.vibshift <= 1 && k.tremolo <= 26
  {
    assert ValidChannel(ChannelOf(n), channel[ChannelOf(n)]);
    now[n] == Advanced(before[n], channel[ChannelOf(n)], k)
  }

  lemma WiringAt(slot: seq<Slot>, channel: seq<Channel>, n: nat)
    requires ValidWiring(slot, channel) && n < SLOTS
    ensures |slot| == SLOTS && |channel| == CHANNELS && ValidSlot(slot[n]) && ValidMod(n, slot[n].mod)
    ensures ValidChannel(ChannelOf(n), channel[ChannelOf(n)])
    ensures ValidPitch(channel[ChannelOf(n)].pitch) && channel[ChannelOf(n)].fb <= 7
    ensures slot[n].mod.Out? ==> slot[n].mod.n < SLOTS
    ensures slot[n].mod.FeedbackMod? ==> slot[n].mod.n == n
  {}

  lemma StageMoves(before: seq<Slot>, now: seq<Slot>, channel: seq<Channel>, k: Clock, drums: Drums, done: nat, n: nat)
    requires Stage(before, now, channel, k, drums, done, n) && n < SLOTS
    requires |channel| == CHANNELS && ValidSlot(now[n]) && ValidChannel(ChannelOf(n), channel[ChannelOf(n)])
    ensures Stage(before, now[n := Advanced(now[n], channel[ChannelOf(n)], k)], channel, k, drums, done, n + 1)
  {
    hide ValidWiring, ValidSlot, Advanced, Done, ValidOut, ChannelOf;
    WiringAt(before, channel, n);
    var next := now[n := Advanced(now[n], channel[ChannelOf(n)], k)];
    forall i | 0 <= i < done ensures Done(before, next, channel, k, drums, i) {
      DoneStays(before, now, next, channel, k, drums, i);
    }
    forall i | done <= i < n + 1 ensures MovedOnly(before, next, channel, k, i) {
      assert i < n ==> MovedOnly(before, now, channel, k, i);
    }
  }

  /** A turn that was had does not depend on later operators. */
  lemma DoneStays(before: seq<Slot>, now: seq<Slot>, next: seq<Slot>, channel: seq<Channel>, k: Clock, drums: Drums,
    n: nat)
    requires ValidWiring(before, channel) && |now| == |next| == SLOTS && n < SLOTS && k.vibshift <= 1 && k.tremolo <= 26
    requires forall i | 0 <= i <= n :: next[i] == now[i]
    requires Done(before, now, channel, k, drums, n)
    ensures Done(before, next, channel, k, drums, n)
  {
    hide ValidSlot, ValidChannel, Advanced, Sounded;
  }

  lemma StageSounds(before: seq<Slot>, now: seq<Slot>, channel: seq<Channel>, k: Clock, drums: Drums, n: nat,
    moved: nat)
    requires Stage(before, now, channel, k, drums, n, moved) && n < moved
    requires ValidWiring(now, channel)
    ensures Stage(before, now[n := Sounded(n, now[n], Read(now, now[n].mod), drums)], channel, k, drums, n + 1, moved)
  {
    hide ValidWiring, ValidSlot, ValidChannel, Advanced, Done, Sounded, ChannelOf, ValidMod;
    WiringAt(now, channel, n);
    var next := now[n := Sounded(n, now[n], Read(now, now[n].mod), drums)];
    forall i | 0 <= i < n ensures Done(before, next, channel, k, drums, i) {
      DoneStays(before, now, next, channel, k, drums, i);
    }
    TurnIsDone(before, now, channel, k, drums, n, moved);
    forall i | n + 1 <= i < moved ensures MovedOnly(before, next, channel, k, i) {
      assert MovedOnly(before, now, channel, k, i);
    }
  }

  lemma TurnIsDone(before: seq<Slot>, now: seq<Slot>, channel: seq<Channel>, k: Clock, drums: Drums, n: nat, moved: nat)
    requires Stage(before, now, channel, k, drums, n, moved) && n < moved
    requires ValidWiring(now, channel)
    ensures Done(before, now[n := Sounded(n, now[n], Read(now, now[n].mod), drums)], channel, k, drums, n)
  {
    hide ValidWiring, ValidSlot, ValidChannel, Advanced, Sounded, ValidMod;
    WiringAt(before, channel, n);
    WiringAt(now, channel, n);
    AdvancedKeeps(before[n], channel[ChannelOf(n)], k);
    assert MovedOnly(before, now, channel, k, n);
    if before[n].mod.Out? {
      var m := before[n].mod.n;
      WiringAt(before, channel, m);
      AdvancedKeeps(before[m], channel[ChannelOf(m)], k);
      if m >= n {
        OthersKeepOut(before, now, channel, k, drums, n, moved, m);
      }
    }
  }

  /** Until it sounds, an operator keeps the last sample. */
  lemma OthersKeepOut(before: seq<Slot>, now: seq<Slot>, channel: seq<Channel>, k: Clock, drums: Drums, n: nat,
    moved: nat, m: nat)
    requires Stage(before, now, channel, k, drums, n, moved) && n <= m < SLOTS
    ensures |before| == SLOTS && now[m].out == before[m].out
  {
    hide ValidWiring, ValidSlot, ValidChannel, Advanced, Sounded, ValidMod, Done;
    WiringAt(before, channel, m);
    AdvancedKeeps(before[m], channel[ChannelOf(m)], k);
    assert m < moved ==> MovedOnly(before, now, channel, k, m);
  }

  lemma AdvancedKeeps(s: Slot, ch: Channel, k: Clock)
    requires ValidSlot(s) && ValidPitch(ch.pitch) && ch.fb <= 7 && k.vibshift <= 1 && k.tremolo <= 26
    ensures Advanced(s, ch, k).out == s.out && Advanced(s, ch, k).mod == s.mod
  {
    AdvancedValid(s, ch, k);
  }

  /** What the mixes hear: the operators below done are new. */
  lemma StageView(before: seq<Slot>, now: seq<Slot>, channel: seq<Channel>, k: Clock, drums: Drums, done: nat)
    requires Stage(before, now, channel, k, drums, done, done)
    ensures |before| == SLOTS && now == now[..done] + before[done..]
  {
    hide Done, MovedOnly, ValidSlot, ValidMod, ValidChannel;
  }

  lemma ReadableOut(c: nat, out: seq<Source>)
    requires c < CHANNELS && ValidOut(c, out)
    ensures |out| == 4 && forall j | 0 <= j < 4 :: out[j].ZeroMod? || out[j].n < SLOTS
  {}

  // ------------------------------------------------------------------
  // The chip
  // ------------------------------------------------------------------

  class Chip {
    var slot: seq<Slot>
    var channel: seq<Channel>
    var timer: nat
    var newm: bool
    var nts: bool
    var rhy: nat
    var vibpos: nat
    var vibshift: nat
    var tremolo: nat
    var tremolopos: nat
    var tremoloshift: nat
    var noise: bv32
    var mixLeft: int
    var mixRight: int
    /** The writes and samples since the reset. */
    ghost var history: seq<Command>

    ghost predicate Valid()
      reads this
    {
      && ValidWiring(slot, channel)
      && timer < TIMER_RANGE && vibpos < 8 && vibshift <= 1
      && tremolo <= 26 && tremolopos < 210 && (tremoloshift == 2 || tremoloshift == 4)
      && 0 < noise < 0x80_0000
    }

    /** OPL3_Reset. */
    constructor ()
      ensures Valid()
      ensures |slot| == SLOTS && forall n | 0 <= n < SLOTS :: slot[n] == ResetSlot(n)
      ensures |channel| == CHANNELS && forall c | 0 <= c < CHANNELS :: channel[c] == ResetChannel(c)
      ensures noise == 0x30_6600 && timer == 0 && rhy == 0 && history == []
    {
      hide ResetSlot, ResetChannel, ValidWiring;
      slot := seq(SLOTS, n requires 0 <= n < SLOTS => ResetSlot(n));
      channel := seq(CHANNELS, c requires 0 <= c < CHANNELS => ResetChannel(c));
      timer, newm, nts, rhy := 0, false, false, 0;
      vibpos, vibshift, tremolo, tremolopos, tremoloshift := 0, 1, 0, 0, 4;
      mixLeft, mixRight, noise, history := 0, 0, 0x30_6600, [];
      new;
      ResetWiringValid(slot, channel);
    }

    lemma OperatorNow(n: nat)
      requires Valid() && n < SLOTS
      ensures |slot| == SLOTS && |channel| == CHANNELS && timer < TIMER_RANGE
      ensures ValidEnvelope(slot[n].eg, slot[n].regs) && slot[n].eg.rate <= 0x3c && slot[n].regs.ksl < 4
    {
      assert ValidSlot(slot[n]);
    }

    lemma WiringNow()
      requires Valid()
      ensures ValidWiring(slot, channel)
    {}

    /** What a method needs to know of a valid chip before it touches channel c. */
    lemma Parts(c: nat)
      requires Valid() && c < CHANNELS
      ensures |slot| == SLOTS && |channel| == CHANNELS && ValidChannel(c, channel[c])
      ensures HasPair(c) ==> ValidChannel(Pair(c), channel[Pair(c)])
    {}

    // ----------------------------------------------------------------
    // Register writes
    // ----------------------------------------------------------------

    function Ksv(n: nat): nat
      requires n < SLOTS && |channel| == CHANNELS
      reads this`channel
    {
      channel[ChannelOf(n)].pitch.ksv
    }

    /** One operator is replaced; it keeps its modulation source. */
    method SetSlot(n: nat, s: Slot)
      requires Valid() && n < SLOTS && ValidSlot(s) && s.mod == slot[n].mod
      modifies this`slot
      ensures Valid() && slot == old(slot)[n := s]
    {
      slot := slot[n := s];
    }

    /** One channel is replaced; it keeps its pointers. */
    method SetChannel(c: nat, ch: Channel)
      requires Valid() && c < CHANNELS && ValidChannel(c, ch)
      modifies this`channel
      ensures Valid() && channel == old(channel)[c := ch]
    {
      channel := channel[c := ch];
    }

    /** OPL3_EnvelopeKeyOn or KeyOff on operator n. */
    method KeySlot(n: nat, on: bool, drum: bool)
      requires Valid() && n < SLOTS
      modifies this`slot
      ensures Valid() && slot[n].mod == old(slot)[n].mod
      ensures slot == old(slot)[n := if on then KeyOn(old(slot)[n], Ksv(n), drum)
        else KeyOff(old(slot)[n], Ksv(n), drum)]
    {
      hide KeyOn, KeyOff;
      assert ValidSlot(slot[n]);
      if on {
        KeyOnValid(slot[n], Ksv(n), drum);
        KeyKeepsMod(slot[n], Ksv(n), drum);
        SetSlot(n, KeyOn(slot[n], Ksv(n), drum));
      } else {
        KeyOffValid(slot[n], Ksv(n), drum);
        KeyKeepsMod(slot[n], Ksv(n), drum);
        SetSlot(n, KeyOff(slot[n], Ksv(n), drum));
      }
    }

    /** The pointers of a channel's operators are set. */
    method SetMods(c: nat, mod0: Source, mod1: Source)
      requires Valid() && c < CHANNELS && ValidMod(ChSlot(c), mod0) && ValidMod(ChSlot(c) + 3, mod1)
      modifies this`slot
      ensures Valid() && slot == WithMods(old(slot), c, mod0, mod1)
    {
      hide ValidWiring, ValidMod;
      WithModsValid(slot, channel, c, mod0, mod1);
      var s0 := ChSlot(c);
      slot := slot[s0 := slot[s0].(mod := mod0)];
      slot := slot[s0 + 3 := slot[s0 + 3].(mod := mod1)];
    }

    /** The output pointers of a channel are set. */
    method SetOut(c: nat, out: seq<Source>)
      requires Valid() && c < CHANNELS && ValidOut(c, out)
      modifies this`channel
      ensures Valid() && channel == old(channel)[c := old(channel)[c].(out := out)]
    {
      assert ValidChannel(c, channel[c]);
      channel := channel[c := channel[c].(out := out)];
    }

    /** OPL3_ChannelSetupAlg. */
    method SetupAlg(c: nat)
      requires Valid() && c < CHANNELS
      modifies this`slot, this`channel
      ensures Valid()
      ensures (slot, channel) == Rewired(old(slot), old(channel), c)
    {
      hide Chip.Valid, WithMods, ValidOut, ValidMod, ChSlot, TwoOpConnection;
      Parts(c);
      var ch := channel[c];
      var s0 := ChSlot(c);
      if ch.chtype == Drum {
        ConnectionsValid(c, ch.alg % 2);
        var conn := TwoOpConnection(ch.alg % 2, s0, s0 + 3);
        SetMods(c, conn.mod0, conn.mod1);
        return;
      }
      if ch.alg >= 8 {
        return;
      }
      if ch.alg >= 4 {
        SetupPair(c, ch.alg % 4);
      } else {
        ConnectionsValid(c, ch.alg % 2);
        var conn := TwoOpConnection(ch.alg % 2, s0, s0 + 3);
        SetMods(c, conn.mod0, conn.mod1);
        SetOut(c, conn.out);
      }
    }

    /** The four-operator half of OPL3_ChannelSetupAlg. */
    method SetupPair(c: nat, alg: nat)
      requires Valid() && c < CHANNELS && HasPair(c) && alg < 4
      modifies this`slot, this`channel
      ensures Valid()
      ensures |old(slot)| == SLOTS && |old(channel)| == CHANNELS
      ensures (slot, channel) == RewiredPair(old(slot), old(channel), c, alg)
    {
      hide Chip.Valid, WithMods, ValidOut, ValidMod, ChSlot, FourOpConnection, Pair;
      Parts(c);
      var p := Pair(c);
      PairConnectionsValid(c, alg);
      var (pairConn, conn) := FourOpConnection(alg, ChSlot(p), ChSlot(p) + 3, ChSlot(c), ChSlot(c) + 3);
      SetOut(p, pairConn.out);
      SetMods(p, pairConn.mod0, pairConn.mod1);
      SetMods(c, conn.mod0, conn.mod1);
      SetOut(c, conn.out);
    }

    /** The frequency of a channel changes, and with it the attenuation and the rates of its operators. */
    method SetPitch(c: nat, p: Pitch)
      requires Valid() && c < CHANNELS && ValidPitch(p)
      modifies this`slot, this`channel
      ensures Valid()
      ensures channel == old(channel)[c := old(channel)[c].(pitch := p)]
      ensures slot == WithPitch(old(slot), c, p)
    {
      SlotsOfChannel(c);
      assert ValidChannel(c, channel[c]);
      SetChannel(c, channel[c].(pitch := p));
      hide Repitched;
      var s0 := ChSlot(c);
      RepitchedValid(slot[s0], p);
      SetSlot(s0, Repitched(slot[s0], p));
      RepitchedValid(slot[s0 + 3], p);
      SetSlot(s0 + 3, Repitched(slot[s0 + 3], p));
    }

    /** OPL3_ChannelWriteA0. */
    method ChannelWriteA0(c: nat, data: nat)
      requires Valid() && c < CHANNELS && data <= 0xff
      modifies this`slot, this`channel
      ensures Valid() && ValidWiring(old(slot), old(channel))
      ensures (slot, channel) == A0Written(newm, nts, old(slot), old(channel), c, data)
    {
      hide Chip.Valid, ValidWiring, WithPitch, ValidOut, LowPitch, BlockPitch;
      WiringNow();
      ChannelAt(slot, channel, c);
      if newm && channel[c].chtype == FourOp2 {
        return;
      }
      var p := LowPitch(nts, channel[c].pitch, data);
      SetPitch(c, p);
      if newm && channel[c].chtype == FourOp {
        Parts(c);
        SetPitch(Pair(c), Pitch(p.fNum, channel[Pair(c)].pitch.block, p.ksv));
      }
    }

    /** OPL3_ChannelWriteB0. */
    method ChannelWriteB0(c: nat, data: nat)
      requires Valid() && c < CHANNELS && data <= 0xff
      modifies this`slot, this`channel
      ensures Valid() && ValidWiring(old(slot), old(channel))
      ensures (slot, channel) == B0Written(newm, nts, old(slot), old(channel), c, data)
    {
      hide Chip.Valid, ValidWiring, WithPitch, ValidOut, LowPitch, BlockPitch;
      WiringNow();
      ChannelAt(slot, channel, c);
      if newm && channel[c].chtype == FourOp2 {
        return;
      }
      var p := BlockPitch(nts, channel[c].pitch, data);
      SetPitch(c, p);
      if newm && channel[c].chtype == FourOp {
        Parts(c);
        SetPitch(Pair(c), p);
      }
    }

    /**
      OPL3_ChannelWriteC0: feedback, connection, sides, and the pointers of the algorithm, which of a pair one channel
      carries for both.
     */
    method ChannelWriteC0(c: nat, data: nat)
      requires Valid() && c < CHANNELS && data <= 0xff
      modifies this`slot, this`channel
      ensures Valid() && |old(slot)| == SLOTS && |old(channel)| == CHANNELS
      ensures (slot, channel) == C0Written(newm, old(slot), old(channel), c, data)
    {
      hide Chip.Valid, ValidOut, Rewired, Bit, Stored, Carrier;
      Parts(c);
      var carrier := StoreConnection(c, data);
      SetupAlgKeeps(carrier);
      Parts(c);
      SetChannel(c, channel[c].(cha := newm ==> Bit(data, 4), chb := newm ==> Bit(data, 5)));
    }

    /** The first half of OPL3_ChannelWriteC0: the registers, and the channel whose algorithm is to be set up. */
    method StoreConnection(c: nat, data: nat) returns (carrier: nat)
      requires Valid() && c < CHANNELS && data <= 0xff
      modifies this`channel
      ensures Valid() && |old(channel)| == CHANNELS
      ensures channel == Stored(newm, old(channel), c, data) && carrier == Carrier(newm, old(channel), c)
    {
      hide Chip.Valid, ValidOut;
      Parts(c);
      var ch := channel[c];
      SetChannel(c, ch.(fb := data / 2 % 8, con := data % 2, alg := data % 2));
      carrier := c;
      if newm && ch.chtype == FourOp {
        var pair := channel[Pair(c)];
        SetChannel(Pair(c), pair.(alg := 4 + 2 * (data % 2) + pair.con));
        SetChannel(c, channel[c].(alg := 8));
        carrier := Pair(c);
      } else if newm && ch.chtype == FourOp2 {
        var pair := channel[Pair(c)];
        SetChannel(c, channel[c].(alg := 4 + 2 * pair.con + data % 2));
        SetChannel(Pair(c), channel[Pair(c)].(alg := 8));
      }
    }

    /** SetupAlg, as far as a write to C0 is concerned: only the pointers of channels change. */
    method SetupAlgKeeps(c: nat)
      requires Valid() && c < CHANNELS
      modifies this`slot, this`channel
      ensures Valid()
      ensures forall k | 0 <= k < CHANNELS :: channel[k] == old(channel)[k].(out := channel[k].out)
      ensures (slot, channel) == Rewired(old(slot), old(channel), c)
    {
      hide Chip.Valid, ValidOut, ValidMod, WithMods, TwoOpConnection, FourOpConnection;
      Parts(c);
      SetupAlg(c);
    }

    /** Operator n after a key-on or key-off. */
    function Keyed(n: nat, s: Slot, on: bool, drum: bool): Slot
      requires n < SLOTS && |channel| == CHANNELS
      reads this`channel
    {
      KeyChanged(s, Ksv(n), on, drum)
    }

    /** Both operators of a channel. */
    method KeyBoth(c: nat, on: bool)
      requires Valid() && c < CHANNELS
      modifies this`slot
      ensures Valid() && |slot| == |old(slot)| == SLOTS
      ensures forall n | 0 <= n < SLOTS ::
        slot[n] == if ChannelOf(n) == c then Keyed(n, old(slot)[n], on, false) else old(slot)[n]
    {
      hide KeyOn, KeyOff;
      SlotsOfChannel(c);
      KeySlot(ChSlot(c), on, false);
      KeySlot(ChSlot(c) + 3, on, false);
    }

    /** OPL3_ChannelKeyOn and OPL3_ChannelKeyOff. */
    method ChannelKey(c: nat, on: bool)
      requires Valid() && c < CHANNELS
      modifies this`slot
      ensures Valid() && |slot| == |old(slot)| == SLOTS && |channel| == CHANNELS
      ensures slot == KeysChanged(newm, old(slot), channel, c, on)
    {
      hide Chip.Valid, KeyChanged, ChannelOf, ValidOut, ValidPitch;
      Parts(c);
      if newm && channel[c].chtype == FourOp2 {
        return;
      }
      KeyBoth(c, on);
      if newm && channel[c].chtype == FourOp {
        assert KeyedChannels(newm, channel, c) == [c, Pair(c)];
        KeyBoth(Pair(c), on);
      }
    }

    /** OPL3_ChannelSet4Op. */
    method ChannelSet4Op(data: nat)
      requires Valid() && data <= 0xff
      modifies this`channel
      ensures Valid() && SameButTypes(old(channel), channel)
      ensures forall b | 0 <= b < 6 :: PairTyped(channel, b, Bit(data, b))
    {
      hide Chip.Valid, Bit, SameButTypes, PairTyped, ValidChannel, WithPair, FourOpChannel;
      Parts(0);
      SameTypesReflexive(channel);
      var bit := 0;
      while bit < 6
        invariant 0 <= bit <= 6
        invariant Valid() && |channel| == CHANNELS && SameButTypes(old(channel), channel)
        invariant forall b | 0 <= b < bit :: PairTyped(channel, b, Bit(data, b))
      {
        ghost var before := channel;
        SetPairTypes(bit, Bit(data, bit));
        PairTypesStored(old(channel), before, bit, Bit(data, bit));
        bit := bit + 1;
      }
    }

    /** One round of OPL3_ChannelSet4Op. */
    method SetPairTypes(bit: nat, on: bool)
      requires Valid() && bit < 6
      modifies this`channel
      ensures Valid() && |old(channel)| == CHANNELS && channel == WithPair(old(channel), bit, on)
    {
      hide Chip.Valid, ValidOut, ValidPitch;
      var c := FourOpChannel(bit);
      Parts(c);
      Parts(c + 3);
      SetChannel(c, channel[c].(chtype := if on then FourOp else TwoOp));
      SetChannel(c + 3, channel[c + 3].(chtype := if on then FourOp2 else TwoOp));
    }

    /** The six operators of the drums get the key bits of the rhythm register. */
    method KeyDrums(data: nat)
      requires Valid()
      modifies this`slot
      ensures Valid() && |slot| == |old(slot)| == SLOTS
      ensures forall n | 0 <= n < SLOTS ::
        && slot[n].mod == old(slot)[n].mod
        && slot[n] == if 12 <= n < 18 then Keyed(n, old(slot)[n], Bit(data, DrumBit(n)), true) else old(slot)[n]
    {
      hide KeyOn, KeyOff, Bit, Chip.Valid, ChannelOf, ValidOut, ValidSlot, ValidChannel, Chip.Ksv;
      Parts(0);
      KeySlot(13, Bit(data, 0), true);
      KeySlot(17, Bit(data, 1), true);
      KeySlot(14, Bit(data, 2), true);
      KeySlot(16, Bit(data, 3), true);
      KeySlot(12, Bit(data, 4), true);
      KeySlot(15, Bit(data, 4), true);
    }

    /** The rhythm mode takes over channels 6 to 8: their pointers and their type. */
    method ConnectDrums()
      requires Valid()
      modifies this`channel
      ensures Valid() && |channel| == |old(channel)| == CHANNELS
      ensures forall c | 0 <= c < CHANNELS ::
        channel[c] == if 6 <= c < 9 then old(channel)[c].(out := DrumOut(c), chtype := Drum) else old(channel)[c]
    {
      hide Chip.Valid, ValidOut, DrumOut;
      Parts(6);
      Parts(7);
      Parts(8);
      DrumOutsValid();
      SetChannel(6, channel[6].(out := DrumOut(6), chtype := Drum));
      SetChannel(7, channel[7].(out := DrumOut(7), chtype := Drum));
      SetChannel(8, channel[8].(out := DrumOut(8), chtype := Drum));
    }

    /** OPL3_ChannelSetupAlg for channels 6 to 8, which have no pair: a drum keeps its outputs. */
    method SetupAlone(c: nat)
      requires Valid() && 6 <= c < 9
      modifies this`slot, this`channel
      ensures Valid() && |slot| == |old(slot)| == SLOTS && |channel| == |old(channel)| == CHANNELS
      ensures old(channel)[c].alg < 2
      ensures var conn := TwoOpConnection(old(channel)[c].alg, ChSlot(c), ChSlot(c) + 3);
        && slot == WithMods(old(slot), c, conn.mod0, conn.mod1)
        && channel == if old(channel)[c].chtype == Drum then old(channel)
          else old(channel)[c := old(channel)[c].(out := conn.out)]
    {
      hide Chip.Valid, ValidOut, ValidMod, WithMods, TwoOpConnection, FourOpConnection;
      Parts(c);
      assert channel[c].alg % 2 == channel[c].alg;
      SetupAlg(c);
    }

    /** The rhythm mode gives channel c back. */
    method ReleaseDrum(c: nat)
      requires Valid() && 6 <= c < 9
      modifies this`slot, this`channel
      ensures Valid() && |slot| == |old(slot)| == SLOTS && |channel| == |old(channel)| == CHANNELS
      ensures forall n | 0 <= n < SLOTS ::
        slot[n] ==
          if ChannelOf(n) == c
          then Keyed(n, old(slot)[n].(mod := RhythmMod(old(slot), old(channel), n, false)), false, true)
          else old(slot)[n]
      ensures channel == old(channel)[c := old(channel)[c].(chtype := TwoOp, out :=
        TwoOpConnection(old(channel)[c].alg, ChSlot(c), ChSlot(c) + 3).out)]
    {
      hide ChannelOf, ValidPitch, Chip.Valid, ValidOut, ValidMod, TwoOpConnection, KeyOn, KeyOff;
      Parts(c);
      SetChannel(c, channel[c].(chtype := TwoOp));
      SetupAlone(c);
      SlotsOfChannel(c);
      KeySlot(ChSlot(c), false, true);
      KeySlot(ChSlot(c) + 3, false, true);
    }

    /** The half of OPL3_ChannelUpdateRhythm that starts the rhythm mode. */
    method DrumsOn(data: nat)
      requires Valid()
      modifies this`slot, this`channel
      ensures Valid() && |slot| == |old(slot)| == SLOTS && |channel| == |old(channel)| == CHANNELS
      ensures forall n | 0 <= n < SLOTS ::
        slot[n] == DrumKeyed(n, old(slot)[n].(mod := RhythmMod(old(slot), old(channel), n, true)), true, data)
      ensures forall c | 0 <= c < CHANNELS :: channel[c] == Drummed(old(channel)[c], c, true)
    {
      hide Chip.Keyed, DrumBit, ChannelOf, Chip.Valid, ValidOut, ValidMod, TwoOpConnection, KeyOn, KeyOff, Bit, DrumOut;
      hide RhythmMod, WithMods, ChSlot;
      Parts(6);
      RhythmModsOn(slot, channel);
      ConnectDrums();
      SetupAlone(6);
      KeyDrums(data);
    }

    /** The half that ends it. */
    method DrumsOff(data: nat)
      requires Valid()
      modifies this`slot, this`channel
      ensures Valid() && |slot| == |old(slot)| == SLOTS && |channel| == |old(channel)| == CHANNELS
      ensures forall n | 0 <= n < SLOTS ::
        slot[n] == DrumKeyed(n, old(slot)[n].(mod := RhythmMod(old(slot), old(channel), n, false)), false, data)
      ensures forall c | 0 <= c < CHANNELS :: channel[c] == Drummed(old(channel)[c], c, false)
    {
      hide Chip.Valid, ValidOut, ValidMod, TwoOpConnection, KeyOn, KeyOff, Bit, ChSlot;
      Parts(6);
      ReleaseDrum(6);
      ReleaseDrum(7);
      ReleaseDrum(8);
    }

    /** OPL3_ChannelUpdateRhythm. */
    method ChannelUpdateRhythm(data: nat)
      requires Valid() && data <= 0xff
      modifies this`rhy, this`slot, this`channel
      ensures Valid() && |slot| == |old(slot)| == SLOTS && |channel| == |old(channel)| == CHANNELS
      ensures rhy == data % 64
      ensures forall n | 0 <= n < SLOTS ::
        slot[n] == DrumKeyed(n, old(slot)[n].(mod := RhythmMod(old(slot), old(channel), n, Bit(data, 5))), Bit(data, 5),
          data)
      ensures forall c | 0 <= c < CHANNELS :: channel[c] == Drummed(old(channel)[c], c, Bit(data, 5))
    {
      hide ValidWiring, Chip.DrumKeyed, Drummed, Bit;
      rhy := data % 64;
      if Bit(data, 5) {
        DrumsOn(data);
      } else {
        DrumsOff(data);
      }
    }

    /** Operator n after a write to the rhythm register: a drum is keyed by its bit while the rhythm mode is on. */
    function DrumKeyed(n: nat, s: Slot, on: bool, data: nat): Slot
      requires n < SLOTS && |channel| == CHANNELS
      reads this`channel
    {
      if 12 <= n < 18 then Keyed(n, s, on && Bit(data, DrumBit(n)), true) else s
    }

    /** A register of operator n: the write reaches that operator and nothing else. */
    method WriteOperator(family: Family, n: nat, data: nat)
      requires Valid() && n < SLOTS && data <= 0xff
      modifies this`slot
      ensures Valid() && |old(slot)| == SLOTS
      ensures slot == old(slot)[n := Written(family, n, old(slot)[n], data)]
    {
      hide SlotWrite20, SlotWrite40, SlotWrite60, SlotWrite80, SlotWriteE0, KslShifted;
      var s := slot[n];
      assert ValidSlot(s) && ValidChannel(ChannelOf(n), channel[ChannelOf(n)]);
      WritesValid(s, Ksv(n), newm, data);
      LevelWriteValid(s, channel[ChannelOf(n)].pitch, data);
      WritesKeepMod(s, channel[ChannelOf(n)].pitch, newm, data);
      SetSlot(n, Written(family, n, s, data));
    }

    /** Operator n after a write to one of its registers. */
    function Written(family: Family, n: nat, s: Slot, data: nat): Slot
      requires n < SLOTS && |channel| == CHANNELS && ValidPitch(channel[ChannelOf(n)].pitch)
      reads this`channel, this`newm
    {
      match family
      case Flags => SlotWrite20(s, Ksv(n), data)
      case Level => SlotWrite40(s, channel[ChannelOf(n)].pitch, data)
      case AttackDecay => SlotWrite60(s, Ksv(n), data)
      case SustainRelease => SlotWrite80(s, Ksv(n), data)
      case Waveform => SlotWriteE0(s, newm, data)
    }

    /** A register of channel c; a write of the block also keys the channel. */
    method WriteChannel(family: ChannelFamily, c: nat, data: nat)
      requires Valid() && c < CHANNELS && data <= 0xff
      modifies this`slot, this`channel
      ensures Valid() && ValidWiring(old(slot), old(channel))
      ensures (slot, channel) == ChannelWritten(family, newm, nts, old(slot), old(channel), c, data)
    {
      hide Chip.Valid, ValidWiring, Bit, KeysChanged, A0Written, B0Written, C0Written;
      WiringNow();
      ChannelAt(slot, channel, c);
      match family
      case FrequencyLow =>
        ChannelWriteA0(c, data);
      case Block =>
        ChannelWriteB0(c, data);
        ChannelKey(c, Bit(data, 5));
      case Feedback =>
        ChannelWriteC0(c, data);
    }

    /** OPL3_WriteReg: registers below 0x100 are those of the first half of the chip. */
    method WriteReg(reg: nat, data: nat)
      requires Valid() && reg < 0x200 && data <= 0xff
      modifies this`slot, this`channel, this`newm, this`nts, this`rhy, this`vibshift, this`tremoloshift, this`history
      ensures Valid() && history == old(history) + [Write(reg, data)]
      ensures match Decode(reg)
        case OperatorReg(family, n) =>
          && |old(slot)| == SLOTS && |channel| == CHANNELS && ValidPitch(channel[ChannelOf(n)].pitch)
          && channel == old(channel)
          && slot == old(slot)[n := Written(family, n, old(slot)[n], data)]
        case FourOpReg => slot == old(slot) && SameButTypes(old(channel), channel)
          && forall b | 0 <= b < 6 :: PairTyped(channel, b, Bit(data, b))
        case RhythmReg =>
          && rhy == data % 64
          && tremoloshift == (if Bit(data, 7) then 2 else 4)
          && vibshift == (if Bit(data, 6) then 0 else 1)
          && |slot| == |old(slot)| == SLOTS && |channel| == |old(channel)| == CHANNELS
          && (forall n | 0 <= n < SLOTS ::
                slot[n] == DrumKeyed(n, old(slot)[n].(mod := RhythmMod(old(slot), old(channel), n, Bit(data, 5))),
                  Bit(data, 5), data))
          && (forall c | 0 <= c < CHANNELS :: channel[c] == Drummed(old(channel)[c], c, Bit(data, 5)))
        case NewModeReg => newm == Bit(data, 0) && slot == old(slot) && channel == old(channel)
        case NoteSelectReg => nts == Bit(data, 6) && slot == old(slot) && channel == old(channel)
        case ChannelReg(family, c) =>
          && ValidWiring(old(slot), old(channel)) && |slot| == SLOTS && |channel| == CHANNELS
          && (slot, channel) == ChannelWritten(family, newm, nts, old(slot), old(channel), c, data)
          && (forall n | 0 <= n < SLOTS && Elsewhere(c, ChannelOf(n)) :: slot[n] == old(slot)[n])
          && (forall k | 0 <= k < CHANNELS && Elsewhere(c, k) :: channel[k] == old(channel)[k])
        case NoReg => slot == old(slot) && channel == old(channel)
      ensures Decode(reg) != NewModeReg ==> newm == old(newm)
      ensures Decode(reg) != NoteSelectReg ==> nts == old(nts)
      ensures Decode(reg) != RhythmReg ==>
        rhy == old(rhy) && vibshift == old(vibshift) && tremoloshift == old(tremoloshift)
    {
      hide ValidWiring, Decode, Bit, SameButTypes, PairTyped, ValidPitch, ValidOut, ChannelWritten, Elsewhere,
        RhythmMod, Drummed, Chip.DrumKeyed, Chip.Written;
      history := history + [Write(reg, data)];
      assert |slot| == SLOTS && |channel| == CHANNELS by { Parts(0); }
      match Decode(reg)
      case OperatorReg(family, n) =>
        Parts(ChannelOf(n));
        WriteOperator(family, n, data);
      case ChannelReg(family, c) =>
        ChannelWrittenElsewhere(family, newm, nts, slot, channel, c, data);
        WriteChannel(family, c, data);
      case FourOpReg =>
        ChannelSet4Op(data);
      case NewModeReg =>
        newm := Bit(data, 0);
      case NoteSelectReg =>
        nts := Bit(data, 6);
      case RhythmReg =>
        tremoloshift := if Bit(data, 7) then 2 else 4;
        vibshift := if Bit(data, 6) then 0 else 1;
        ChannelUpdateRhythm(data);
      case NoReg =>
    }

    // ----------------------------------------------------------------
    // Samples
    // ----------------------------------------------------------------

    function ClockNow(): Clock
      reads this`timer, this`vibpos, this`vibshift, this`tremolo
    {
      Clock(timer, vibpos, vibshift, tremolo)
    }

    /** OPL3_SlotCalcFB, PhaseGenerate and EnvelopeCalc for operator n. */
    method Advance(n: nat)
      requires Valid() && n < SLOTS
      modifies this`slot
      ensures
        && Valid()
        && |old(slot)| == SLOTS
        && ValidSlot(old(slot)[n])
        && ValidChannel(ChannelOf(n), channel[ChannelOf(n)])
      ensures slot == old(slot)[n := Advanced(old(slot)[n], channel[ChannelOf(n)], ClockNow())]
    {
      hide ValidSlot, Advanced, ValidOut, KslShifted;
      var ch := channel[ChannelOf(n)];
      assert ValidSlot(slot[n]) && ValidChannel(ChannelOf(n), ch);
      AdvancedValid(slot[n], ch, ClockNow());
      SetSlot(n, Advanced(slot[n], ch, ClockNow()));
    }

    /** OPL3_SlotGenerate for operator n, or its counterpart in rhythm mode. */
    method Sound(n: nat, drums: Drums)
      requires Valid() && n < SLOTS
      modifies this`slot
      ensures Valid() && ValidWiring(old(slot), channel)
      ensures slot == old(slot)[n := Sounded(n, old(slot)[n], Read(old(slot), old(slot)[n].mod), drums)]
    {
      hide ValidSlot, Sounded, ValidOut, Read;
      assert ValidSlot(slot[n]) && ValidMod(n, slot[n].mod);
      var modulation := Read(slot, slot[n].mod);
      SoundedValid(n, slot[n], modulation, drums);
      SetSlot(n, Sounded(n, slot[n], modulation, drums));
    }

    /** The loops of OPL3_Generate over whole operators. */
    method SoundAll(lo: nat, hi: nat, drums: Drums, ghost before: seq<Slot>)
      requires Valid() && lo <= hi <= SLOTS && Stage(before, slot, channel, ClockNow(), drums, lo, lo)
      modifies this`slot
      ensures Valid() && |old(slot)| == SLOTS && Stage(before, slot, channel, ClockNow(), drums, hi, hi)
      ensures |slot| == SLOTS && forall n | 0 <= n < lo :: slot[n] == old(slot)[n]
    {
      hide Chip.Valid, Stage, Advanced, Sounded, ValidWiring, ValidSlot, ValidChannel, Read;
      Parts(0);
      var ii := lo;
      while ii < hi
        invariant lo <= ii <= hi
        invariant Valid() && Stage(before, slot, channel, ClockNow(), drums, ii, ii)
        invariant |slot| == SLOTS && forall n | 0 <= n < lo :: slot[n] == old(slot)[n]
      {
        ghost var first := slot;
        Advance(ii);
        StageMoves(before, first, channel, ClockNow(), drums, ii, ii);
        ghost var second := slot;
        Sound(ii, drums);
        StageSounds(before, second, channel, ClockNow(), drums, ii, ii + 1);
        ii := ii + 1;
      }
    }

    /** Three operators that may be drums: they advance together, and then sound. */
    method SoundGroup(lo: nat, drums: Drums, ghost before: seq<Slot>)
      requires Valid() && lo + 3 <= SLOTS && Stage(before, slot, channel, ClockNow(), drums, lo, lo)
      modifies this`slot
      ensures Valid() && |old(slot)| == SLOTS && Stage(before, slot, channel, ClockNow(), drums, lo + 3, lo + 3)
      ensures |slot| == SLOTS && forall n | 0 <= n < lo :: slot[n] == old(slot)[n]
    {
      hide Chip.Valid, Stage, Advanced, Sounded, ValidWiring, ValidSlot, ValidChannel, Read;
      Parts(0);
      var ii := lo;
      while ii < lo + 3
        invariant lo <= ii <= lo + 3
        invariant Valid() && Stage(before, slot, channel, ClockNow(), drums, lo, ii)
        invariant |slot| == SLOTS && forall n | 0 <= n < lo :: slot[n] == old(slot)[n]
      {
        ghost var first := slot;
        Advance(ii);
        StageMoves(before, first, channel, ClockNow(), drums, lo, ii);
        ii := ii + 1;
      }
      ii := lo;
      while ii < lo + 3
        invariant lo <= ii <= lo + 3
        invariant Valid() && Stage(before, slot, channel, ClockNow(), drums, ii, lo + 3)
        invariant |slot| == SLOTS && forall n | 0 <= n < lo :: slot[n] == old(slot)[n]
      {
        ghost var first := slot;
        Sound(ii, drums);
        StageSounds(before, first, channel, ClockNow(), drums, ii, lo + 3);
        ii := ii + 1;
      }
    }

    /** The sum over all channels for one side. */
    method MixChannels(right: bool) returns (mix: int)
      requires Valid()
      ensures ValidWiring(slot, channel) && mix == Mix(slot, channel, right, CHANNELS)
      ensures -294120 <= mix <= 294120
    {
      hide ValidSlot, ValidMod, ValidOut;
      mix := 0;
      var ii := 0;
      while ii < CHANNELS
        invariant 0 <= ii <= CHANNELS && mix == Mix(slot, channel, right, ii)
      {
        var ch := channel[ii];
        assert ValidChannel(ii, ch);
        ReadableOut(ii, ch.out);
        if (if right then ch.chb else ch.cha) {
          mix := mix + ChannelSum(slot, ch.out);
        }
        ii := ii + 1;
      }
      MixFits(slot, channel, right, CHANNELS);
    }

    /** Tremolo, vibrato and timer. */
    method Tick()
      requires Valid()
      modifies this`timer, this`tremolo, this`tremolopos, this`vibpos
      ensures Valid()
      ensures timer == (old(timer) + 1) % TIMER_RANGE
      ensures tremolopos == if old(timer) % 64 == 63 then (old(tremolopos) + 1) % 210 else old(tremolopos)
      ensures tremolo == (if tremolopos < 105 then tremolopos else 210 - tremolopos)
        / (if tremoloshift == 2 then 4 else 16)
      ensures vibpos == if old(timer) % 1024 == 1023 then (old(vibpos) + 1) % 8 else old(vibpos)
    {
      hide ValidWiring;
      if timer % 0x40 == 0x3f {
        tremolopos := (tremolopos + 1) % 210;
      }
      if tremolopos < 105 {
        tremolo := tremolopos / Pow2(tremoloshift);
      } else {
        tremolo := (210 - tremolopos) / Pow2(tremoloshift);
      }
      if timer % 0x400 == 0x3ff {
        vibpos := (vibpos + 1) % 8;
      }
      timer := (timer + 1) % TIMER_RANGE;
    }

    /**
      OPL3_Generate up to the write buffer. Every operator has exactly one turn. The left mix hears
      the new sample of operators 0 to 14 and the last sample of the others; the right mix, of
      operators 0 to 32, is heard one sample later.
     */
    method Generate() returns (left: int, right: int)
      requires Valid()
      modifies this`slot, this`mixLeft, this`mixRight, this`timer, this`tremolo, this`tremolopos, this`vibpos
      modifies this`noise, this`history
      ensures Valid() && noise == NextNoise(old(noise)) && history == old(history) + [Sample]
      ensures Stage(old(slot), slot, channel, old(ClockNow()), old(DrumsAhead()), SLOTS, SLOTS)
      ensures ValidWiring(slot[..15] + old(slot)[15..], channel) && ValidWiring(slot[..33] + old(slot)[33..], channel)
      ensures mixLeft == Mix(slot[..15] + old(slot)[15..], channel, false, CHANNELS)
      ensures mixRight == Mix(slot[..33] + old(slot)[33..], channel, true, CHANNELS)
      ensures left == ClipSample(mixLeft) && right == ClipSample(old(mixRight))
      ensures timer == (old(timer) + 1) % TIMER_RANGE
    {
      hide Chip.Valid, Stage, ValidWiring, ValidSlot, ValidChannel, ClipSample, Mix, NextNoise, Chip.DrumsAhead;
      Parts(0);
      ghost var before := slot;
      var drums := DrumsAhead();
      right := ClipSample(mixRight);
      StageStarts(drums);
      SoundAll(0, 12, drums, before);
      SoundGroup(12, drums, before);
      StoreLeft();
      StageView(before, slot, channel, ClockNow(), drums, 15);
      ghost var atLeft := slot;
      SoundGroup(15, drums, before);
      left := ClipSample(mixLeft);
      SoundAll(18, 33, drums, before);
      StoreRight();
      StageView(before, slot, channel, ClockNow(), drums, 33);
      ghost var atRight := slot;
      SoundAll(33, SLOTS, drums, before);
      assert slot[..15] == atLeft[..15] && slot[..33] == atRight[..33];
      NoiseGenerate();
      Tick();
      Record(Sample);
    }

    ghost method Record(c: Command)
      requires Valid()
      modifies this`history
      ensures Valid() && history == old(history) + [c]
    {
      hide ValidWiring;
      history := history + [c];
    }

    method NoiseGenerate()
      requires Valid()
      modifies this`noise
      ensures Valid() && noise == NextNoise(old(noise))
    {
      hide ValidWiring;
      NoiseGoesOn(noise, noise);
      noise := NextNoise(noise);
    }

    /** The phase of an operator when it has moved on for the next sample. */
    function PhaseAhead(n: nat): nat
      requires Valid() && n < SLOTS
      reads this
    {
      Parts(0);
      assert ValidSlot(slot[n]) && ValidChannel(ChannelOf(n), channel[ChannelOf(n)]);
      Advanced(slot[n], channel[ChannelOf(n)], ClockNow()).pgPhase / 512 % 0x400
    }

    /** The phases of the drums for the next sample. */
    function DrumsAhead(): Drums
      requires Valid()
      reads this
    {
      Parts(0);
      if rhy / 32 % 2 == 0 then NoDrums
      else DrumsOf(PhaseAhead(13), slot[17].pgPhase / 512 % 0x400, PhaseAhead(17), noise & 1 == 1)
    }

    method StoreLeft()
      requires Valid()
      modifies this`mixLeft
      ensures Valid() && ValidWiring(slot, channel) && mixLeft == Mix(slot, channel, false, CHANNELS)
    {
      mixLeft := MixChannels(false);
    }

    method StoreRight()
      requires Valid()
      modifies this`mixRight
      ensures Valid() && ValidWiring(slot, channel) && mixRight == Mix(slot, channel, true, CHANNELS)
    {
      mixRight := MixChannels(true);
    }

    lemma StageStarts(drums: Drums)
      requires Valid()
      ensures Stage(slot, slot, channel, ClockNow(), drums, 0, 0)
    {
      hide ValidSlot, ValidMod, ValidChannel;
    }
  }

  // ------------------------------------------------------------------
  // Runs
  // ------------------------------------------------------------------

  /** A write to a register, or a sample. */
  datatype Command = Write(reg: nat, data: nat) | Sample

  predicate ValidCommand(c: Command) { c.Write? ==> c.reg < 0x200 && c.data <= 0xff }

  /** What is in bounds on every chip that can be reached. */
  ghost predicate Bounded(slot: seq<Slot>, channel: seq<Channel>) {
    && |slot| == SLOTS && |channel| == CHANNELS
    && (forall n | 0 <= n < SLOTS :: 0 <= slot[n].eg.rout <= 0x202 && -4085 <= slot[n].out <= 4084)
    && (forall c, j | 0 <= c < CHANNELS && 0 <= j < |channel[c].out| :: HeardBy(c, channel[c].out[j]))
  }

  /** A pointer of channel c: to silence, or to the output of an operator of c or of its pair. */
  predicate HeardBy(c: nat, source: Source)
    requires c < CHANNELS
  {
    source == ZeroMod || (source.Out? && OfChannelOrPair(c, source.n))
  }

  lemma ValidIsBounded(slot: seq<Slot>, channel: seq<Channel>)
    requires ValidWiring(slot, channel)
    ensures Bounded(slot, channel)
  {
    forall c, j | 0 <= c < CHANNELS && 0 <= j < |channel[c].out| ensures HeardBy(c, channel[c].out[j]) {
      assert ValidChannel(c, channel[c]);
    }
  }

  /** Any writes and any samples from a reset leave every level, every output and every pointer in bounds. */
  method Run(commands: seq<Command>) returns (chip: Chip)
    requires forall i | 0 <= i < |commands| :: ValidCommand(commands[i])
    ensures chip.Valid() && Bounded(chip.slot, chip.channel) && chip.history == commands
  {
    hide Chip.Valid, ValidWiring, Bounded, Stage, ResetSlot, ResetChannel, SameButTypes, PairTyped, Mix,
      Chip.DrumsAhead, DrumsOf, ValidSlot, ValidChannel;
    chip := new Chip();
    var i := 0;
    while i < |commands|
      invariant 0 <= i <= |commands| && chip.Valid() && fresh(chip) && chip.history == commands[..i]
    {
      assert ValidCommand(commands[i]);
      match commands[i] {
        case Write(reg, data) =>
          chip.WriteReg(reg, data);
        case Sample =>
          var _, _ := chip.Generate();
      }
      i := i + 1;
    }
    chip.WiringNow();
    ValidIsBounded(chip.slot, chip.channel);
  }

  /**
    A note that was released and has a release rate falls silent on the chip: after the samples that its envelope needs,
    whatever else plays, its operator is off.
   */
  method FadeOut(chip: Chip, n: nat, samples: nat)
    requires
      && chip.Valid()
      && n < SLOTS
      && |chip.slot| == SLOTS
      && chip.slot[n].eg.gen == Release
      && chip.slot[n].regs.rr > 0
    requires chip.slot[n].eg.rate <= 0x3c && 0 <= chip.slot[n].eg.rout <= 0x202
    requires samples >= SilentAfter(chip.slot[n].eg.rate, chip.slot[n].eg.rout, chip.timer)
    modifies chip
    ensures chip.Valid() && |chip.slot| == SLOTS
    ensures chip.slot[n].eg.gen == Off && chip.slot[n].eg.rout == 0x1ff
  {
    hide Chip.Valid, Chip.DrumsAhead, ValidWiring, Stage, Mix, SilentAfter, EnvelopeCalc, ChannelOf, ValidSlot,
      ValidEnvelope;
    chip.OperatorNow(n);
    ghost var e, r, ksv := chip.slot[n].eg, chip.slot[n].regs, chip.Ksv(n);
    ghost var start, tremolo: seq<nat> := chip.timer, [];
    var i := 0;
    while i < samples
      invariant 0 <= i <= samples && |tremolo| == i && chip.Valid()
      invariant |chip.slot| == SLOTS && |chip.channel| == CHANNELS && chip.Ksv(n) == ksv && chip.slot[n].regs == r
      invariant e.rate <= 0x3c && r.ksl < 4 && chip.timer == (start + i) % TIMER_RANGE
      invariant chip.slot[n].eg == Samples(e, r, ksv, start, tremolo)
    {
      SamplesAppend(e, r, ksv, start, tremolo, chip.tremolo);
      TimerNext(start, i);
      ghost var before, k := chip.slot, chip.ClockNow();
      ghost var drums := chip.DrumsAhead();
      var _, _ := chip.Generate();
      DoneEnvelope(before, chip.slot, chip.channel, k, drums, n);
      tremolo := tremolo + [k.tremolo];
      chip.OperatorNow(n);
      i := i + 1;
    }
    ReleaseEnds(e, r, ksv, start, tremolo);
  }

  /**
    A note that was keyed and has an attack rate is heard on the chip: whatever else plays, its operator becomes
    louder until it is at its loudest and begins to decay, within the samples that its envelope needs.
   */
  method FadeIn(chip: Chip, n: nat) returns (samples: nat)
    requires chip.Valid() && n < SLOTS && |chip.slot| == SLOTS
    requires chip.slot[n].eg.gen == Attack && chip.slot[n].regs.ar > 0 && chip.slot[n].eg.rate <= 0x3c
    requires chip.slot[n].eg.rout >= 0
    modifies chip
    ensures chip.Valid() && |chip.slot| == SLOTS && chip.slot[n].regs == old(chip.slot[n].regs)
    ensures chip.slot[n].eg.gen == Decay && chip.slot[n].eg.rout == 0
    ensures 0 < samples <= old(LoudAfter(chip.slot[n].eg.rate, chip.slot[n].eg.rout, chip.timer))
  {
    hide Chip.Valid, ValidWiring, Stage, Mix, LoudAfter, EnvelopeCalc, ChannelOf, ValidSlot, Increment;
    chip.OperatorNow(n);
    ghost var r, bound := chip.slot[n].regs, LoudAfter(chip.slot[n].eg.rate, chip.slot[n].eg.rout, chip.timer);
    samples := 0;
    while chip.slot[n].eg.gen == Attack
      invariant chip.Valid() && |chip.slot| == SLOTS && |chip.channel| == CHANNELS && chip.slot[n].regs == r
      invariant ValidEnvelope(chip.slot[n].eg, r) && r.ksl < 4 && chip.timer < TIMER_RANGE
      invariant chip.slot[n].eg.gen == Attack ==>
        samples + LoudAfter(chip.slot[n].eg.rate, chip.slot[n].eg.rout, chip.timer) <= bound
      invariant chip.slot[n].eg.gen == Attack || (chip.slot[n].eg.gen == Decay && chip.slot[n].eg.rout == 0)
      invariant samples <= bound && (chip.slot[n].eg.gen != Attack ==> samples > 0)
      decreases chip.slot[n].eg.gen == Attack, bound - samples
    {
      ghost var e, k := chip.slot[n].eg, chip.ClockNow();
      LoudPositive(e.rate, e.rout, chip.timer);
      AttackStep(e, r, chip.Ksv(n), chip.timer, chip.tremolo);
      OneSample(chip, n);
      if e.rout > 0 {
        LoudNears(e.rate, e.rout, chip.slot[n].eg.rout, k.timer);
      }
      samples := samples + 1;
    }
  }

  /** ... and then quieter, down to its sustain level. */
  method FadeToSustain(chip: Chip, n: nat) returns (samples: nat)
    requires chip.Valid() && n < SLOTS && |chip.slot| == SLOTS
    requires chip.slot[n].eg.gen == Decay && chip.slot[n].regs.dr > 0 && chip.slot[n].eg.rate <= 0x3c
    requires chip.slot[n].eg.rout >= 0
    modifies chip
    ensures chip.Valid() && |chip.slot| == SLOTS && chip.slot[n].regs == old(chip.slot[n].regs)
    ensures var goal := chip.slot[n].regs.sl * 16;
      && chip.slot[n].eg.gen == Sustain
      && (old(chip.slot[n].eg.rout) >= goal ==> chip.slot[n].eg.rout == old(chip.slot[n].eg.rout))
      && (old(chip.slot[n].eg.rout) < goal ==> goal <= chip.slot[n].eg.rout <= goal + 3)
    ensures 0 < samples <= old(SustainedAfter(chip.slot[n].eg.rate, chip.slot[n].eg.rout, chip.slot[n].regs.sl * 16,
                                              chip.timer))
  {
    hide Chip.Valid, ValidWiring, Stage, Mix, SustainedAfter, EnvelopeCalc, ChannelOf, ValidSlot, Increment;
    chip.OperatorNow(n);
    ghost var r, goal := chip.slot[n].regs, chip.slot[n].regs.sl * 16;
    ghost var bound := SustainedAfter(chip.slot[n].eg.rate, chip.slot[n].eg.rout, goal, chip.timer);
    samples := 0;
    while chip.slot[n].eg.gen == Decay
      invariant chip.Valid() && |chip.slot| == SLOTS && |chip.channel| == CHANNELS && chip.slot[n].regs == r
      invariant ValidEnvelope(chip.slot[n].eg, r) && r.ksl < 4 && chip.timer < TIMER_RANGE
      invariant chip.slot[n].eg.gen == Decay ==>
        samples + SustainedAfter(chip.slot[n].eg.rate, chip.slot[n].eg.rout, goal, chip.timer) <= bound
      invariant chip.slot[n].eg.gen in {Decay, Sustain}
      invariant chip.slot[n].eg.gen == Sustain ==> chip.slot[n].eg.rout >= goal
      invariant old(chip.slot[n].eg.rout) >= goal ==> chip.slot[n].eg.rout == old(chip.slot[n].eg.rout)
      invariant old(chip.slot[n].eg.rout) < goal ==> chip.slot[n].eg.rout <= goal + 3
      invariant samples <= bound && (chip.slot[n].eg.gen != Decay ==> samples > 0)
      decreases chip.slot[n].eg.gen == Decay, bound - samples
    {
      ghost var e, k := chip.slot[n].eg, chip.ClockNow();
      SustainedPositive(e.rate, e.rout, goal, chip.timer);
      DecayStep(e, r, chip.Ksv(n), chip.timer, chip.tremolo);
      SmallStep(e.rate, chip.timer);
      OneSample(chip, n);
      if e.rout < goal {
        SustainedNears(e.rate, e.rout, goal, k.timer);
      }
      samples := samples + 1;
    }
  }

  /** One sample, as far as the envelope of operator n is concerned. */
  method OneSample(chip: Chip, n: nat)
    requires chip.Valid() && n < SLOTS && |chip.slot| == SLOTS && |chip.channel| == CHANNELS
    requires chip.slot[n].eg.rate <= 0x3c && chip.slot[n].regs.ksl < 4
    modifies chip
    ensures chip.Valid() && |chip.slot| == SLOTS && |chip.channel| == CHANNELS
    ensures chip.slot[n].eg == EnvelopeCalc(old(chip.slot[n].eg), old(chip.slot[n].regs), old(chip.Ksv(n)),
                                            old(chip.timer), old(chip.tremolo))
    ensures chip.slot[n].regs == old(chip.slot[n].regs) && ValidEnvelope(chip.slot[n].eg, chip.slot[n].regs)
    ensures chip.timer == (old(chip.timer) + 1) % TIMER_RANGE
  {
    hide Chip.Valid, Chip.DrumsAhead, ValidWiring, Stage, Mix, EnvelopeCalc, ChannelOf, ValidSlot;
    ghost var before, k := chip.slot, chip.ClockNow();
    ghost var drums := chip.DrumsAhead();
    var _, _ := chip.Generate();
    DoneEnvelope(before, chip.slot, chip.channel, k, drums, n);
    chip.OperatorNow(n);
  }

  lemma TimerNext(start: nat, i: nat)
    ensures ((start + i) % TIMER_RANGE + 1) % TIMER_RANGE == (start + i + 1) % TIMER_RANGE
  {}
}
