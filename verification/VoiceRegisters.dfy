/**
  src/i_oplmusic.c: instruments, and the registers of the chip that the music driver writes for a
  voice. The chip is the map of the values last written; the frequency table is a parameter.
 */
module VoiceRegisters {
  import opened Arithmetic
  import opened VoiceLists

  const MIDI_CHANNELS := 16
  const GENMIDI_NUM_INSTRS := 128
  const GENMIDI_NUM_PERCUSSION := 47

  // ------------------------------------------------------------------
  // Instruments
  // ------------------------------------------------------------------

  /** genmidi_op_t: scale holds the two top bits of the level register, level the six low ones. */
  datatype Operator = Operator(tremolo: nat, attack: nat, sustain: nat, waveform: nat, scale: nat, level: nat)

  /** genmidi_voice_t. */
  datatype InstrVoice = InstrVoice(modulator: Operator, feedback: nat, carrier: Operator, baseNoteOffset: int)

  /** genmidi_instr_t. */
  datatype Instrument = Instrument(twoVoices: bool, fixedPitch: bool, fineTuning: nat, fixedNote: nat,
    first: InstrVoice, second: InstrVoice)

  predicate ValidOperator(op: Operator) { op.scale in {0, 0x40, 0x80, 0xc0} && op.level < 0x40 }

  predicate ValidInstrVoice(d: InstrVoice) { ValidOperator(d.modulator) && ValidOperator(d.carrier) }

  predicate ValidInstrument(i: Instrument) {
    ValidInstrVoice(i.first) && ValidInstrVoice(i.second) && i.fineTuning < 0x100
  }

  ghost predicate ValidInstruments(instrs: seq<Instrument>) {
    |instrs| == GENMIDI_NUM_INSTRS + GENMIDI_NUM_PERCUSSION && forall i | 0 <= i < |instrs| ::
      ValidInstrument(instrs[i])
  }

  function DataOf(instr: Instrument, instrVoice: nat): InstrVoice {
    if instrVoice == 0 then instr.first else instr.second
  }

  /** The two operators are heard side by side. */
  predicate Additive(d: InstrVoice) { d.feedback % 2 == 1 }

  // ------------------------------------------------------------------
  // Registers
  // ------------------------------------------------------------------

  datatype OpFamily = Tremolo | Level | Attack | Sustain | Waveform
  datatype VoiceFamily = Freq1 | Freq2 | Feedback

  /** A register of an operator of a voice, or of a voice. */
  datatype Reg = OpReg(family: OpFamily, v: nat, carrier: bool) | VoiceReg(kind: VoiceFamily, v: nat)

  /** voice_operators. */
  function OperatorOffset(v: nat, carrier: bool): nat
    requires v < 18
  {
    v % 9 / 3 * 8 + v % 9 % 3 + if carrier then 3 else 0
  }

  function OpBase(f: OpFamily): nat {
    match f
    case Tremolo => 0x20
    case Level => 0x40
    case Attack => 0x60
    case Sustain => 0x80
    case Waveform => 0xe0
  }

  function VoiceBase(f: VoiceFamily): nat {
    match f
    case Freq1 => 0xa0
    case Freq2 => 0xb0
    case Feedback => 0xc0
  }

  /** The address that the driver writes: the second nine voices are in the second half of the chip. */
  function Address(r: Reg): nat
    requires r.v < 18
  {
    match r
    case OpReg(f, v, carrier) => v / 9 * 0x100 + OpBase(f) + OperatorOffset(v, carrier)
    case VoiceReg(f, v) => v / 9 * 0x100 + VoiceBase(f) + v % 9
  }

  /** An address is a block of 32 and a place in it. */
  function Block(r: Reg): nat {
    match r
    case OpReg(f, v, _) => v / 9 * 8 + OpBase(f) / 0x20
    case VoiceReg(f, v) => v / 9 * 8 + VoiceBase(f) / 0x20
  }

  function Place(r: Reg): nat
    requires r.v < 18
  {
    match r
    case OpReg(_, v, carrier) => OperatorOffset(v, carrier)
    case VoiceReg(f, v) => VoiceBase(f) % 0x20 + v % 9
  }

  lemma AddressParts(r: Reg)
    requires r.v < 18
    ensures Place(r) < 0x20 && Address(r) == Block(r) * 0x20 + Place(r)
  {
    hide OperatorOffset;
    var half := r.v / 9;
    match r
    case OpReg(f, v, carrier) =>
      OffsetBound(v, carrier);
      assert OpBase(f) == OpBase(f) / 0x20 * 0x20;
    case VoiceReg(f, v) =>
      assert VoiceBase(f) == VoiceBase(f) / 0x20 * 0x20 + VoiceBase(f) % 0x20 && VoiceBase(f) % 0x20 <= 0x10;
  }

  lemma OffsetBound(v: nat, carrier: bool)
    requires v < 18
    ensures OperatorOffset(v, carrier) < 0x20
  {}

  lemma PartsUnique(a: nat, x: nat, b: nat, y: nat)
    requires x < 0x20 && y < 0x20 && a * 0x20 + x == b * 0x20 + y
    ensures a == b && x == y
  {}

  lemma OffsetsDiffer(v: nat, carrier: bool, w: nat, other: bool)
    requires v < 18 && w < 18 && v / 9 == w / 9 && OperatorOffset(v, carrier) == OperatorOffset(w, other)
    ensures v == w && carrier == other
  {
    OffsetDigits(v, carrier);
    OffsetDigits(w, other);
  }

  lemma OffsetDigits(v: nat, carrier: bool)
    requires v < 18
    ensures var x := OperatorOffset(v, carrier);
      x / 8 == v % 9 / 3 && x % 8 == v % 9 % 3 + (if carrier then 3 else 0) && v % 9 % 3 < 3
    ensures v == 9 * (v / 9) + 3 * (v % 9 / 3) + v % 9 % 3
  {
    DivModUnique(OperatorOffset(v, carrier), 8, v % 9 / 3, v % 9 % 3 + if carrier then 3 else 0);
  }

  /** The block tells the half of the chip and the family, up to the two halves of a frequency. */
  lemma BlockTells(r: Reg, s: Reg)
    requires r.v < 18 && s.v < 18 && Block(r) == Block(s)
    ensures r.v / 9 == s.v / 9 && r.OpReg? == s.OpReg?
    ensures r.OpReg? ==> r.family == s.family
    ensures r.VoiceReg? ==> (r.kind == Feedback <==> s.kind == Feedback)
  {
    assert r.v / 9 < 2 && s.v / 9 < 2;
  }

  lemma VoicePlaces(f: VoiceFamily, v: nat, g: VoiceFamily, w: nat)
    requires v < 18 && w < 18 && v / 9 == w / 9 && (f == Feedback <==> g == Feedback)
    requires VoiceBase(f) % 0x20 + v % 9 == VoiceBase(g) % 0x20 + w % 9
    ensures f == g && v == w
  {}

  /** No two registers share an address. */
  lemma AddressesDiffer(r: Reg, s: Reg)
    requires r.v < 18 && s.v < 18 && Address(r) == Address(s)
    ensures r == s
  {
    hide Address, OperatorOffset, Block;
    AddressParts(r);
    AddressParts(s);
    PartsUnique(Block(r), Place(r), Block(s), Place(s));
    BlockTells(r, s);
    if r.OpReg? {
      OffsetsDiffer(r.v, r.carrier, s.v, s.carrier);
    } else {
      VoicePlaces(r.kind, r.v, s.kind, s.v);
    }
  }

  type Chip = map<Reg, nat>

  /** A register that was never written reads as zero. */
  function Read(chip: Chip, r: Reg): nat { if r in chip then chip[r] else 0 }

  /** Nothing but the registers of voice v changed. */
  ghost predicate SameElsewhere(before: Chip, after: Chip, v: nat) {
    forall r: Reg | r.v != v :: (r in before <==> r in after) && Read(before, r) == Read(after, r)
  }

  predicate KeyedOn(chip: Chip, v: nat) { Read(chip, VoiceReg(Freq2, v)) / 0x20 % 2 == 1 }

  // ------------------------------------------------------------------
  // Levels
  // ------------------------------------------------------------------

  /** volume_mapping_table, in rows of 16: the first half. */
  function VolumeLow(h: nat): (row: seq<nat>)
    requires h < 4
    ensures |row| == 16 && forall x | x in row :: x <= 127
  {
    match h
    case 0 => [0, 1, 3, 5, 6, 8, 10, 11, 13, 14, 16, 17, 19, 20, 22, 23]
    case 1 => [25, 26, 27, 29, 30, 32, 33, 34, 36, 37, 39, 41, 43, 45, 47, 49]
    case 2 => [50, 52, 54, 55, 57, 59, 60, 61, 63, 64, 66, 67, 68, 69, 71, 72]
    case _ => [73, 74, 75, 76, 77, 79, 80, 81, 82, 83, 84, 84, 85, 86, 87, 88]
  }

  /** The second half. */
  function VolumeHigh(h: nat): (row: seq<nat>)
    requires h < 4
    ensures |row| == 16 && forall x | x in row :: x <= 127
  {
    match h
    case 0 => [89, 90, 91, 92, 92, 93, 94, 95, 96, 96, 97, 98, 99, 99, 100, 101]
    case 1 => [101, 102, 103, 103, 104, 105, 105, 106, 107, 107, 108, 109, 109, 110, 110, 111]
    case 2 => [112, 112, 113, 113, 114, 114, 115, 115, 116, 117, 117, 118, 118, 119, 119, 120]
    case _ => [120, 121, 121, 122, 122, 123, 123, 123, 124, 124, 125, 125, 126, 126, 127, 127]
  }

  function VolumeRow(h: nat): (row: seq<nat>)
    requires h < 8
    ensures |row| == 16 && forall x | x in row :: x <= 127
  {
    if h < 4 then VolumeLow(h) else VolumeHigh(h - 4)
  }

  function VolumeMapping(x: nat): (y: nat)
    requires x < 128
    ensures y <= 127
  {
    assert VolumeRow(x / 16)[x % 16] in VolumeRow(x / 16);
    VolumeRow(x / 16)[x % 16]
  }

  /** The attenuation of the carrier. */
  function CarVolume(note: nat, channel: nat): (c: nat)
    requires note < 128 && channel < 128
    ensures c < 0x40
  {
    0x3f - FullVolume(VolumeMapping(note), VolumeMapping(channel))
  }

  /** The volumes of note and channel multiplied. */
  function FullVolume(a: nat, b: nat): (f: nat)
    requires a <= 127 && b <= 127
    ensures f <= 0x3f
  {
    FullVolumeBound(a, b);
    a * (2 * (b + 1)) / 0x200
  }

  lemma FullVolumeBound(a: nat, b: nat)
    requires a <= 127 && b <= 127
    ensures 0 <= a * (2 * (b + 1)) / 0x200 <= 0x3f
  {
    MulMonotone(0, a, 2 * (b + 1));
    MulMonotone(a, 127, 2 * (b + 1));
  }

  lemma VolumeRowRises(h: nat, k: nat)
    requires h < 8 && k < 15
    ensures VolumeRow(h)[k] <= VolumeRow(h)[k + 1]
  {
    if h < 4 { LowRises(h, k); } else { HighRises(h - 4, k); }
  }

  lemma LowRises(h: nat, k: nat)
    requires h < 4 && k < 15
    ensures VolumeLow(h)[k] <= VolumeLow(h)[k + 1]
  {}

  lemma HighRises(h: nat, k: nat)
    requires h < 4 && k < 15
    ensures VolumeHigh(h)[k] <= VolumeHigh(h)[k + 1]
  {}

  lemma VolumeRowsJoin(h: nat)
    requires h < 7
    ensures VolumeRow(h)[15] <= VolumeRow(h + 1)[0]
  {}

  lemma {:induction false} VolumeRises(x: nat, y: nat)
    requires x <= y < 128
    ensures VolumeMapping(x) <= VolumeMapping(y)
    decreases y - x
  {
    hide VolumeRow;
    if x < y {
      VolumeRises(x, y - 1);
      var h, k := (y - 1) / 16, (y - 1) % 16;
      if k == 15 {
        assert y / 16 == h + 1 && y % 16 == 0;
        VolumeRowsJoin(h);
      } else {
        assert y / 16 == h && y % 16 == k + 1;
        VolumeRowRises(h, k);
      }
    }
  }

  /** A louder note or channel is never attenuated more; the loudest is not attenuated, and no volume is silence. */
  lemma LouderIsLouder(note: nat, channel: nat, louder: nat, stronger: nat)
    requires note <= louder < 128 && channel <= stronger < 128
    ensures CarVolume(louder, stronger) <= CarVolume(note, channel)
    ensures CarVolume(127, 127) == 0 && CarVolume(0, channel) == 0x3f
  {
    VolumeRises(note, louder);
    VolumeRises(channel, stronger);
    var a, b, c, d := VolumeMapping(note), VolumeMapping(channel), VolumeMapping(louder), VolumeMapping(stronger);
    VolumeEnds();
    hide VolumeMapping;
    FullVolumeRises(a, b, c, d);
  }

  lemma VolumeEnds()
    ensures VolumeMapping(0) == 0 && VolumeMapping(127) == 127
  {
    assert 127 / 16 == 7 && 127 % 16 == 15;
  }

  lemma FullVolumeRises(a: nat, b: nat, c: nat, d: nat)
    requires a <= c <= 127 && b <= d <= 127
    ensures FullVolume(a, b) <= FullVolume(c, d)
  {
    MulMonotone(a, c, 2 * (b + 1));
    MulMonotone(2 * (b + 1), 2 * (d + 1), c);
    assert a * (2 * (b + 1)) <= c * (2 * (d + 1));
    DivMonotone(a * (2 * (b + 1)), c * (2 * (d + 1)));
  }

  lemma DivMonotone(x: nat, y: nat)
    requires x <= y
    ensures x / 0x200 <= y / 0x200
  {}

  function Max(a: nat, b: nat): nat { if a < b then b else a }

  /**
    The level registers of a voice whose carrier has attenuation c: an additive modulator is never louder than the
    carrier.
   */
  function CarLevel(d: InstrVoice, c: nat): nat { d.carrier.scale + c }

  function ModLevel(d: InstrVoice, c: nat): nat {
    d.modulator.scale + if Additive(d) then Max(d.modulator.level, c) else d.modulator.level
  }

  /** An additive modulator has its own attenuation or the carrier's, the larger one; the other kind has its own. */
  lemma ModLevelIs(d: InstrVoice, c: nat)
    requires ValidInstrVoice(d) && c < 0x40
    ensures var own := ModLevel(d, c) - d.modulator.scale;
      && own >= d.modulator.level
      && (Additive(d) ==> own >= c && (own == c || own == d.modulator.level))
      && (!Additive(d) ==> own == d.modulator.level)
    ensures CarLevel(d, c) == d.carrier.scale + c
  {}

  /** The bits of the pan are set in the register, and no other bit changes. */
  lemma OrPanIs(feedback: nat, pan: nat)
    requires feedback < 0x100 && pan in {0x10, 0x20, 0x30}
    ensures OrPan(feedback, pan) % 0x10 == feedback % 0x10 && OrPan(feedback, pan) / 0x40 == feedback / 0x40
    ensures OrPan(feedback, pan) / 0x10 % 2 == (if pan == 0x20 then feedback / 0x10 % 2 else 1)
    ensures OrPan(feedback, pan) / 0x20 % 2 == (if pan == 0x10 then feedback / 0x20 % 2 else 1)
  {
    var a, b, c, d := feedback / 0x40, feedback / 0x20 % 2, feedback / 0x10 % 2, feedback % 0x10;
    FeedbackDigits(feedback);
    Digits(a, if pan == 0x10 then b else 1, if pan == 0x20 then c else 1, d);
    assert OrPan(feedback, pan) == 0x40 * a + 0x20 * (if pan == 0x10 then b else 1)
      + 0x10 * (if pan == 0x20 then c else 1) + d by { OrPanDigits(feedback, pan, a, b, c, d); }
  }

  lemma OrPanDigits(feedback: nat, pan: nat, a: nat, b: nat, c: nat, d: nat)
    requires pan in {0x10, 0x20, 0x30} && b == feedback / 0x20 % 2 && c == feedback / 0x10 % 2
    requires feedback == 0x40 * a + 0x20 * b + 0x10 * c + d
    ensures OrPan(feedback, pan) ==
      0x40 * a + 0x20 * (if pan == 0x10 then b else 1) + 0x10 * (if pan == 0x20 then c else 1) + d
  {
    if pan == 0x10 {} else if pan == 0x20 {} else {}
  }

  lemma FeedbackDigits(x: nat)
    ensures x == 0x40 * (x / 0x40) + 0x20 * (x / 0x20 % 2) + 0x10 * (x / 0x10 % 2) + x % 0x10
  {
    var h := x / 0x10;
    assert x == 0x10 * h + x % 0x10 && h == 2 * (h / 2) + h % 2 && h / 2 == 2 * (h / 4) + h / 2 % 2;
    DivModUnique(x, 0x20, h / 2, 0x10 * (h % 2) + x % 0x10);
    DivModUnique(x, 0x40, h / 4, 0x20 * (h / 2 % 2) + 0x10 * (h % 2) + x % 0x10);
  }

  lemma Digits(a: nat, b: nat, c: nat, d: nat)
    requires b <= 1 && c <= 1 && d < 0x10
    ensures var r := 0x40 * a + 0x20 * b + 0x10 * c + d;
      r % 0x10 == d && r / 0x10 % 2 == c && r / 0x20 % 2 == b && r / 0x40 == a
  {
    var r := 0x40 * a + 0x20 * b + 0x10 * c + d;
    DivModUnique(r, 0x10, 4 * a + 2 * b + c, d);
    DivModUnique(r, 0x20, 2 * a + b, 0x10 * c + d);
    DivModUnique(r, 0x40, a, 0x20 * b + 0x10 * c + d);
  }

  /** The shadow values and the registers of a loaded voice agree, and are right for some attenuation of the carrier. */
  ghost predicate LevelsOk(d: InstrVoice, v: nat, levels: Levels, chip: Chip) {
    && levels.car == CarLevel(d, levels.car % 0x40) && levels.mod == ModLevel(d, levels.car % 0x40)
    && OpReg(Level, v, true) in chip && chip[OpReg(Level, v, true)] == levels.car
    && OpReg(Level, v, false) in chip && chip[OpReg(Level, v, false)] == levels.mod
  }

  /** The level registers as a driver leaves them that always writes both. */
  function AlwaysSet(chip: Chip, d: InstrVoice, v: nat, c: nat): Chip {
    chip[OpReg(Level, v, true) := CarLevel(d, c)][OpReg(Level, v, false) := ModLevel(d, c)]
  }

  /** The other registers of the two operators. */
  ghost predicate OperatorsOk(d: InstrVoice, v: nat, chip: Chip) {
    OperatorOk(d.carrier, v, true, chip) && OperatorOk(d.modulator, v, false, chip)
  }

  ghost predicate OperatorOk(op: Operator, v: nat, carrier: bool, chip: Chip) {
    && Read(chip, OpReg(Tremolo, v, carrier)) == op.tremolo && Read(chip, OpReg(Attack, v, carrier)) == op.attack
    && Read(chip, OpReg(Sustain, v, carrier)) == op.sustain && Read(chip, OpReg(Waveform, v, carrier)) == op.waveform
  }

  /** The registers of an operator written by LoadOperatorData. */
  function Loaded(chip: Chip, v: nat, carrier: bool, op: Operator, level: nat): Chip {
    chip[OpReg(Level, v, carrier) := level][OpReg(Tremolo, v, carrier) := op.tremolo]
        [OpReg(Attack, v, carrier) := op.attack][OpReg(Sustain, v, carrier) := op.sustain]
        [OpReg(Waveform, v, carrier) := op.waveform]
  }

  lemma LoadedOperator(chip: Chip, v: nat, carrier: bool, op: Operator, level: nat)
    ensures var next := Loaded(chip, v, carrier, op, level);
      && OperatorOk(op, v, carrier, next) && OpReg(Level, v, carrier) in next && next[OpReg(Level, v, carrier)] == level
      && forall r: Reg | r.v != v || r.VoiceReg? || r.carrier != carrier ::
        (r in next <==> r in chip) && Read(next, r) == Read(chip, r)
  {}

  /** Both operators and the connection: a freshly loaded voice is silent and consistent. */
  lemma BothLoaded(chip: Chip, v: nat, d: InstrVoice, car: nat, mod: nat, feedback: nat)
    requires ValidInstrVoice(d) && car == d.carrier.scale + 0x3f
    requires mod == d.modulator.scale + if Additive(d) then 0x3f else d.modulator.level
    ensures var next := Loaded(Loaded(chip, v, true, d.carrier, car), v, false, d.modulator,
      mod)[VoiceReg(Feedback, v) := feedback];
      && OperatorsOk(d, v, next) && (forall note :: LevelsOk(d, v, Levels(note, car, mod), next)) && car % 0x40 == 0x3f
      && SameElsewhere(chip, next, v) && KeyedOn(next, v) == KeyedOn(chip, v)
  {
    hide Loaded;
    var first := Loaded(chip, v, true, d.carrier, car);
    LoadedOperator(chip, v, true, d.carrier, car);
    LoadedOperator(first, v, false, d.modulator, mod);
    LevelParts(d, 0x3f);
  }

  /** A top value of the level register or-ed with another one. */
  function OrTop(a: nat, b: nat): nat {
    (if a / 0x80 % 2 == 1 || b / 0x80 % 2 == 1 then 0x80 else 0)
      + (if a / 0x40 % 2 == 1 || b / 0x40 % 2 == 1 then 0x40 else 0)
  }

  lemma OrSame(d: Operator)
    requires ValidOperator(d)
    ensures OrTop(d.scale, d.scale) == d.scale
  {}

  /** The feedback register of a voice, or-ed with the bits of its side, 0x10 and 0x20. */
  function OrPan(feedback: nat, pan: nat): nat {
    feedback + (if pan / 0x10 % 2 == 1 && feedback / 0x10 % 2 == 0 then 0x10 else 0)
             + (if pan / 0x20 % 2 == 1 && feedback / 0x20 % 2 == 0 then 0x20 else 0)
  }

  lemma LevelParts(d: InstrVoice, c: nat)
    requires ValidInstrVoice(d) && c < 0x40
    ensures CarLevel(d, c) % 0x40 == c && CarLevel(d, c) / 0x40 * 0x40 == d.carrier.scale
    ensures ModLevel(d, c) / 0x40 * 0x40 == d.modulator.scale
  {}

  // ------------------------------------------------------------------
  // Frequencies
  // ------------------------------------------------------------------

  const CURVE_LENGTH := 668

  ghost predicate ValidCurve(curve: nat -> nat) {
    forall i | 0 <= i < CURVE_LENGTH :: 0 < curve(i) < 0x400
  }

  /** An octave up is one block more, as far as the chip has blocks, at the same place of the curve. */
  lemma BlockUp(curve: nat -> nat, index: int)
    requires ValidCurve(curve) && index >= 284
    ensures CurveValue(curve, index + 384) == CurveValue(curve, index) + if index < 284 + 7 * 384 then 0x400 else 0
    ensures CurveValue(curve, index) / 0x400 == if index < 284 + 7 * 384 then (index - 284) / 384 else 7
  {
    assert (index + 384 - 284) % 384 == (index - 284) % 384;
    assert 0 < curve((index - 284) % 384 + 284) < 0x400;
  }

  /** Twelve notes up are an octave up. */
  lemma TwelveNotesUp(curve: nat -> nat, instr: Instrument, x: Voice, bend: int)
    requires ValidCurve(curve) && !instr.fixedPitch
    requires var note := x.note + DataOf(instr, x.instrVoice).baseNoteOffset;
      0 <= note <= 83 && 284 <= CurveIndex(note, instr, x, bend) < 284 + 7 * 384
    ensures FrequencyOf(curve, instr, x.(note := x.note + 12), bend) == FrequencyOf(curve, instr, x, bend) + 0x400
  {
    hide CurveValue;
    BlockUp(curve, CurveIndex(x.note + DataOf(instr, x.instrVoice).baseNoteOffset, instr, x, bend));
  }

  /** A note out of range is moved by whole octaves, and by no more of them than it must. */
  lemma InRangeIs(note: int)
    ensures 0 <= InRange(note) <= 95 && (InRange(note) - note) % 12 == 0
    ensures 0 <= note <= 95 ==> InRange(note) == note
    ensures note < 0 ==> InRange(note) < 12
    ensures note > 95 ==> InRange(note) >= 84
  {}

  /** The note moved by octaves into the range 0 to 95. */
  function InRange(note: int): int {
    if note < 0 then note % 12 else if note > 95 then 84 + note % 12 else note
  }

  /** The register value for an index into the curve. */
  function CurveValue(curve: nat -> nat, index: int): nat {
    if index < 0 then curve(0)
    else if index < 284 then curve(index)
    else
      var octave := (index - 284) / 384;
      curve((index - 284) % 384 + 284) + (if octave >= 7 then 7 else octave) * 0x400
  }

  function FrequencyOf(curve: nat -> nat, instr: Instrument, voice: Voice, bend: int): nat {
    var d := DataOf(instr, voice.instrVoice);
    var note := InRange(if instr.fixedPitch then voice.note else voice.note + d.baseNoteOffset);
    CurveValue(curve, CurveIndex(note, instr, voice, bend))
  }

  /** 32 steps for a note; the second voice of an instrument is tuned against the first. */
  function CurveIndex(note: int, instr: Instrument, voice: Voice, bend: int): int {
    64 + 32 * note + bend + if voice.instrVoice != 0 then instr.fineTuning / 2 - 64 else 0
  }

  /** The table is never left, and the value fits block and frequency of the chip and is never zero. */
  lemma CurveBound(curve: nat -> nat, index: int)
    requires ValidCurve(curve)
    ensures 0 < CurveValue(curve, index) < 0x2000
    ensures index >= 284 ==> 284 <= (index - 284) % 384 + 284 < CURVE_LENGTH
  {}

  // ------------------------------------------------------------------
  // The state of the driver
  // ------------------------------------------------------------------

  const NO_VOICE := Voice(-1, 0, -1, 0, 0, 0, Levels(0, 0, 0), 0, 0)

  ghost predicate VoiceOk(instrs: seq<Instrument>, v: nat, x: Voice, chip: Chip) {
    && -1 <= x.channel < MIDI_CHANNELS && -1 <= x.instr < |instrs| && x.instrVoice <= 1 && x.levels.note < 128
      && x.freq < 0x2000
    && (x.instr >= 0 ==>
          var d := DataOf(instrs[x.instr], x.instrVoice);
          LevelsOk(d, v, x.levels, chip) && OperatorsOk(d, v, chip))
  }

  /** A voice stays in order when both bytes of a frequency are written, with the bit that keys it. */
  lemma FreqWritten(instrs: seq<Instrument>, v: nat, voice: Voice, chip: Chip, freq: nat)
    requires VoiceOk(instrs, v, voice, chip) && freq < 0x2000
    ensures SameElsewhere(chip, chip, v)
    ensures var written := chip[VoiceReg(Freq1, v) := freq % 0x100][VoiceReg(Freq2, v) := freq / 0x100 + 0x20];
      VoiceOk(instrs, v, voice.(freq := freq), written) && SameElsewhere(chip, written, v)
  {
    hide CarLevel, ModLevel;
  }

  ghost predicate AllOk(instrs: seq<Instrument>, vs: seq<Voice>, chip: Chip) {
    && (forall v | 0 <= v < |vs| :: VoiceOk(instrs, v, vs[v], chip))
    && (forall v | 0 <= v < |vs| :: Assigned(vs[v]))
  }

  /** Only a loaded voice plays for a channel. */
  predicate Assigned(x: Voice) { x.channel >= 0 ==> x.instr >= 0 }

  /** A voice has a channel just when it is allocated, and sounds only then. */
  ghost predicate InUse(l: Lists, vs: seq<Voice>, chip: Chip, n: nat)
    requires |vs| == n
  {
    forall v | 0 <= v < n :: (vs[v].channel >= 0 <==> v in l.alloced) && (KeyedOn(chip, v) ==> v in l.alloced)
  }

  /** What holds after every event: the lists are a partition of the voices, or the crash has wiped them. */
  ghost predicate StateOk(instrs: seq<Instrument>, n: nat, l: Lists, vs: seq<Voice>, chip: Chip) {
    && |vs| == n
    && AllOk(instrs, vs, chip)
    && (l == WIPED || (Partition(l, n) && InUse(l, vs, chip, n)))
  }

  lemma VoiceOkElsewhere(instrs: seq<Instrument>, w: nat, x: Voice, chip: Chip, next: Chip, v: nat)
    requires VoiceOk(instrs, w, x, chip) && SameElsewhere(chip, next, v) && v != w
    ensures VoiceOk(instrs, w, x, next) && KeyedOn(next, w) == KeyedOn(chip, w)
  {
    hide CarLevel, ModLevel;
  }

  lemma VoicesOkUpdated(instrs: seq<Instrument>, vs: seq<Voice>, chip: Chip, v: nat, x: Voice, next: Chip)
    requires v < |vs| && SameElsewhere(chip, next, v) && VoiceOk(instrs, v, x, next) && Assigned(x)
    requires AllOk(instrs, vs, chip)
    ensures AllOk(instrs, vs[v := x], next)
    ensures forall w | 0 <= w < |vs| && w != v :: KeyedOn(next, w) == KeyedOn(chip, w)
  {
    hide VoiceOk, SameElsewhere, KeyedOn;
    forall w | 0 <= w < |vs| && w != v ensures VoiceOk(instrs, w, vs[w], next) && KeyedOn(next, w) == KeyedOn(chip, w) {
      VoiceOkElsewhere(instrs, w, vs[w], chip, next, v);
    }
  }

  /** A voice changes but stays in its list. */
  lemma StateUpdated(instrs: seq<Instrument>, n: nat, l: Lists, vs: seq<Voice>, chip: Chip, v: nat, x: Voice,
    next: Chip)
    requires StateOk(instrs, n, l, vs, chip) && v < n
    requires SameElsewhere(chip, next, v) && VoiceOk(instrs, v, x, next) && Assigned(x)
    requires x.channel == vs[v].channel && (KeyedOn(next, v) ==> KeyedOn(chip, v) || vs[v].channel >= 0)
    ensures StateOk(instrs, n, l, vs[v := x], next)
  {
    hide VoiceOk, SameElsewhere, KeyedOn, Partition;
    VoicesOkUpdated(instrs, vs, chip, v, x, next);
  }

  /** A voice is released: it is silent and has no channel. */
  lemma StateReleased(instrs: seq<Instrument>, n: nat, l: Lists, vs: seq<Voice>, chip: Chip, i: nat, x: Voice,
    next: Chip)
    requires StateOk(instrs, n, l, vs, chip) && Partition(l, n) && InUse(l, vs, chip, n) && i < |l.alloced|
    requires var v := l.alloced[i];
      v < n && SameElsewhere(chip, next, v) && VoiceOk(instrs, v, x, next) && x.channel < 0 && !KeyedOn(next, v)
    ensures Partition(ReleasedOne(l, i), n) && StateOk(instrs, n, ReleasedOne(l, i), vs[l.alloced[i] := x], next)
    ensures forall w :: w in ReleasedOne(l, i).alloced <==> w in l.alloced && w != l.alloced[i]
  {
    hide VoiceOk, SameElsewhere, KeyedOn;
    VoicesOkUpdated(instrs, vs, chip, l.alloced[i], x, next);
    ReleasedOneKeeps(l, i, n);
    RemovedMembers(l.alloced, i);
  }

  /** A free voice is taken for a note. */
  lemma StateTaken(instrs: seq<Instrument>, n: nat, l: Lists, vs: seq<Voice>, chip: Chip, x: Voice, next: Chip)
    requires StateOk(instrs, n, l, vs, chip) && l.free != [] && Partition(l, n)
    requires var v := l.free[0];
      v < n && SameElsewhere(chip, next, v) && VoiceOk(instrs, v, x, next) && Assigned(x) && x.channel >= 0
    ensures Partition(Taken(l), n) && StateOk(instrs, n, Taken(l), vs[l.free[0] := x], next)
  {
    hide VoiceOk, SameElsewhere, KeyedOn;
    var v := l.free[0];
    VoicesOkUpdated(instrs, vs, chip, v, x, next);
    TakenKeeps(l, n);
    assert v in l.free;
    TakenMembers(l);
  }

  lemma TakenMembers(l: Lists)
    requires l.free != []
    ensures forall w :: w in Taken(l).alloced <==> w in l.alloced || w == l.free[0]
  {}

  lemma StateWiped(instrs: seq<Instrument>, n: nat, l: Lists, vs: seq<Voice>, chip: Chip)
    requires StateOk(instrs, n, l, vs, chip)
    ensures StateOk(instrs, n, WIPED, vs, chip)
  {}

  /** The order of the lists does not matter. */
  lemma StateReordered(instrs: seq<Instrument>, n: nat, l: Lists, vs: seq<Voice>, chip: Chip, q: Query)
    requires StateOk(instrs, n, l, vs, chip)
    ensures StateOk(instrs, n, Bent(l, vs, q), vs, chip)
  {
    hide VoiceOk, KeyedOn, Matches;
    if Partition(l, n) {
      BentKeeps(l, vs, q, n);
      SplitMembers(l.alloced, vs, q);
    }
  }

  lemma AllocatedVoice(instrs: seq<Instrument>, n: nat, l: Lists, vs: seq<Voice>, chip: Chip, i: nat)
    requires StateOk(instrs, n, l, vs, chip) && i < |l.alloced|
    ensures Partition(l, n) && InUse(l, vs, chip, n) && l.alloced[i] in l.alloced && l.alloced[i] < n
    ensures
      && VoiceOk(instrs, l.alloced[i], vs[l.alloced[i]], chip)
      && vs[l.alloced[i]].channel >= 0
      && vs[l.alloced[i]].instr >= 0
  {
    assert l.alloced[i] in l.alloced;
  }

  /** Channel, note and frequency of a voice are not in the level registers. */
  lemma VoiceOkSilent(instrs: seq<Instrument>, v: nat, x: Voice, chip: Chip, value: nat)
    requires VoiceOk(instrs, v, x, chip)
    ensures VoiceOk(instrs, v, x.(channel := -1, note := 0), chip[VoiceReg(Freq2, v) := value])
  {
    hide CarLevel, ModLevel;
  }

  /** The state after InitVoices. */
  lemma NothingLoaded(instrs: seq<Instrument>, n: nat, l: Lists, vs: seq<Voice>, chip: Chip)
    requires Partition(l, n) && l.alloced == [] && |vs| == n && chip == map[]
    requires forall v | 0 <= v < n :: vs[v] == NO_VOICE
    ensures StateOk(instrs, n, l, vs, chip)
  {}

  lemma SameAsBefore(chip: Chip, v: nat)
    ensures SameElsewhere(chip, chip, v)
  {}

  lemma AlwaysSetKeeps(d: InstrVoice, v: nat, c: nat, chip: Chip, note: nat)
    requires ValidInstrVoice(d) && c < 0x40
    ensures var next := AlwaysSet(chip, d, v, c);
      && LevelsOk(d, v, Levels(note, CarLevel(d, c), ModLevel(d, c)), next)
      && (OperatorsOk(d, v, chip) ==> OperatorsOk(d, v, next))
      && SameElsewhere(chip, next, v) && KeyedOn(next, v) == KeyedOn(chip, v)
  {
    hide ModLevel;
    LevelParts(d, c);
  }

  /** An octave up or down does not change where a note ends up. */
  lemma OctaveUp(note: int)
    requires note < 0
    ensures InRange(note + 12) == InRange(note)
  {}

  lemma OctaveDown(note: int)
    requires note > 95
    ensures InRange(note - 12) == InRange(note)
  {}

  lemma FrequencyIgnoresFreq(curve: nat -> nat, instr: Instrument, x: Voice, bend: int)
    ensures forall freq: nat :: FrequencyOf(curve, instr, x.(freq := freq), bend) == FrequencyOf(curve, instr, x, bend)
  {}

  lemma FrequencyBound(curve: nat -> nat, instr: Instrument, x: Voice, bend: int)
    requires ValidCurve(curve)
    ensures 0 < FrequencyOf(curve, instr, x, bend) < 0x2000
  {
    var d := DataOf(instr, x.instrVoice);
    var note := InRange(if instr.fixedPitch then x.note else x.note + d.baseNoteOffset);
    CurveBound(curve, 64 + 32 * note + bend + if x.instrVoice != 0 then instr.fineTuning / 2 - 64 else 0);
  }

  lemma ElsewhereThrice(a: Chip, b: Chip, c: Chip, d: Chip, v: nat)
    requires SameElsewhere(a, b, v) && SameElsewhere(b, c, v) && SameElsewhere(c, d, v)
    ensures SameElsewhere(a, d, v)
  {}

  lemma OperatorsStay(instrs: seq<Instrument>, v: nat, x: Voice, chip: Chip)
    requires VoiceOk(instrs, v, x, chip) && x.instr >= 0
    ensures var d := DataOf(instrs[x.instr], x.instrVoice); LevelsOk(d, v, x.levels, chip) && OperatorsOk(d, v, chip)
  {}

  lemma FirstFree(instrs: seq<Instrument>, n: nat, l: Lists, vs: seq<Voice>, chip: Chip)
    requires StateOk(instrs, n, l, vs, chip) && l.free != []
    ensures Partition(l, n) && l.free[0] < n && VoiceOk(instrs, l.free[0], vs[l.free[0]], chip)
  {
    assert l.free[0] in l.free;
  }

  lemma AllocatedVoices(instrs: seq<Instrument>, n: nat, l: Lists, vs: seq<Voice>, chip: Chip)
    requires StateOk(instrs, n, l, vs, chip)
    ensures forall v | v in l.alloced :: v < n && vs[v].channel >= 0
  {}

  lemma VoiceOkKeyed(instrs: seq<Instrument>, v: nat, x: Voice, chip: Chip, value: nat)
    requires VoiceOk(instrs, v, x, chip)
    ensures VoiceOk(instrs, v, x, chip[VoiceReg(Freq2, v) := value])
  {
    hide CarLevel, ModLevel;
  }

  lemma NobodyLeft(instrs: seq<Instrument>, n: nat, l: Lists, vs: seq<Voice>, chip: Chip)
    requires StateOk(instrs, n, l, vs, chip)
    requires forall v | v in l.alloced && v < |vs| :: !(0 <= vs[v].channel < MIDI_CHANNELS)
    ensures l.alloced == []
  {
    if l.alloced != [] {
      assert l.alloced[0] in l.alloced;
      AllocatedVoice(instrs, n, l, vs, chip, 0);
    }
  }
}
