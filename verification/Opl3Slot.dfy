/**
  opl/opl3.c: one operator of the chip: its waveforms, its envelope, and the register writes
  that reach it.
 */
module Opl3Slot {
  import opened Arithmetic

  // ------------------------------------------------------------------
  // Tables
  // ------------------------------------------------------------------

  /** Sixteen entries of logsinrom, the logarithm of a quarter sine. */
  function LogSinRomRow(h: nat): (row: seq<nat>)
    requires h < 16
    ensures |row| == 16
  {
    match h
    case 0 =>
      [0x859, 0x6c3, 0x607, 0x58b, 0x52e, 0x4e4, 0x4a6, 0x471,
       0x443, 0x41a, 0x3f5, 0x3d3, 0x3b5, 0x398, 0x37e, 0x365]
    case 1 =>
      [0x34e, 0x339, 0x324, 0x311, 0x2ff, 0x2ed, 0x2dc, 0x2cd,
       0x2bd, 0x2af, 0x2a0, 0x293, 0x286, 0x279, 0x26d, 0x261]
    case 2 =>
      [0x256, 0x24b, 0x240, 0x236, 0x22c, 0x222, 0x218, 0x20f,
       0x206, 0x1fd, 0x1f5, 0x1ec, 0x1e4, 0x1dc, 0x1d4, 0x1cd]
    case 3 =>
      [0x1c5, 0x1be, 0x1b7, 0x1b0, 0x1a9, 0x1a2, 0x19b, 0x195,
       0x18f, 0x188, 0x182, 0x17c, 0x177, 0x171, 0x16b, 0x166]
    case 4 =>
      [0x160, 0x15b, 0x155, 0x150, 0x14b, 0x146, 0x141, 0x13c,
       0x137, 0x133, 0x12e, 0x129, 0x125, 0x121, 0x11c, 0x118]
    case 5 =>
      [0x114, 0x10f, 0x10b, 0x107, 0x103, 0x0ff, 0x0fb, 0x0f8,
       0x0f4, 0x0f0, 0x0ec, 0x0e9, 0x0e5, 0x0e2, 0x0de, 0x0db]
    case 6 =>
      [0x0d7, 0x0d4, 0x0d1, 0x0cd, 0x0ca, 0x0c7, 0x0c4, 0x0c1,
       0x0be, 0x0bb, 0x0b8, 0x0b5, 0x0b2, 0x0af, 0x0ac, 0x0a9]
    case 7 =>
      [0x0a7, 0x0a4, 0x0a1, 0x09f, 0x09c, 0x099, 0x097, 0x094,
       0x092, 0x08f, 0x08d, 0x08a, 0x088, 0x086, 0x083, 0x081]
    case 8 =>
      [0x07f, 0x07d, 0x07a, 0x078, 0x076, 0x074, 0x072, 0x070,
       0x06e, 0x06c, 0x06a, 0x068, 0x066, 0x064, 0x062, 0x060]
    case 9 =>
      [0x05e, 0x05c, 0x05b, 0x059, 0x057, 0x055, 0x053, 0x052,
       0x050, 0x04e, 0x04d, 0x04b, 0x04a, 0x048, 0x046, 0x045]
    case 10 =>
      [0x043, 0x042, 0x040, 0x03f, 0x03e, 0x03c, 0x03b, 0x039,
       0x038, 0x037, 0x035, 0x034, 0x033, 0x031, 0x030, 0x02f]
    case 11 =>
      [0x02e, 0x02d, 0x02b, 0x02a, 0x029, 0x028, 0x027, 0x026,
       0x025, 0x024, 0x023, 0x022, 0x021, 0x020, 0x01f, 0x01e]
    case 12 =>
      [0x01d, 0x01c, 0x01b, 0x01a, 0x019, 0x018, 0x017, 0x017,
       0x016, 0x015, 0x014, 0x014, 0x013, 0x012, 0x011, 0x011]
    case 13 =>
      [0x010, 0x00f, 0x00f, 0x00e, 0x00d, 0x00d, 0x00c, 0x00c,
       0x00b, 0x00a, 0x00a, 0x009, 0x009, 0x008, 0x008, 0x007]
    case 14 =>
      [0x007, 0x007, 0x006, 0x006, 0x005, 0x005, 0x005, 0x004,
       0x004, 0x004, 0x003, 0x003, 0x003, 0x002, 0x002, 0x002]
    case _ =>
      [0x002, 0x001, 0x001, 0x001, 0x001, 0x001, 0x001, 0x001,
       0x000, 0x000, 0x000, 0x000, 0x000, 0x000, 0x000, 0x000]
  }

  /** The first four rows of exprom, the fraction of a power of two. */
  function ExpRom0(h: nat): (row: seq<nat>)
    requires h < 4
    ensures |row| == 16 && forall e | e in row :: e <= 0x3fa
  {
    match h
    case 0 =>
      [0x000, 0x003, 0x006, 0x008, 0x00b, 0x00e, 0x011, 0x014,
       0x016, 0x019, 0x01c, 0x01f, 0x022, 0x025, 0x028, 0x02a]
    case 1 =>
      [0x02d, 0x030, 0x033, 0x036, 0x039, 0x03c, 0x03f, 0x042,
       0x045, 0x048, 0x04b, 0x04e, 0x051, 0x054, 0x057, 0x05a]
    case 2 =>
      [0x05d, 0x060, 0x063, 0x066, 0x069, 0x06c, 0x06f, 0x072,
       0x075, 0x078, 0x07b, 0x07e, 0x082, 0x085, 0x088, 0x08b]
    case _ =>
      [0x08e, 0x091, 0x094, 0x098, 0x09b, 0x09e, 0x0a1, 0x0a4,
       0x0a8, 0x0ab, 0x0ae, 0x0b1, 0x0b5, 0x0b8, 0x0bb, 0x0be]
  }

  /** Rows 4 to 7. */
  function ExpRom1(h: nat): (row: seq<nat>)
    requires h < 4
    ensures |row| == 16 && forall e | e in row :: e <= 0x3fa
  {
    match h
    case 0 =>
      [0x0c2, 0x0c5, 0x0c8, 0x0cc, 0x0cf, 0x0d2, 0x0d6, 0x0d9,
       0x0dc, 0x0e0, 0x0e3, 0x0e7, 0x0ea, 0x0ed, 0x0f1, 0x0f4]
    case 1 =>
      [0x0f8, 0x0fb, 0x0ff, 0x102, 0x106, 0x109, 0x10c, 0x110,
       0x114, 0x117, 0x11b, 0x11e, 0x122, 0x125, 0x129, 0x12c]
    case 2 =>
      [0x130, 0x134, 0x137, 0x13b, 0x13e, 0x142, 0x146, 0x149,
       0x14d, 0x151, 0x154, 0x158, 0x15c, 0x160, 0x163, 0x167]
    case _ =>
      [0x16b, 0x16f, 0x172, 0x176, 0x17a, 0x17e, 0x181, 0x185,
       0x189, 0x18d, 0x191, 0x195, 0x199, 0x19c, 0x1a0, 0x1a4]
  }

  /** Rows 8 to 11. */
  function ExpRom2(h: nat): (row: seq<nat>)
    requires h < 4
    ensures |row| == 16 && forall e | e in row :: e <= 0x3fa
  {
    match h
    case 0 =>
      [0x1a8, 0x1ac, 0x1b0, 0x1b4, 0x1b8, 0x1bc, 0x1c0, 0x1c4,
       0x1c8, 0x1cc, 0x1d0, 0x1d4, 0x1d8, 0x1dc, 0x1e0, 0x1e4]
    case 1 =>
      [0x1e8, 0x1ec, 0x1f0, 0x1f5, 0x1f9, 0x1fd, 0x201, 0x205,
       0x209, 0x20e, 0x212, 0x216, 0x21a, 0x21e, 0x223, 0x227]
    case 2 =>
      [0x22b, 0x230, 0x234, 0x238, 0x23c, 0x241, 0x245, 0x249,
       0x24e, 0x252, 0x257, 0x25b, 0x25f, 0x264, 0x268, 0x26d]
    case _ =>
      [0x271, 0x276, 0x27a, 0x27f, 0x283, 0x288, 0x28c, 0x291,
       0x295, 0x29a, 0x29e, 0x2a3, 0x2a8, 0x2ac, 0x2b1, 0x2b5]
  }

  /** Rows 12 to 15. */
  function ExpRom3(h: nat): (row: seq<nat>)
    requires h < 4
    ensures |row| == 16 && forall e | e in row :: e <= 0x3fa
  {
    match h
    case 0 =>
      [0x2ba, 0x2bf, 0x2c4, 0x2c8, 0x2cd, 0x2d2, 0x2d6, 0x2db,
       0x2e0, 0x2e5, 0x2e9, 0x2ee, 0x2f3, 0x2f8, 0x2fd, 0x302]
    case 1 =>
      [0x306, 0x30b, 0x310, 0x315, 0x31a, 0x31f, 0x324, 0x329,
       0x32e, 0x333, 0x338, 0x33d, 0x342, 0x347, 0x34c, 0x351]
    case 2 =>
      [0x356, 0x35b, 0x360, 0x365, 0x36a, 0x370, 0x375, 0x37a,
       0x37f, 0x384, 0x38a, 0x38f, 0x394, 0x399, 0x39f, 0x3a4]
    case _ =>
      [0x3a9, 0x3ae, 0x3b4, 0x3b9, 0x3bf, 0x3c4, 0x3c9, 0x3cf,
       0x3d4, 0x3da, 0x3df, 0x3e4, 0x3ea, 0x3ef, 0x3f5, 0x3fa]
  }

  function LogSinRom(i: nat): nat
    requires i < 0x100
  {
    LogSinRomRow(i / 16)[i % 16]
  }

  function ExpRomRow(h: nat): (row: seq<nat>)
    requires h < 16
    ensures |row| == 16 && forall e | e in row :: e <= 0x3fa
  {
    if h < 4 then ExpRom0(h) else if h < 8 then ExpRom1(h - 4) else if h < 12 then ExpRom2(h - 8) else ExpRom3(h - 12)
  }

  function ExpRom(i: nat): nat
    requires i < 0x100
  {
    ExpRomRow(i / 16)[i % 16]
  }

  lemma ExpRomBound(i: nat)
    requires i < 0x100
    ensures ExpRom(i) <= 0x3fa
  {
    hide ExpRomRow;
    assert ExpRom(i) in ExpRomRow(i / 16);
  }

  /** kslrom: the attenuation of high notes. */
  function KslRom(i: nat): (k: nat)
    requires i < 16
    ensures k <= 64
  {
    [0, 32, 40, 45, 48, 51, 53, 55, 56, 58, 59, 60, 61, 62, 63, 64][i]
  }

  /** 2^n, for the shifts of the envelope. */
  function Pow2(n: nat): (p: nat)
    requires n <= 12
    ensures p > 0
  {
    match n
    case 0 => 1 case 1 => 2 case 2 => 4 case 3 => 8 case 4 => 16 case 5 => 32 case 6 => 64 case 7 => 128
    case 8 => 256 case 9 => 512 case 10 => 1024 case 11 => 2048 case _ => 4096
  }

  /** Attenuation shifted by kslshift. */
  function KslShifted(egKsl: nat, regKsl: nat): nat
    requires regKsl < 4
  {
    match regKsl
    case 0 => egKsl / 256
    case 1 => egKsl / 2
    case 2 => egKsl / 4
    case _ => egKsl
  }

  /** eg_incstep[desc][rate][step]. */
  function IncStep(desc: nat, rate: nat, step: nat): (inc: nat)
    requires desc < 3 && rate < 4 && step < 8
    ensures inc <= if desc == 2 && rate > 0 then 2 else 1
    ensures desc == 1 && step % 2 == 1 ==> inc == 1
    ensures desc == 2 ==> inc >= 1
  {
    match desc
    case 0 => 0
    case 1 =>
      (match rate
       case 0 => [0, 1, 0, 1, 0, 1, 0, 1][step]
       case 1 => [0, 1, 0, 1, 1, 1, 0, 1][step]
       case 2 => [0, 1, 1, 1, 0, 1, 1, 1][step]
       case _ => [0, 1, 1, 1, 1, 1, 1, 1][step])
    case _ =>
      (match rate
       case 0 => 1
       case 1 => [2, 2, 1, 1, 1, 1, 1, 1][step]
       case 2 => [2, 2, 1, 1, 2, 2, 1, 1][step]
       case _ => [2, 2, 2, 2, 2, 2, 1, 1][step])
  }

  /** eg_incdesc. */
  function IncDesc(rateHigh: nat): nat
    requires rateHigh < 16
  {
    if rateHigh == 0 then 0 else if rateHigh <= 12 then 1 else 2
  }

  /** eg_incsh: positive values slow the envelope down, negative ones speed it up. */
  function IncShift(rateHigh: nat): (sh: int)
    requires rateHigh < 16
    ensures -2 <= sh <= 11
  {
    if rateHigh == 0 || rateHigh == 13 then 0
    else if rateHigh <= 12 then 12 - rateHigh
    else 13 - rateHigh
  }

  // ------------------------------------------------------------------
  // Waveforms
  // ------------------------------------------------------------------

  /** OPL3_EnvelopeCalcExp: at most 4084, whatever the attenuation. */
  function CalcExp(level: nat): (r: int)
    ensures 0 <= r <= 4084
  {
    var clamped := if level > 0x1fff then 0x1fff else level;
    ExpRomBound(0xff - clamped % 0x100);
    ShiftRight(2 * (ExpRom(0xff - clamped % 0x100) + 0x400), clamped / 0x100)
  }

  function ShiftRight(x: nat, n: nat): (r: nat)
    ensures r <= x
  {
    if n == 0 then x else ShiftRight(x, n - 1) / 2
  }

  /** XOR of a 16-bit value with all ones or with nothing. */
  function NegateIf(neg: bool, x: int): int {
    if neg then -x - 1 else x
  }

  function Bit(x: nat, n: nat): bool
    requires n <= 12
  {
    x / Pow2(n) % 2 == 1
  }

  /** The eight waveforms OPL3_EnvelopeCalcSin0 to 7. */
  function CalcSin(wf: nat, phase: nat, envelope: nat): (r: int)
    requires wf < 8
    ensures -4085 <= r <= 4084
  {
    Wave(wf, phase % 0x400, envelope)
  }

  /** ... over one turn of the phase. */
  function Wave(wf: nat, p: nat, envelope: nat): (r: int)
    requires wf < 8 && p < 0x400
    ensures -4085 <= r <= 4084
  {
    var up := p % 0x100;
    var quarter := if Bit(p, 8) then LogSinRom(0xff - up) else LogSinRom(up);
    var doubled := if Bit(p, 7) then LogSinRom((0xff - up) * 2 % 0x100) else LogSinRom(up * 2 % 0x100);
    match wf
    case 0 => NegateIf(Bit(p, 9), CalcExp(quarter + envelope * 8))
    case 1 => CalcExp((if Bit(p, 9) then 0x1000 else quarter) + envelope * 8)
    case 2 => CalcExp(quarter + envelope * 8)
    case 3 => CalcExp((if Bit(p, 8) then 0x1000 else LogSinRom(up)) + envelope * 8)
    case 4 => NegateIf(!Bit(p, 9) && Bit(p, 8), CalcExp((if Bit(p, 9) then 0x1000 else doubled) + envelope * 8))
    case 5 => CalcExp((if Bit(p, 9) then 0x1000 else doubled) + envelope * 8)
    case 6 => NegateIf(Bit(p, 9), CalcExp(envelope * 8))
    case _ => NegateIf(Bit(p, 9), CalcExp((if Bit(p, 9) then 0x1ff - p % 0x200 else p) * 8 + envelope * 8))
  }

  // ------------------------------------------------------------------
  // Operators
  // ------------------------------------------------------------------

  datatype Generator = Off | Attack | Decay | Sustain | Release

  /** What a 16-bit pointer of the chip points at: zeromod, or out or fbmod of operator n. */
  datatype Source = ZeroMod | Out(n: nat) | FeedbackMod(n: nat)

  /** The reg_ fields of opl3_slot; tremolo says whether trem points at the tremolo of the chip. */
  datatype Registers = Registers(tremolo: bool, vib: bool, typ: bool, ksr: bool, mult: nat, ksl: nat, tl: nat,
                                 ar: nat, dr: nat, sl: nat, rr: nat, wf: nat)

  /** The eg_ fields of opl3_slot. */
  datatype Envelope = Envelope(rout: int, out: int, inc: nat, gen: Generator, rate: nat, ksl: nat)

  /** opl3_slot; the two bits of key are keyNorm and keyDrum. */
  datatype Slot = Slot(out: int, fbmod: int, prout: int, mod: Source, eg: Envelope, regs: Registers,
                       keyNorm: bool, keyDrum: bool, pgPhase: nat)

  /** The pitch of the channel an operator belongs to. */
  datatype Pitch = Pitch(fNum: nat, block: nat, ksv: nat)

  ghost predicate ValidPitch(p: Pitch) {
    p.fNum <= 0x3ff && p.block <= 7 && p.ksv <= 15
  }

  /** OPL3_EnvelopeCalcRate. */
  function CalcRate(regs: Registers, ksv: nat, regRate: nat): (rate: nat)
    ensures rate <= 0x3c
    ensures if regRate == 0 then rate == 0 else rate >= 4
  {
    if regRate == 0 then 0
    else
      var rate := regRate * 4 + if regs.ksr then ksv else ksv / 4;
      if rate > 0x3c then 0x3c else rate
  }

  /** OPL3_EnvelopeUpdateKSL. */
  function UpdateKsl(eg: Envelope, p: Pitch): Envelope
    requires ValidPitch(p)
  {
    var ksl := KslRom(p.fNum / 64) * 4 - (8 - p.block) * 32;
    eg.(ksl := if ksl < 0 then 0 else ksl)
  }

  /** OPL3_EnvelopeUpdateRate. */
  function UpdateRate(eg: Envelope, regs: Registers, ksv: nat): Envelope {
    var regRate := match eg.gen
      case Off | Attack => regs.ar
      case Decay => regs.dr
      case Sustain | Release => regs.rr;
    eg.(rate := CalcRate(regs, ksv, regRate))
  }

  /** The increment that OPL3_EnvelopeCalc takes from its tables at this value of the timer. */
  function Increment(rate: nat, timer: nat): (inc: nat)
    requires rate <= 0x3c
    ensures inc <= 4
  {
    var high, low := rate / 4, rate % 4;
    var sh := IncShift(high);
    if sh > 0 then
      if timer % Pow2(sh) == 0 then IncStep(IncDesc(high), low, timer / Pow2(sh) % 8) else 0
    else
      IncStep(IncDesc(high), low, timer % 8) * Pow2(-sh)
  }

  /** OPL3_EnvelopeGenOff, Attack, Decay, Sustain and Release. */
  function GenStep(eg: Envelope, regs: Registers, ksv: nat): Envelope {
    match eg.gen
    case Off => eg.(rout := 0x1ff)
    case Attack =>
      if eg.rout == 0 then UpdateRate(eg.(gen := Decay), regs, ksv)
      else
        var next := eg.rout + (-eg.rout - 1) * eg.inc / 8;
        eg.(rout := if next < 0 then 0 else next)
    case Decay =>
      if eg.rout >= regs.sl * 16 then UpdateRate(eg.(gen := Sustain), regs, ksv)
      else eg.(rout := eg.rout + eg.inc)
    case Sustain => if regs.typ then eg else ReleaseStep(eg, regs, ksv)
    case Release => ReleaseStep(eg, regs, ksv)
  }

  function ReleaseStep(eg: Envelope, regs: Registers, ksv: nat): Envelope {
    if eg.rout >= 0x1ff then UpdateRate(eg.(gen := Off, rout := 0x1ff), regs, ksv)
    else eg.(rout := eg.rout + eg.inc)
  }

  /** OPL3_EnvelopeCalc: the level for this sample, and the step to the next. */
  function EnvelopeCalc(eg: Envelope, regs: Registers, ksv: nat, timer: nat, tremolo: nat): Envelope
    requires eg.rate <= 0x3c && regs.ksl < 4
  {
    var level := eg.rout + regs.tl * 4 + KslShifted(eg.ksl, regs.ksl) + (if regs.tremolo then tremolo else 0);
    GenStep(eg.(inc := Increment(eg.rate, timer), out := level), regs, ksv)
  }

  /** OPL3_EnvelopeKeyOn. */
  function KeyOn(slot: Slot, ksv: nat, drum: bool): Slot {
    var started :=
      if slot.keyNorm || slot.keyDrum then slot
      else
        var attack := UpdateRate(slot.eg.(gen := Attack), slot.regs, ksv);
        var eg := if attack.rate / 4 == 0x0f then UpdateRate(attack.(gen := Decay), slot.regs, ksv).(rout := 0)
          else attack;
        slot.(eg := eg, pgPhase := 0);
    if drum then started.(keyDrum := true) else started.(keyNorm := true)
  }

  /** OPL3_EnvelopeKeyOff. */
  function KeyOff(slot: Slot, ksv: nat, drum: bool): Slot {
    if !slot.keyNorm && !slot.keyDrum then slot
    else
      var released := if drum then slot.(keyDrum := false) else slot.(keyNorm := false);
      if released.keyNorm || released.keyDrum then released
      else released.(eg := UpdateRate(slot.eg.(gen := Release), slot.regs, ksv))
  }

  // Register writes: OPL3_SlotWrite20, 40, 60, 80 and E0.

  function WithRegisters(slot: Slot, regs: Registers, ksv: nat): Slot {
    slot.(regs := regs, eg := UpdateRate(slot.eg, regs, ksv))
  }

  function SlotWrite20(slot: Slot, ksv: nat, data: nat): Slot {
    WithRegisters(slot, slot.regs.(tremolo := Bit(data, 7), vib := Bit(data, 6), typ := Bit(data, 5),
                                   ksr := Bit(data, 4), mult := data % 16), ksv)
  }

  function SlotWrite40(slot: Slot, p: Pitch, data: nat): Slot
    requires ValidPitch(p)
  {
    slot.(regs := slot.regs.(ksl := data / 64 % 4, tl := data % 64), eg := UpdateKsl(slot.eg, p))
  }

  function SlotWrite60(slot: Slot, ksv: nat, data: nat): Slot {
    WithRegisters(slot, slot.regs.(ar := data / 16 % 16, dr := data % 16), ksv)
  }

  function SlotWrite80(slot: Slot, ksv: nat, data: nat): Slot {
    var sl := data / 16 % 16;
    WithRegisters(slot, slot.regs.(sl := if sl == 0x0f then 0x1f else sl, rr := data % 16), ksv)
  }

  function SlotWriteE0(slot: Slot, newm: bool, data: nat): Slot {
    slot.(regs := slot.regs.(wf := if newm then data % 8 else data % 4))
  }

  // ------------------------------------------------------------------
  // Bounds
  // ------------------------------------------------------------------

  ghost predicate ValidRegisters(r: Registers) {
    r.mult <= 15 && r.ksl <= 3 && r.tl <= 0x3f && r.ar <= 15 && r.dr <= 15 && r.sl <= 0x1f && r.rr <= 15 && r.wf <= 7
  }

  /** The level stays in range; an operator whose register for its phase has a rate goes on moving. */
  ghost predicate ValidEnvelope(e: Envelope, r: Registers) {
    && 0 <= e.rout <= 0x202 && 0 <= e.out <= 0x3f8 && e.inc <= 4 && e.rate <= 0x3c && e.ksl <= 224
    && (e.gen == Attack && r.ar > 0 ==> e.rate >= 4)
    && (e.gen == Decay && r.dr > 0 ==> e.rate >= 4)
    && (e.gen in {Sustain, Release} && r.rr > 0 ==> e.rate >= 4)
  }

  ghost predicate InRange(sample: int) { -4085 <= sample <= 4084 }

  /** What holds of an operator after any writes and any samples. */
  ghost predicate ValidSlot(s: Slot) {
    && InRange(s.out) && InRange(s.prout) && InRange(s.fbmod)
    && ValidEnvelope(s.eg, s.regs) && ValidRegisters(s.regs)
  }

  lemma UpdateRateValid(e: Envelope, r: Registers, ksv: nat)
    requires 0 <= e.rout <= 0x202 && 0 <= e.out <= 0x3f8 && e.inc <= 4 && e.ksl <= 224
    ensures ValidEnvelope(UpdateRate(e, r, ksv), r)
    ensures UpdateRate(e, r, ksv) == e.(rate := UpdateRate(e, r, ksv).rate)
  {
    hide CalcRate;
  }

  lemma UpdateKslValid(e: Envelope, r: Registers, p: Pitch)
    requires ValidEnvelope(e, r) && ValidPitch(p)
    ensures ValidEnvelope(UpdateKsl(e, p), r)
  {
    hide KslRom;
  }

  /** An attack step goes down and, before the clamp, at most one below zero. */
  lemma AttackBounds(rout: int, inc: int)
    requires 0 < rout && 0 <= inc <= 4
    ensures -1 <= rout + (-rout - 1) * inc / 8 <= rout
  {
    if inc == 0 {} else if inc == 1 {} else if inc == 2 {} else if inc == 3 {} else {}
  }

  lemma GenStepValid(e: Envelope, r: Registers, ksv: nat)
    requires ValidEnvelope(e, r) && r.sl <= 0x1f
    ensures ValidEnvelope(GenStep(e, r, ksv), r)
  {
    hide UpdateRate;
    UpdateRateValid(e.(gen := Decay), r, ksv);
    UpdateRateValid(e.(gen := Sustain), r, ksv);
    UpdateRateValid(e.(gen := Off, rout := 0x1ff), r, ksv);
    if e.rout > 0 {
      AttackBounds(e.rout, e.inc);
    }
  }

  lemma EnvelopeCalcValid(e: Envelope, r: Registers, ksv: nat, timer: nat, tremolo: nat)
    requires ValidEnvelope(e, r) && ValidRegisters(r) && tremolo <= 26
    ensures ValidEnvelope(EnvelopeCalc(e, r, ksv, timer, tremolo), r)
  {
    hide Increment, GenStep;
    var level := e.rout + r.tl * 4 + KslShifted(e.ksl, r.ksl) + (if r.tremolo then tremolo else 0);
    GenStepValid(e.(inc := Increment(e.rate, timer), out := level), r, ksv);
  }

  lemma RegistersValid(s: Slot, r: Registers, ksv: nat)
    requires ValidSlot(s) && ValidRegisters(r)
    ensures ValidSlot(WithRegisters(s, r, ksv))
  {
    hide UpdateRate;
    UpdateRateValid(s.eg, r, ksv);
  }

  lemma WritesValid(s: Slot, ksv: nat, newm: bool, data: nat)
    requires ValidSlot(s)
    ensures ValidSlot(SlotWrite20(s, ksv, data)) && ValidSlot(SlotWrite60(s, ksv, data))
    ensures ValidSlot(SlotWrite80(s, ksv, data)) && ValidSlot(SlotWriteE0(s, newm, data))
  {
    hide WithRegisters, Bit;
    RegistersValid(s, s.regs.(tremolo := Bit(data, 7), vib := Bit(data, 6), typ := Bit(data, 5),
                              ksr := Bit(data, 4), mult := data % 16), ksv);
    RegistersValid(s, s.regs.(ar := data / 16 % 16, dr := data % 16), ksv);
    var sl := data / 16 % 16;
    RegistersValid(s, s.regs.(sl := if sl == 0x0f then 0x1f else sl, rr := data % 16), ksv);
  }

  lemma LevelWriteValid(s: Slot, p: Pitch, data: nat)
    requires ValidSlot(s) && ValidPitch(p)
    ensures ValidSlot(SlotWrite40(s, p, data))
  {
    hide UpdateKsl;
    UpdateKslValid(s.eg, s.regs.(ksl := data / 64 % 4, tl := data % 64), p);
  }

  lemma KeyOnValid(s: Slot, ksv: nat, drum: bool)
    requires ValidSlot(s)
    ensures ValidSlot(KeyOn(s, ksv, drum))
  {
    hide UpdateRate;
    var attack := UpdateRate(s.eg.(gen := Attack), s.regs, ksv);
    UpdateRateValid(s.eg.(gen := Attack), s.regs, ksv);
    UpdateRateValid(attack.(gen := Decay), s.regs, ksv);
  }

  lemma KeyOffValid(s: Slot, ksv: nat, drum: bool)
    requires ValidSlot(s)
    ensures ValidSlot(KeyOff(s, ksv, drum))
  {
    hide UpdateRate;
    UpdateRateValid(s.eg.(gen := Release), s.regs, ksv);
  }

  // ------------------------------------------------------------------
  // A released operator falls silent
  // ------------------------------------------------------------------

  const TIMER_RANGE := 0x10000

  /** The envelope after one sample for each value of the tremolo, from this value of the 16-bit timer on. */
  ghost function Samples(e: Envelope, r: Registers, ksv: nat, timer: nat, tremolo: seq<nat>): Envelope
    requires r.ksl < 4 && e.rate <= 0x3c
    decreases |tremolo|
  {
    if tremolo == [] then e
    else
      RateStays(e, r, ksv, timer, tremolo[0]);
      Samples(EnvelopeCalc(e, r, ksv, timer, tremolo[0]), r, ksv, (timer + 1) % TIMER_RANGE, tremolo[1..])
  }

  lemma RateStays(e: Envelope, r: Registers, ksv: nat, timer: nat, tremolo: nat)
    requires r.ksl < 4 && e.rate <= 0x3c
    ensures EnvelopeCalc(e, r, ksv, timer, tremolo).rate <= 0x3c
  {
    hide CalcRate, Increment, KslShifted;
  }

  /** One sample more. */
  lemma {:induction false} SamplesAppend(e: Envelope, r: Registers, ksv: nat, timer: nat, tremolo: seq<nat>, next: nat)
    requires r.ksl < 4 && e.rate <= 0x3c && timer < TIMER_RANGE
    ensures Samples(e, r, ksv, timer, tremolo).rate <= 0x3c
    ensures Samples(e, r, ksv, timer, tremolo + [next]) ==
      EnvelopeCalc(Samples(e, r, ksv, timer, tremolo), r, ksv, (timer + |tremolo|) % TIMER_RANGE, next)
    decreases |tremolo|
  {
    hide EnvelopeCalc;
    RateStays(e, r, ksv, timer, (tremolo + [next])[0]);
    if tremolo == [] {
      assert tremolo + [next] == [next] && [next][1..] == [];
    } else {
      assert (tremolo + [next])[1..] == tremolo[1..] + [next];
      SamplesAppend(EnvelopeCalc(e, r, ksv, timer, tremolo[0]), r, ksv, (timer + 1) % TIMER_RANGE, tremolo[1..], next);
      TimerSum(timer, |tremolo| - 1);
    }
  }

  lemma TimerSum(timer: nat, n: nat)
    requires timer < TIMER_RANGE
    ensures ((timer + 1) % TIMER_RANGE + n) % TIMER_RANGE == (timer + 1 + n) % TIMER_RANGE
  {}

  /** Half the period of the increments at this rate, in samples. */
  function HalfPeriod(rate: nat): nat
    requires rate <= 0x3c
  {
    var sh := IncShift(rate / 4);
    Pow2(if sh > 0 then sh else 0)
  }

  /** Samples until the timer is half a period past a multiple of the period. */
  function ToTick(rate: nat, timer: nat): nat
    requires rate <= 0x3c
  {
    var p := HalfPeriod(rate);
    var x := timer % (2 * p);
    if x <= p then p - x else 3 * p - x
  }

  /** Half a period past a multiple of the period is an odd multiple of the half period. */
  lemma OddMultiple(t: nat, p: nat)
    requires p > 0 && t % (2 * p) == p
    ensures t % p == 0 && t / p % 2 == 1
  {
    var q := t / (2 * p);
    DivSplit(t, 2 * p);
    assert t == p * (2 * q + 1);
    DivModUnique(t, p, 2 * q + 1, 0);
  }

  /** At such a time the level rises. */
  lemma TickRises(rate: nat, timer: nat)
    requires 4 <= rate <= 0x3c && ToTick(rate, timer) == 0
    ensures Increment(rate, timer) >= 1
  {
    hide IncStep, Pow2;
    var sh := IncShift(rate / 4);
    OddMultiple(timer, HalfPeriod(rate));
    if sh <= 0 {
      FastRises(rate, timer);
    }
  }

  /** The fast rates do not wait. */
  lemma FastRises(rate: nat, timer: nat)
    requires 4 <= rate <= 0x3c && IncShift(rate / 4) <= 0 && ToTick(rate, timer) == 0
    ensures Increment(rate, timer) >= 1
  {
    hide IncStep;
  }

  /**
    The next sample is one sample nearer to the tick, or a whole period away; the wrap of the timer does not matter.
   */
  lemma TickNears(rate: nat, timer: nat)
    requires rate <= 0x3c && timer < TIMER_RANGE
    ensures ToTick(rate, (timer + 1) % TIMER_RANGE) ==
      if ToTick(rate, timer) == 0 then 2 * HalfPeriod(rate) - 1 else ToTick(rate, timer) - 1
  {
    var m := 2 * HalfPeriod(rate);
    ModNext(timer, m);
    if timer == TIMER_RANGE - 1 {
      PeriodDivides(rate);
    }
    hide Pow2;
  }

  lemma ModNext(t: nat, m: nat)
    requires m >= 2
    ensures (t + 1) % m == if t % m + 1 == m then 0 else t % m + 1
  {
    DivSplit(t, m);
    var q := t / m;
    if t % m + 1 == m {
      assert t + 1 == m * (q + 1);
      DivModUnique(t + 1, m, q + 1, 0);
    } else {
      DivModUnique(t + 1, m, q, t % m + 1);
    }
  }

  /** The period is a power of two that divides the range of the timer. */
  lemma PeriodDivides(rate: nat)
    requires rate <= 0x3c
    ensures (TIMER_RANGE - 1) % (2 * HalfPeriod(rate)) == 2 * HalfPeriod(rate) - 1
  {
    var p := HalfPeriod(rate);
    assert p == 1 || p == 2 || p == 4 || p == 8 || p == 16 || p == 32 || p == 64 || p == 128 || p == 256 || p == 512
        || p == 1024 || p == 2048;
  }

  /** The samples that surely suffice for an operator in release at this level. */
  function SilentAfter(rate: nat, rout: nat, timer: nat): nat
    requires rate <= 0x3c && rout <= 0x202
  {
    if rout >= 0x1ff then 1 else ToTick(rate, timer) + 1 + (0x1fe - rout) * (2 * HalfPeriod(rate)) + 1
  }

  /** After a release step less remains to be done. */
  lemma SilentAfterStep(rate: nat, rout: nat, timer: nat)
    requires 4 <= rate <= 0x3c && rout < 0x1ff && timer < TIMER_RANGE
    ensures var next := rout + Increment(rate, timer);
      next <= 0x202 && SilentAfter(rate, next, (timer + 1) % TIMER_RANGE) < SilentAfter(rate, rout, timer)
  {
    hide Increment, ToTick, HalfPeriod;
    var inc := Increment(rate, timer);
    var next := rout + inc;
    var period := 2 * HalfPeriod(rate);
    TickNears(rate, timer);
    if ToTick(rate, timer) == 0 {
      TickRises(rate, timer);
    }
    if next < 0x1ff {
      MulMonotone(0x1fe - next, 0x1fe - rout, period);
      if inc >= 1 {
        MulMonotone(0x1fe - next + 1, 0x1fe - rout, period);
      }
    }
  }

  lemma {:induction false} OffStays(e: Envelope, r: Registers, ksv: nat, timer: nat, tremolo: seq<nat>)
    requires r.ksl < 4 && e.rate <= 0x3c && e.gen == Off && e.rout == 0x1ff
    ensures Samples(e, r, ksv, timer, tremolo).gen == Off && Samples(e, r, ksv, timer, tremolo).rout == 0x1ff
    decreases |tremolo|
  {
    hide Increment, KslShifted;
    if tremolo != [] {
      RateStays(e, r, ksv, timer, tremolo[0]);
      OffStays(EnvelopeCalc(e, r, ksv, timer, tremolo[0]), r, ksv, (timer + 1) % TIMER_RANGE, tremolo[1..]);
    }
  }

  /** One sample of an operator that is still audible. */
  lemma ReleaseSample(e: Envelope, r: Registers, ksv: nat, timer: nat, tremolo: nat)
    requires r.ksl < 4 && e.rate <= 0x3c && e.gen == Release
    ensures var next := EnvelopeCalc(e, r, ksv, timer, tremolo);
      if e.rout >= 0x1ff then next.gen == Off && next.rout == 0x1ff && next.rate <= 0x3c
      else next.gen == Release && next.rate == e.rate && next.rout == e.rout + Increment(e.rate, timer)
  {
    hide Increment, KslShifted, CalcRate;
  }

  /**
    An operator in release with a nonzero release rate, left alone, is off after a number of
    samples that its rate and level give, from any value of the timer.
   */
  lemma {:induction false} ReleaseEnds(e: Envelope, r: Registers, ksv: nat, timer: nat, tremolo: seq<nat>)
    requires ValidEnvelope(e, r) && r.ksl < 4 && r.rr > 0 && e.gen == Release && timer < TIMER_RANGE
    requires |tremolo| >= SilentAfter(e.rate, e.rout, timer)
    ensures Samples(e, r, ksv, timer, tremolo).gen == Off && Samples(e, r, ksv, timer, tremolo).rout == 0x1ff
  {
    RateReleaseEnds(e, r, ksv, timer, tremolo);
  }

  lemma {:induction false} RateReleaseEnds(e: Envelope, r: Registers, ksv: nat, timer: nat, tremolo: seq<nat>)
    requires 4 <= e.rate <= 0x3c && 0 <= e.rout <= 0x202 && r.ksl < 4 && e.gen == Release && timer < TIMER_RANGE
    requires |tremolo| >= SilentAfter(e.rate, e.rout, timer)
    ensures Samples(e, r, ksv, timer, tremolo).gen == Off && Samples(e, r, ksv, timer, tremolo).rout == 0x1ff
    decreases |tremolo|
  {
    hide EnvelopeCalc, SilentAfter;
    SilentAfterPositive(e.rate, e.rout, timer);
    ReleaseSample(e, r, ksv, timer, tremolo[0]);
    var next := EnvelopeCalc(e, r, ksv, timer, tremolo[0]);
    if e.rout >= 0x1ff {
      OffStays(next, r, ksv, (timer + 1) % TIMER_RANGE, tremolo[1..]);
    } else {
      SilentAfterStep(e.rate, e.rout, timer);
      RateReleaseEnds(next, r, ksv, (timer + 1) % TIMER_RANGE, tremolo[1..]);
    }
  }

  lemma SilentAfterPositive(rate: nat, rout: nat, timer: nat)
    requires rate <= 0x3c && rout <= 0x202
    ensures SilentAfter(rate, rout, timer) > 0
  {
    hide HalfPeriod, ToTick;
    if rout < 0x1ff {
      MulMonotone(0, 0x1fe - rout, 2 * HalfPeriod(rate));
    }
  }

  // ------------------------------------------------------------------
  // A keyed operator is heard
  // ------------------------------------------------------------------

  /** The samples that surely suffice for an operator in attack at this level to be at its loudest and decay. */
  function LoudAfter(rate: nat, rout: nat, timer: nat): nat
    requires rate <= 0x3c
  {
    if rout == 0 then 1 else ToTick(rate, timer) + 1 + (rout - 1) * (2 * HalfPeriod(rate)) + 1
  }

  /** ... and for one in decay to reach the level at which it is sustained. */
  function SustainedAfter(rate: nat, rout: nat, goal: nat, timer: nat): nat
    requires rate <= 0x3c
  {
    if rout >= goal then 1 else ToTick(rate, timer) + 1 + (goal - rout - 1) * (2 * HalfPeriod(rate)) + 1
  }

  /** A step of the attack takes that many eighths off the level and one more, rounded up, but not beyond zero. */
  lemma AttackStep(e: Envelope, r: Registers, ksv: nat, timer: nat, tremolo: nat)
    requires r.ksl < 4 && e.rate <= 0x3c && e.gen == Attack && e.rout >= 0
    ensures var next, inc := EnvelopeCalc(e, r, ksv, timer, tremolo), Increment(e.rate, timer);
      if e.rout == 0 then next.gen == Decay && next.rout == 0 && next.rate == CalcRate(r, ksv, r.dr)
      else
        && next.gen == Attack && next.rate == e.rate && 0 <= next.rout <= e.rout
        && (inc == 0 ==> next.rout == e.rout)
        && (inc > 0 ==> next.rout < e.rout)
        && 8 * (e.rout - next.rout) < (e.rout + 1) * inc + 8
        && (next.rout > 0 ==> (e.rout + 1) * inc <= 8 * (e.rout - next.rout))
  {
    hide Increment, KslShifted, CalcRate;
    if e.rout > 0 {
      Eighths(e.rout, Increment(e.rate, timer));
    }
  }

  lemma Eighths(rout: int, inc: int)
    requires rout > 0 && 0 <= inc <= 4
    ensures var step := (-rout - 1) * inc / 8;
      8 * step <= -((rout + 1) * inc) < 8 * step + 8 && -1 <= rout + step <= rout && (inc > 0 ==> step < 0)
  {
    if inc == 0 {} else if inc == 1 {} else if inc == 2 {} else if inc == 3 {} else {}
  }

  /** A step of the decay. */
  lemma DecayStep(e: Envelope, r: Registers, ksv: nat, timer: nat, tremolo: nat)
    requires r.ksl < 4 && e.rate <= 0x3c && e.gen == Decay && e.rout >= 0
    ensures var next := EnvelopeCalc(e, r, ksv, timer, tremolo);
      if e.rout >= r.sl * 16 then next.gen == Sustain && next.rout == e.rout && next.rate == CalcRate(r, ksv, r.rr)
      else next.gen == Decay && next.rate == e.rate && next.rout == e.rout + Increment(e.rate, timer)
  {
    hide Increment, KslShifted, CalcRate;
  }

  /** The attack comes nearer to its end with each sample. */
  lemma LoudNears(rate: nat, rout: nat, next: nat, timer: nat)
    requires 4 <= rate <= 0x3c && 0 < rout && next <= rout && timer < TIMER_RANGE
    requires Increment(rate, timer) > 0 ==> next < rout
    ensures LoudAfter(rate, next, (timer + 1) % TIMER_RANGE) < LoudAfter(rate, rout, timer)
  {
    hide Increment, ToTick, HalfPeriod;
    var period := 2 * HalfPeriod(rate);
    TickNears(rate, timer);
    if ToTick(rate, timer) == 0 {
      TickRises(rate, timer);
    }
    if next > 0 {
      MulMonotone(next - 1, rout - 1, period);
      if next < rout {
        MulMonotone(next - 1 + 1, rout - 1, period);
      }
    } else {
      MulMonotone(0, rout - 1, period);
    }
  }

  lemma SustainedNears(rate: nat, rout: nat, goal: nat, timer: nat)
    requires 4 <= rate <= 0x3c && rout < goal && timer < TIMER_RANGE
    ensures SustainedAfter(rate, rout + Increment(rate, timer), goal, (timer + 1) % TIMER_RANGE) <
      SustainedAfter(rate, rout, goal, timer)
  {
    hide Increment, ToTick, HalfPeriod;
    var inc := Increment(rate, timer);
    var next := rout + inc;
    var period := 2 * HalfPeriod(rate);
    TickNears(rate, timer);
    if ToTick(rate, timer) == 0 {
      TickRises(rate, timer);
    }
    if next < goal {
      MulMonotone(goal - next - 1, goal - rout - 1, period);
      if inc >= 1 {
        MulMonotone(goal - next - 1 + 1, goal - rout - 1, period);
      }
    } else {
      MulMonotone(0, goal - rout - 1, period);
    }
  }

  /** A rate of zero is none. */
  lemma NoRate(timer: nat)
    ensures Increment(0, timer) == 0
  {}

  /** One sample of some. */
  lemma FirstSample(e: Envelope, r: Registers, ksv: nat, timer: nat, tremolo: seq<nat>, n: nat)
    requires r.ksl < 4 && e.rate <= 0x3c && n < |tremolo|
    ensures var next := EnvelopeCalc(e, r, ksv, timer, tremolo[0]);
      && next.rate <= 0x3c
      && Samples(e, r, ksv, timer, tremolo[..n + 1]) ==
        Samples(next, r, ksv, (timer + 1) % TIMER_RANGE, tremolo[1..][..n])
  {
    hide EnvelopeCalc;
    RateStays(e, r, ksv, timer, tremolo[0]);
    assert tremolo[..n + 1][1..] == tremolo[1..][..n];
  }

  /**
    An operator in attack, left alone, becomes louder until it is at its loudest and begins to decay, after a number
    of samples that its rate and level give; without an attack rate it stays as it is for ever.
   */
  lemma {:induction false} AttackEnds(e: Envelope, r: Registers, ksv: nat, timer: nat, tremolo: seq<nat>)
    returns (n: nat)
    requires 4 <= e.rate <= 0x3c && e.rout >= 0 && r.ksl < 4 && e.gen == Attack && timer < TIMER_RANGE
    requires |tremolo| >= LoudAfter(e.rate, e.rout, timer)
    ensures 0 < n <= LoudAfter(e.rate, e.rout, timer) && n <= |tremolo|
    ensures var loud := Samples(e, r, ksv, timer, tremolo[..n]);
      loud.gen == Decay && loud.rout == 0 && loud.rate == CalcRate(r, ksv, r.dr)
    decreases |tremolo|
  {
    hide EnvelopeCalc, LoudAfter, CalcRate, Increment;
    LoudPositive(e.rate, e.rout, timer);
    AttackStep(e, r, ksv, timer, tremolo[0]);
    var next := EnvelopeCalc(e, r, ksv, timer, tremolo[0]);
    if e.rout == 0 {
      n := 1;
      FirstSample(e, r, ksv, timer, tremolo, 0);
    } else {
      LoudNears(e.rate, e.rout, next.rout, timer);
      var m := AttackEnds(next, r, ksv, (timer + 1) % TIMER_RANGE, tremolo[1..]);
      n := m + 1;
      FirstSample(e, r, ksv, timer, tremolo, m);
    }
  }

  lemma {:induction false} AttackNever(e: Envelope, r: Registers, ksv: nat, timer: nat, tremolo: seq<nat>)
    requires e.rate == 0 && e.rout > 0 && r.ksl < 4 && e.gen == Attack
    ensures var after := Samples(e, r, ksv, timer, tremolo); after.gen == Attack && after.rout == e.rout
    decreases |tremolo|
  {
    hide EnvelopeCalc, CalcRate;
    if tremolo != [] {
      NoRate(timer);
      AttackStep(e, r, ksv, timer, tremolo[0]);
      RateStays(e, r, ksv, timer, tremolo[0]);
      AttackNever(EnvelopeCalc(e, r, ksv, timer, tremolo[0]), r, ksv, (timer + 1) % TIMER_RANGE, tremolo[1..]);
    }
  }

  /** From there it becomes quieter down to its sustain level, which it passes by three steps at most. */
  lemma {:induction false} DecayEnds(e: Envelope, r: Registers, ksv: nat, timer: nat, tremolo: seq<nat>)
    returns (n: nat)
    requires 4 <= e.rate <= 0x3c && e.rout >= 0 && r.ksl < 4 && e.gen == Decay && timer < TIMER_RANGE
    requires |tremolo| >= SustainedAfter(e.rate, e.rout, r.sl * 16, timer)
    ensures 0 < n <= SustainedAfter(e.rate, e.rout, r.sl * 16, timer) && n <= |tremolo|
    ensures var held := Samples(e, r, ksv, timer, tremolo[..n]);
      && held.gen == Sustain && held.rate == CalcRate(r, ksv, r.rr)
      && if e.rout >= r.sl * 16 then held.rout == e.rout else r.sl * 16 <= held.rout <= r.sl * 16 + 3
    decreases |tremolo|
  {
    hide EnvelopeCalc, SustainedAfter, CalcRate, Increment;
    SustainedPositive(e.rate, e.rout, r.sl * 16, timer);
    DecayStep(e, r, ksv, timer, tremolo[0]);
    var next := EnvelopeCalc(e, r, ksv, timer, tremolo[0]);
    if e.rout >= r.sl * 16 {
      n := 1;
      FirstSample(e, r, ksv, timer, tremolo, 0);
    } else {
      SustainedNears(e.rate, e.rout, r.sl * 16, timer);
      SmallStep(e.rate, timer);
      var m := DecayEnds(next, r, ksv, (timer + 1) % TIMER_RANGE, tremolo[1..]);
      n := m + 1;
      FirstSample(e, r, ksv, timer, tremolo, m);
    }
  }

  lemma SmallStep(rate: nat, timer: nat)
    requires rate <= 0x3c
    ensures Increment(rate, timer) <= 4
  {}

  lemma LoudPositive(rate: nat, rout: nat, timer: nat)
    requires rate <= 0x3c
    ensures LoudAfter(rate, rout, timer) > 0
  {
    hide ToTick, HalfPeriod;
    if rout > 0 {
      MulMonotone(0, rout - 1, 2 * HalfPeriod(rate));
    }
  }

  lemma SustainedPositive(rate: nat, rout: nat, goal: nat, timer: nat)
    requires rate <= 0x3c
    ensures SustainedAfter(rate, rout, goal, timer) > 0
  {
    hide ToTick, HalfPeriod;
    if rout < goal {
      MulMonotone(0, goal - rout - 1, 2 * HalfPeriod(rate));
    }
  }

  /** A sustained sound holds its level as long as the key is down; the other kind falls as in release. */
  lemma {:induction false} SustainHolds(e: Envelope, r: Registers, ksv: nat, timer: nat, tremolo: seq<nat>)
    requires e.rate <= 0x3c && r.ksl < 4 && e.gen == Sustain && r.typ
    ensures var after := Samples(e, r, ksv, timer, tremolo); after.gen == Sustain && after.rout == e.rout
    decreases |tremolo|
  {
    hide Increment, KslShifted, CalcRate;
    if tremolo != [] {
      RateStays(e, r, ksv, timer, tremolo[0]);
      SustainHolds(EnvelopeCalc(e, r, ksv, timer, tremolo[0]), r, ksv, (timer + 1) % TIMER_RANGE, tremolo[1..]);
    }
  }

  lemma {:induction false} SustainFalls(e: Envelope, r: Registers, ksv: nat, timer: nat, tremolo: seq<nat>)
    requires 4 <= e.rate <= 0x3c && 0 <= e.rout <= 0x202 && r.ksl < 4 && e.gen == Sustain && !r.typ
    requires timer < TIMER_RANGE && |tremolo| >= SilentAfter(e.rate, e.rout, timer)
    ensures Samples(e, r, ksv, timer, tremolo).gen == Off && Samples(e, r, ksv, timer, tremolo).rout == 0x1ff
    decreases |tremolo|
  {
    hide EnvelopeCalc, SilentAfter, Increment;
    SilentAfterPositive(e.rate, e.rout, timer);
    SustainSample(e, r, ksv, timer, tremolo[0]);
    var next := EnvelopeCalc(e, r, ksv, timer, tremolo[0]);
    if e.rout >= 0x1ff {
      OffStays(next, r, ksv, (timer + 1) % TIMER_RANGE, tremolo[1..]);
    } else {
      SilentAfterStep(e.rate, e.rout, timer);
      SustainFalls(next, r, ksv, (timer + 1) % TIMER_RANGE, tremolo[1..]);
    }
  }

  lemma SustainSample(e: Envelope, r: Registers, ksv: nat, timer: nat, tremolo: nat)
    requires r.ksl < 4 && e.rate <= 0x3c && e.gen == Sustain && !r.typ
    ensures var next := EnvelopeCalc(e, r, ksv, timer, tremolo);
      if e.rout >= 0x1ff then next.gen == Off && next.rout == 0x1ff && next.rate <= 0x3c
      else next.gen == Sustain && next.rate == e.rate && next.rout == e.rout + Increment(e.rate, timer)
  {
    hide Increment, KslShifted, CalcRate;
  }
}
