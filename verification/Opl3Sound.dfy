/**
  opl/opl3.c: what the tables of waveforms and levels sound like: how loud, which shape, which pitch.
 */
module Opl3Sound {
  import opened Arithmetic
  import opened Opl3Slot
  import opened Opl3Wiring
  import C = Opl3Chip

  // ------------------------------------------------------------------
  // Loudness
  // ------------------------------------------------------------------

  lemma ShiftMonotone(x: nat, y: nat, n: nat)
    requires x <= y
    ensures ShiftRight(x, n) <= ShiftRight(y, n)
  {}

  lemma RowsRise0(h: nat, k: nat)
    requires h < 4 && k < 15
    ensures ExpRom0(h)[k] < ExpRom0(h)[k + 1]
  {}

  lemma RowsRise1(h: nat, k: nat)
    requires h < 4 && k < 15
    ensures ExpRom1(h)[k] < ExpRom1(h)[k + 1]
  {}

  lemma RowsRise2(h: nat, k: nat)
    requires h < 4 && k < 15
    ensures ExpRom2(h)[k] < ExpRom2(h)[k + 1]
  {}

  lemma RowsRise3(h: nat, k: nat)
    requires h < 4 && k < 15
    ensures ExpRom3(h)[k] < ExpRom3(h)[k + 1]
  {}

  lemma RowsJoin(h: nat)
    requires h < 15
    ensures ExpRomRow(h)[15] < ExpRomRow(h + 1)[0]
  {}

  lemma ExpRomRises(i: nat)
    requires i < 0xff
    ensures ExpRom(i) < ExpRom(i + 1)
  {
    hide ExpRom0, ExpRom1, ExpRom2, ExpRom3;
    var h, k := i / 16, i % 16;
    if k == 15 {
      hide ExpRomRow;
      assert (i + 1) / 16 == h + 1 && (i + 1) % 16 == 0;
      RowsJoin(h);
    } else {
      assert (i + 1) / 16 == h && (i + 1) % 16 == k + 1;
      if h < 4 { RowsRise0(h, k); } else if h < 8 { RowsRise1(h - 4, k); }
        else if h < 12 { RowsRise2(h - 8, k); } else { RowsRise3(h - 12, k); }
    }
  }

  /** One step more of attenuation is never louder. */
  lemma CalcExpFalls(level: nat)
    ensures CalcExp(level + 1) <= CalcExp(level)
  {
    hide ExpRom;
    if level < 0x1fff {
      var i, n := 0xff - level % 0x100, level / 0x100;
      if i > 0 {
        assert (level + 1) / 0x100 == n && (level + 1) % 0x100 == level % 0x100 + 1;
        ExpRomRises(i - 1);
        ShiftMonotone(2 * (ExpRom(i - 1) + 0x400), 2 * (ExpRom(i) + 0x400), n);
      } else {
        assert (level + 1) / 0x100 == n + 1 && (level + 1) % 0x100 == 0;
        ExpRomBound(0xff);
        ShiftHalf(2 * (ExpRom(0xff) + 0x400), n);
        ShiftMonotone((2 * (ExpRom(0xff) + 0x400)) / 2, 2 * (ExpRom(0) + 0x400), n);
      }
    }
  }

  lemma {:induction false} ShiftHalf(x: nat, n: nat)
    ensures ShiftRight(x, n + 1) == ShiftRight(x / 2, n)
  {
    if n > 0 {
      ShiftHalf(x, n - 1);
    }
  }

  lemma {:induction false} CalcExpMonotone(a: nat, b: nat)
    requires a <= b
    ensures CalcExp(b) <= CalcExp(a)
    decreases b - a
  {
    hide CalcExp;
    if a < b {
      CalcExpMonotone(a, b - 1);
      CalcExpFalls(b - 1);
    }
  }

  /** Every 0x100 of attenuation halves the output. */
  lemma CalcExpHalves(level: nat)
    requires level + 0x100 <= 0x1fff
    ensures CalcExp(level + 0x100) == CalcExp(level) / 2
  {
    hide ExpRom;
    assert (level + 0x100) % 0x100 == level % 0x100 && (level + 0x100) / 0x100 == level / 0x100 + 1;
  }

  /** Nothing is heard from an attenuation of 0xc00 on, and something below. */
  lemma CalcExpSilent(level: nat)
    ensures CalcExp(level) == 0 <==> level >= 0xc00
    ensures CalcExp(0) == 4084
  {
    assert CalcExp(0xc00) == 0 && CalcExp(0xbff) > 0 && CalcExp(0) == 4084 by { Edges(); }
    if level >= 0xc00 {
      CalcExpMonotone(0xc00, level);
    } else {
      CalcExpMonotone(level, 0xbff);
    }
  }

  lemma Edges()
    ensures CalcExp(0xc00) == 0 && CalcExp(0xbff) == 1 && CalcExp(0) == 4084
  {
    assert ExpRom(0xff) == 0x3fa && ExpRom(0) == 0;
    hide ExpRom;
    assert 0xbff / 0x100 == 11 && 0xbff % 0x100 == 0xff && 0xc00 / 0x100 == 12 && 0xc00 % 0x100 == 0;
    assert ShiftRight(4084, 12) == 0 by { Shifted12(); }
    assert ShiftRight(2048, 11) == 1 by { Shifted12(); }
  }

  lemma Shifted12()
    ensures ShiftRight(4084, 12) == 0 && ShiftRight(2048, 11) == 1
  {
    assert ShiftRight(4084, 4) == 255;
    assert ShiftRight(4084, 8) == 15;
    assert ShiftRight(4084, 12) == 0;
    assert ShiftRight(2048, 4) == 128;
    assert ShiftRight(2048, 8) == 8;
    assert ShiftRight(2048, 11) == 1;
  }

  // ------------------------------------------------------------------
  // Shapes
  // ------------------------------------------------------------------

  lemma LogSinRowFalls(h: nat, k: nat)
    requires h < 16 && k < 15
    ensures LogSinRomRow(h)[k] >= LogSinRomRow(h)[k + 1]
  {
    hide LogSinRomRow;
    if h < 4 { RowsFall0(h, k); } else if h < 8 { RowsFall1(h, k); }
      else if h < 12 { RowsFall2(h, k); } else { RowsFall3(h, k); }
  }

  lemma RowsFall0(h: nat, k: nat)
    requires h < 4 && k < 15
    ensures LogSinRomRow(h)[k] >= LogSinRomRow(h)[k + 1]
  {}

  lemma RowsFall1(h: nat, k: nat)
    requires 4 <= h < 8 && k < 15
    ensures LogSinRomRow(h)[k] >= LogSinRomRow(h)[k + 1]
  {}

  lemma RowsFall2(h: nat, k: nat)
    requires 8 <= h < 12 && k < 15
    ensures LogSinRomRow(h)[k] >= LogSinRomRow(h)[k + 1]
  {}

  lemma RowsFall3(h: nat, k: nat)
    requires 12 <= h < 16 && k < 15
    ensures LogSinRomRow(h)[k] >= LogSinRomRow(h)[k + 1]
  {}

  lemma LogSinRowsJoin(h: nat)
    requires h < 15
    ensures LogSinRomRow(h)[15] >= LogSinRomRow(h + 1)[0]
  {}

  lemma LogSinFalls(i: nat)
    requires i < 0xff
    ensures LogSinRom(i) >= LogSinRom(i + 1)
  {
    hide LogSinRomRow;
    var h, k := i / 16, i % 16;
    if k == 15 {
      assert (i + 1) / 16 == h + 1 && (i + 1) % 16 == 0;
      LogSinRowsJoin(h);
    } else {
      assert (i + 1) / 16 == h && (i + 1) % 16 == k + 1;
      LogSinRowFalls(h, k);
    }
  }

  /** The bits that the waveforms look at. */
  lemma PhaseBits(p: nat)
    requires p < 0x400
    ensures Bit(p, 9) == (p >= 0x200) && Bit(p, 8) == (p % 0x200 >= 0x100) && Bit(p, 7) == (p % 0x100 >= 0x80)
  {}

  /** A sample lasts for one turn of the phase. */
  lemma CalcSinPeriodic(wf: nat, p: nat, env: nat)
    requires wf < 8
    ensures CalcSin(wf, p + 0x400, env) == CalcSin(wf, p, env)
  {
    hide Wave;
    assert (p + 0x400) % 0x400 == p % 0x400;
  }

  /** Waveform 0 in its first half. */
  lemma Quarter(p: nat, env: nat)
    requires p < 0x200
    ensures CalcSin(0, p, env) == CalcExp(LogSinRom(if p < 0x100 then p else 0x1ff - p) + env * 8)
  {
    hide CalcExp, LogSinRom, Bit;
    PhaseBits(p);
    assert p % 0x400 == p;
    if p >= 0x100 {
      assert p % 0x100 == p - 0x100;
    }
  }

  /** Waveform 0 is odd and its halves are symmetric; it rises in its first quarter, up to the greatest sample. */
  lemma SineShape(p: nat, env: nat)
    requires p < 0x200
    ensures CalcSin(0, 0x1ff - p, env) == CalcSin(0, p, env)
    ensures CalcSin(0, p + 0x200, env) == -CalcSin(0, p, env) - 1
    ensures p < 0xff ==> CalcSin(0, p, env) <= CalcSin(0, p + 1, env)
    ensures CalcSin(0, 0xff, 0) == 4084
  {
    hide CalcExp, LogSinRom, Bit;
    Quarter(p, env);
    Quarter(0x1ff - p, env);
    SecondHalf(p, env);
    if p < 0xff {
      Quarter(p + 1, env);
      LogSinFalls(p);
      CalcExpMonotone(LogSinRom(p + 1) + env * 8, LogSinRom(p) + env * 8);
    }
    Quarter(0xff, 0);
    assert LogSinRom(0xff) == 0 by { LastOfTable(); }
    CalcExpSilent(0);
  }

  lemma LastOfTable()
    ensures LogSinRom(0xff) == 0
  {
    assert 0xff / 16 == 15 && 0xff % 16 == 15;
  }

  lemma SecondHalf(p: nat, env: nat)
    requires p < 0x200
    ensures CalcSin(0, p + 0x200, env) == -CalcSin(0, p, env) - 1
  {
    hide CalcExp, LogSinRom, Bit;
    PhaseBits(p);
    PhaseBits(p + 0x200);
    assert p % 0x400 == p && (p + 0x200) % 0x400 == p + 0x200;
    assert (p + 0x200) % 0x100 == p % 0x100 && (p + 0x200) % 0x200 == p % 0x200;
  }

  /** Half as loud for each 32 steps of the envelope. */
  lemma SineHalves(p: nat, env: nat)
    requires p < 0x200 && LogSinRom(if p < 0x100 then p else 0x1ff - p) + env * 8 + 0x100 <= 0x1fff
    ensures CalcSin(0, p, env + 32) == CalcSin(0, p, env) / 2
  {
    hide CalcExp, LogSinRom;
    Quarter(p, env);
    Quarter(p, env + 32);
    CalcExpHalves(LogSinRom(if p < 0x100 then p else 0x1ff - p) + env * 8);
  }

  /** The phase of waveform 0 that waveforms 4 and 5 run through twice as fast. */
  function Doubled(p: nat): nat { if p % 0x100 < 0x80 then 2 * p else 2 * p + 1 }

  /**
    The other waveforms are cut from the first: its positive half, both halves positive, its rising quarters, the
    wave at double speed and that one with both halves positive, in half of the time.
   */
  lemma WaveformsFromSine(p: nat, env: nat)
    requires p < 0x200
    ensures CalcSin(1, p, env) == CalcSin(0, p, env) && CalcSin(1, p + 0x200, env) == 0
    ensures CalcSin(2, p, env) == CalcSin(0, p, env) && CalcSin(2, p + 0x200, env) == CalcSin(0, p, env)
    ensures CalcSin(3, p, env) == CalcSin(3, p + 0x200, env) == if p < 0x100 then CalcSin(0, p, env) else 0
    ensures CalcSin(4, p, env) == CalcSin(0, Doubled(p), env) && CalcSin(4, p + 0x200, env) == 0
    ensures CalcSin(5, p, env) == CalcSin(0, Doubled(p) % 0x200, env) && CalcSin(5, p + 0x200, env) == 0
  {
    CutWaves(p, env);
    DoubledWaves(p, env);
  }

  lemma CutWaves(p: nat, env: nat)
    requires p < 0x200
    ensures CalcSin(1, p, env) == CalcSin(0, p, env) && CalcSin(1, p + 0x200, env) == 0
    ensures CalcSin(2, p, env) == CalcSin(0, p, env) && CalcSin(2, p + 0x200, env) == CalcSin(0, p, env)
    ensures CalcSin(3, p, env) == CalcSin(3, p + 0x200, env) == if p < 0x100 then CalcSin(0, p, env) else 0
  {
    hide CalcExp, LogSinRom, Bit;
    PhaseBits(p);
    PhaseBits(p + 0x200);
    assert p % 0x400 == p && (p + 0x200) % 0x400 == p + 0x200;
    assert (p + 0x200) % 0x100 == p % 0x100 && (p + 0x200) % 0x200 == p % 0x200 == p;
    assert p < 0x100 ==> p % 0x100 == p;
    CalcExpSilent(0x1000 + env * 8);
  }

  lemma DoubledWaves(p: nat, env: nat)
    requires p < 0x200
    ensures CalcSin(4, p, env) == CalcSin(0, Doubled(p), env) && CalcSin(4, p + 0x200, env) == 0
    ensures CalcSin(5, p, env) == CalcSin(0, Doubled(p) % 0x200, env) && CalcSin(5, p + 0x200, env) == 0
  {
    hide CalcSin, Bit, CalcExp, LogSinRom;
    DoubledSecond(p, env);
    DoubledFirst(p, env);
    DoubledIndex(p);
    var q := Doubled(p);
    Quarter(q % 0x200, env);
    if q >= 0x200 {
      SecondHalf(q - 0x200, env);
    }
  }

  /** The entry of the table that waveforms 4 and 5 use. */
  function DoubledEntry(p: nat): nat
    requires p < 0x200
  {
    var up := p % 0x100;
    LogSinRom(if up < 0x80 then 2 * up else 0x1fe - 2 * up)
  }

  lemma DoubledIndex(p: nat)
    requires p < 0x200
    ensures var q := Doubled(p) % 0x200; DoubledEntry(p) == LogSinRom(if q < 0x100 then q else 0x1ff - q)
    ensures Doubled(p) < 0x400 && (Doubled(p) >= 0x200 <==> p >= 0x100)
  {
    hide LogSinRom;
    var up := p % 0x100;
    if up < 0x80 {
      assert Doubled(p) % 0x200 == 2 * up;
    } else {
      assert Doubled(p) % 0x200 == 2 * up + 1;
    }
  }

  lemma DoubledFirst(p: nat, env: nat)
    requires p < 0x200
    ensures CalcSin(4, p, env) == NegateIf(p >= 0x100, CalcExp(DoubledEntry(p) + env * 8))
    ensures CalcSin(5, p, env) == CalcExp(DoubledEntry(p) + env * 8)
  {
    hide CalcExp, LogSinRom, Bit;
    PhaseBits(p);
    assert p % 0x400 == p && p % 0x200 == p;
    var up := p % 0x100;
    assert up < 0x80 ==> up * 2 % 0x100 == 2 * up;
    assert up >= 0x80 ==> (0xff - up) * 2 % 0x100 == 0x1fe - 2 * up;
  }

  lemma DoubledSecond(p: nat, env: nat)
    requires p < 0x200
    ensures CalcSin(4, p + 0x200, env) == 0 && CalcSin(5, p + 0x200, env) == 0
  {
    hide CalcExp, LogSinRom, Bit;
    PhaseBits(p + 0x200);
    assert (p + 0x200) % 0x400 == p + 0x200;
    CalcExpSilent(0x1000 + env * 8);
  }

  /** Waveform 6 is a square, and waveform 7 falls evenly, in decibels, away from the start and the end of its turn. */
  lemma SquareAndSaw(p: nat, env: nat)
    requires p < 0x200
    ensures CalcSin(6, p, env) == CalcExp(env * 8) && CalcSin(6, p + 0x200, env) == -CalcExp(env * 8) - 1
    ensures CalcSin(7, p, env) == CalcExp(p * 8 + env * 8) && CalcSin(7, 0x3ff - p, env) == -CalcSin(7, p, env) - 1
    ensures p >= 32 ==> p * 8 + env * 8 <= 0x1fff ==> CalcSin(7, p, env) == CalcSin(7, p - 32, env) / 2
  {
    hide CalcSin, CalcExp;
    Square(p, env);
    Saw(p, env);
    if p >= 32 && p * 8 + env * 8 <= 0x1fff {
      Saw(p - 32, env);
      CalcExpHalves((p - 32) * 8 + env * 8);
    }
  }

  lemma Square(p: nat, env: nat)
    requires p < 0x200
    ensures CalcSin(6, p, env) == CalcExp(env * 8) && CalcSin(6, p + 0x200, env) == -CalcExp(env * 8) - 1
  {
    hide CalcExp, LogSinRom, Bit;
    PhaseBits(p);
    PhaseBits(p + 0x200);
    assert p % 0x400 == p && (p + 0x200) % 0x400 == p + 0x200;
  }

  lemma Saw(p: nat, env: nat)
    requires p < 0x200
    ensures CalcSin(7, p, env) == CalcExp(p * 8 + env * 8) && CalcSin(7, 0x3ff - p, env) == -CalcSin(7, p, env) - 1
  {
    hide CalcExp, CalcSin;
    SawFirst(p, env);
    SawSecond(0x3ff - p, env);
  }

  lemma SawFirst(p: nat, env: nat)
    requires p < 0x200
    ensures CalcSin(7, p, env) == CalcExp(p * 8 + env * 8)
  {
    hide CalcExp, LogSinRom, Bit;
    PhaseBits(p);
    assert p % 0x400 == p;
  }

  lemma SawSecond(q: nat, env: nat)
    requires 0x200 <= q < 0x400
    ensures CalcSin(7, q, env) == -CalcExp((0x3ff - q) * 8 + env * 8) - 1
  {
    hide CalcExp, LogSinRom, Bit;
    PhaseBits(q);
    assert q % 0x400 == q && q % 0x200 == q - 0x200;
  }

  // ------------------------------------------------------------------
  // Pitch
  // ------------------------------------------------------------------

  /** How far a sample moves the phase, without vibrato. */
  function Advance(p: Pitch, mult: nat): nat
    requires ValidPitch(p) && mult <= 15
  {
    p.fNum * Pow2(p.block) / 2 * C.Multiple(mult) / 2
  }

  /** The phase moves by that, modulo 2^32; an octave up it moves twice as far, but for what rounding loses. */
  lemma Octave(s: Slot, p: Pitch, vibpos: nat, vibshift: nat)
    requires ValidPitch(p) && vibshift <= 1 && s.regs.mult <= 15 && (!s.regs.vib || vibpos == 0)
    ensures C.PhaseGenerate(s, p, vibpos, vibshift) ==
      s.(pgPhase := (s.pgPhase + Advance(p, s.regs.mult)) % 0x1_0000_0000)
    ensures 0 < p.block < 7 ==>
      0 <= Advance(p.(block := p.block + 1), s.regs.mult) - 2 * Advance(p, s.regs.mult) <= 1
  {
    if 0 < p.block < 7 {
      var half := Pow2(p.block - 1);
      assert Pow2(p.block) == 2 * half && Pow2(p.block + 1) == 4 * half;
      HalfOfProduct(p.fNum, half);
      HalfOfProduct(p.fNum, 2 * half);
      TwiceAsFar(p.fNum * half, C.Multiple(s.regs.mult));
    }
  }

  lemma HalfOfProduct(x: nat, y: nat)
    ensures x * (2 * y) / 2 == x * y
  {}

  lemma TwiceAsFar(x: nat, m: nat)
    ensures 0 <= x * 2 * m / 2 - 2 * (x * m / 2) <= 1
  {
    assert x * 2 * m == 2 * (x * m);
  }

  /** The multiples that the manual of the chip lists, doubled: a half, then 1 to 10, 10, 12, 12, 15 and 15. */
  lemma Multiples(mult: nat)
    requires mult <= 15
    ensures C.Multiple(mult) ==
      if mult == 0 then 1 else if mult <= 10 then 2 * mult else if mult == 11 then 20 else if mult <= 13 then 24 else 30
  {}

  /** What vibrato adds in one half of its eight positions it takes off in the other. */
  lemma VibratoBalances(fNum: nat, vibpos: nat, vibshift: nat)
    requires vibshift <= 1 && vibpos < 4
    ensures C.VibratoFNum(true, fNum, vibpos, vibshift) + C.VibratoFNum(true, fNum, vibpos + 4, vibshift) == 2 * fNum
    ensures C.VibratoFNum(false, fNum, vibpos, vibshift) == C.VibratoFNum(true, fNum, 0, vibshift) == fNum
  {
    hide Pow2;
  }

  /** At its most it adds one part in 128, and half of that in between or when it is set to be weak. */
  lemma VibratoDepth(fNum: nat)
    ensures C.VibratoFNum(true, fNum, 2, 0) == fNum + fNum / 128
    ensures C.VibratoFNum(true, fNum, 1, 0) == C.VibratoFNum(true, fNum, 3, 0) == fNum + fNum / 256
    ensures C.VibratoFNum(true, fNum, 2, 1) == fNum + fNum / 256
  {
    var q := fNum / 256;
    DivModUnique(fNum / 128, 2, q, fNum / 128 - 2 * q);
  }

  /** The numbers of a channel's pitch are those written to its registers. */
  lemma PitchReadsBack(nts: bool, was: Pitch, fNum: nat, block: nat, key: nat)
    requires ValidPitch(was) && fNum <= 0x3ff && block <= 7 && key <= 1
    ensures var high := BlockPitch(nts, was, key * 32 + block * 4 + fNum / 256);
      var both := LowPitch(nts, high, fNum % 256);
      both == Pitch(fNum, block, block * 2 + if nts then fNum / 256 % 2 else fNum / 512)
    ensures LowPitch(nts, was, fNum % 256).block == was.block
  {
    var data := key * 32 + block * 4 + fNum / 256;
    DivModUnique(data, 4, key * 8 + block, fNum / 256);
    assert data / 4 % 8 == block;
    var high := BlockPitch(nts, was, data);
    assert high.fNum / 256 == fNum / 256;
  }

  // ------------------------------------------------------------------
  // Drums
  // ------------------------------------------------------------------

  /**
    Hi-hat and cymbal play in the second half of their turn while a bit of the phases is set, the snare while the top
    but one bit of operator 13 is; the noise shakes hi-hat and snare within the half, and not the cymbal.
   */
  lemma DrumPhasesAre(p13: nat, before17: nat, p17: nat, noise: bool)
    ensures var d := C.DrumsOf(p13, before17, p17, noise);
      && d.DrumPhases?
      && d.hh % 0x200 in {0x34, 0xd0} && (d.hh >= 0x200 <==> C.PhaseBit(p13, before17)) && d.hh < 0x400
      && d.sd % 0x200 in {0, 0x100} && (d.sd >= 0x200 <==> Bit(p13, 8)) && d.sd < 0x400
      && d.tc % 0x200 == 0x100 && (d.tc >= 0x200 <==> C.PhaseBit(p13, p17)) && d.tc < 0x400
    ensures var d, other := C.DrumsOf(p13, before17, p17, noise), C.DrumsOf(p13, before17, p17, !noise);
      d.hh % 0x200 != other.hh % 0x200 && d.sd % 0x200 != other.sd % 0x200 && d.tc == other.tc
  {
    hide C.PhaseBit, Bit;
  }

  // ------------------------------------------------------------------
  // Rates and levels
  // ------------------------------------------------------------------

  /** A rate goes up by one for each step of the key scale, or each four, and by four for each step of its register. */
  lemma RateSteps(r: Registers, ksv: nat, reg: nat)
    requires 0 < reg <= 15 && ksv <= 15
    ensures CalcRate(r, ksv, 0) == 0 && (CalcRate(r, ksv, reg) == 0x3c || CalcRate(r, ksv, reg) < 0x3c)
    ensures CalcRate(r, 0, reg) == 4 * reg
    ensures CalcRate(r, ksv + if r.ksr then 1 else 4, reg) == if CalcRate(r, ksv, reg) == 0x3c then 0x3c
      else CalcRate(r, ksv, reg) + 1
    ensures reg < 15 ==> CalcRate(r, ksv, reg + 1) == if CalcRate(r, ksv, reg) > 0x38 then 0x3c
      else CalcRate(r, ksv, reg) + 4
  {}

  /** High notes are attenuated: by 32 more for each block, and by the table for their frequency. */
  lemma KeyScaleLevel(e: Envelope, p: Pitch)
    requires ValidPitch(p)
    ensures UpdateKsl(e, p) == e.(ksl := UpdateKsl(e, p).ksl)
    ensures p.block < 7 ==>
      UpdateKsl(e, p.(block := p.block + 1)).ksl - UpdateKsl(e, p).ksl ==
        if UpdateKsl(e, p).ksl > 0 then 32 else UpdateKsl(e, p.(block := p.block + 1)).ksl
    ensures p.block == 7 && p.fNum >= 64 ==> UpdateKsl(e, p).ksl == 4 * KslRom(p.fNum / 64) - 32
    ensures p.block == 7 && p.fNum < 64 ==> UpdateKsl(e, p).ksl == 0
    ensures p.fNum + 64 <= 0x3ff ==> UpdateKsl(e, p).ksl <= UpdateKsl(e, p.(fNum := p.fNum + 64)).ksl
  {
    KslTable(p.fNum / 64);
    hide KslRom;
    if p.fNum + 64 <= 0x3ff {
      assert (p.fNum + 64) / 64 == p.fNum / 64 + 1;
    }
  }

  lemma KslTable(i: nat)
    requires i < 16
    ensures KslRom(0) == 0 && (i > 0 ==> KslRom(i) >= 32) && (i < 15 ==> KslRom(i) < KslRom(i + 1))
  {}

  /** The register says how much of that counts: nothing, a half, a quarter, or all. */
  lemma KslShare(ksl: nat)
    requires ksl < 256
    ensures KslShifted(ksl, 0) == 0 && KslShifted(ksl, 1) == ksl / 2
    ensures KslShifted(ksl, 2) == ksl / 4 && KslShifted(ksl, 3) == ksl
  {}

  // ------------------------------------------------------------------
  // Feedback and mixing
  // ------------------------------------------------------------------

  /** The feedback is the sum of the last two outputs, halved twice, and once more for each step below seven. */
  lemma FeedbackIs(s: Slot, fb: nat)
    requires fb <= 7
    ensures C.CalcFb(s, fb).prout == s.out && (fb == 0 ==> C.CalcFb(s, fb).fbmod == 0)
    ensures fb > 0 ==>
      var x := C.CalcFb(s, fb).fbmod; Pow2(9 - fb) * x <= s.prout + s.out < Pow2(9 - fb) * (x + 1)
  {
    if fb == 7 {} else if fb == 6 {} else if fb == 5 {} else if fb == 4 {} else if fb == 3 {} else if fb == 2 {} else {}
  }

  /** A side that no channel is on is silent. */
  lemma {:induction false} MixSilent(slot: seq<Slot>, channel: seq<Channel>, right: bool, n: nat)
    requires ValidWiring(slot, channel) && n <= CHANNELS && |channel| == CHANNELS
    requires forall c | 0 <= c < n :: !(if right then channel[c].chb else channel[c].cha)
    ensures C.Mix(slot, channel, right, n) == 0
  {
    hide ValidWiring;
    if n > 0 {
      MixSilent(slot, channel, right, n - 1);
    }
  }

  /** A channel that is put on a side adds its outputs to it, and changes nothing else there. */
  lemma {:induction false} MixAdds(slot: seq<Slot>, channel: seq<Channel>, with: seq<Channel>, right: bool, c: nat,
    n: nat)
    requires ValidWiring(slot, channel) && ValidWiring(slot, with) && c < n <= CHANNELS
    requires |slot| == SLOTS && |channel| == |with| == CHANNELS
    requires ValidChannel(c, channel[c])
    requires if right then !channel[c].chb && with == channel[c := channel[c].(chb := true)]
      else !channel[c].cha && with == channel[c := channel[c].(cha := true)]
    ensures C.Mix(slot, with, right, n) == C.Mix(slot, channel, right, n) + C.ChannelSum(slot, channel[c].out)
    decreases n
  {
    hide ValidWiring, C.ChannelSum;
    if n - 1 == c {
      MixSame(slot, channel, with, right, c, c);
    } else {
      MixAdds(slot, channel, with, right, c, n - 1);
    }
  }

  lemma {:induction false} MixSame(slot: seq<Slot>, channel: seq<Channel>, with: seq<Channel>, right: bool, c: nat,
    n: nat)
    requires ValidWiring(slot, channel) && ValidWiring(slot, with) && n <= c < CHANNELS
    requires |channel| == |with| == CHANNELS && forall k | 0 <= k < c :: with[k] == channel[k]
    ensures C.Mix(slot, with, right, n) == C.Mix(slot, channel, right, n)
  {
    hide ValidWiring, C.ChannelSum;
    if n > 0 {
      MixSame(slot, channel, with, right, c, n - 1);
    }
  }

  // ------------------------------------------------------------------
  // Registers
  // ------------------------------------------------------------------

  function BitAt(b: bool, n: nat): nat
    requires n <= 12
  {
    if b then Pow2(n) else 0
  }

  /** What is written to the registers of an operator can be read from its fields, and nothing else changes. */
  lemma FieldsReadBack(s: Slot, ksv: nat, p: Pitch, newm: bool, r: Registers)
    requires ValidPitch(p) && ValidRegisters(r)
    ensures SlotWrite20(s, ksv, BitAt(r.tremolo, 7) + BitAt(r.vib, 6) + BitAt(r.typ, 5) + BitAt(r.ksr, 4) + r.mult).regs
      == s.regs.(tremolo := r.tremolo, vib := r.vib, typ := r.typ, ksr := r.ksr, mult := r.mult)
    ensures SlotWrite40(s, p, r.ksl * 64 + r.tl).regs == s.regs.(ksl := r.ksl, tl := r.tl)
    ensures SlotWrite60(s, ksv, r.ar * 16 + r.dr).regs == s.regs.(ar := r.ar, dr := r.dr)
    ensures r.sl < 15 ==> SlotWrite80(s, ksv, r.sl * 16 + r.rr).regs == s.regs.(sl := r.sl, rr := r.rr)
    ensures SlotWrite80(s, ksv, 0xf0 + r.rr).regs == s.regs.(sl := 31, rr := r.rr)
    ensures SlotWriteE0(s, newm, r.wf).regs == s.regs.(wf := if newm then r.wf else r.wf % 4)
  {
    FirstFieldsReadBack(s, ksv, r);
    OtherFieldsReadBack(s, ksv, p, newm, r);
  }

  lemma FirstFieldsReadBack(s: Slot, ksv: nat, r: Registers)
    requires ValidRegisters(r)
    ensures SlotWrite20(s, ksv, BitAt(r.tremolo, 7) + BitAt(r.vib, 6) + BitAt(r.typ, 5) + BitAt(r.ksr, 4) + r.mult).regs
      == s.regs.(tremolo := r.tremolo, vib := r.vib, typ := r.typ, ksr := r.ksr, mult := r.mult)
  {
    hide UpdateRate, BitAt, Bit;
    BitsReadBack(r.tremolo, r.vib, r.typ, r.ksr, r.mult);
  }

  lemma OtherFieldsReadBack(s: Slot, ksv: nat, p: Pitch, newm: bool, r: Registers)
    requires ValidPitch(p) && ValidRegisters(r)
    ensures SlotWrite40(s, p, r.ksl * 64 + r.tl).regs == s.regs.(ksl := r.ksl, tl := r.tl)
    ensures SlotWrite60(s, ksv, r.ar * 16 + r.dr).regs == s.regs.(ar := r.ar, dr := r.dr)
    ensures r.sl < 15 ==> SlotWrite80(s, ksv, r.sl * 16 + r.rr).regs == s.regs.(sl := r.sl, rr := r.rr)
    ensures SlotWrite80(s, ksv, 0xf0 + r.rr).regs == s.regs.(sl := 31, rr := r.rr)
    ensures SlotWriteE0(s, newm, r.wf).regs == s.regs.(wf := if newm then r.wf else r.wf % 4)
  {
    hide UpdateRate, UpdateKsl;
    Digits(r.ksl, 64, r.tl);
    Digits(r.ar, 16, r.dr);
    Digits(r.sl, 16, r.rr);
    Digits(15, 16, r.rr);
  }

  lemma Digits(high: nat, base: nat, low: nat)
    requires low < base
    ensures (high * base + low) / base == high && (high * base + low) % base == low
  {
    DivModUnique(high * base + low, base, high, low);
  }

  lemma BitsReadBack(a: bool, b: bool, c: bool, d: bool, m: nat)
    requires m <= 15
    ensures var data := BitAt(a, 7) + BitAt(b, 6) + BitAt(c, 5) + BitAt(d, 4) + m;
      Bit(data, 7) == a && Bit(data, 6) == b && Bit(data, 5) == c && Bit(data, 4) == d && data % 16 == m
  {
    var x, y, z, w := if a then 1 else 0, if b then 1 else 0, if c then 1 else 0, if d then 1 else 0;
    var data := BitAt(a, 7) + BitAt(b, 6) + BitAt(c, 5) + BitAt(d, 4) + m;
    assert data == 128 * x + 64 * y + 32 * z + 16 * w + m;
    hide BitAt;
    DivModUnique(data, 128, x, 64 * y + 32 * z + 16 * w + m);
    DivModUnique(data, 64, 2 * x + y, 32 * z + 16 * w + m);
    DivModUnique(data, 32, 4 * x + 2 * y + z, 16 * w + m);
    DivModUnique(data, 16, 8 * x + 4 * y + 2 * z + w, m);
  }
}
