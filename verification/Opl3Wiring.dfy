/**
  opl/opl3.c: how operators and channels are wired. A pointer of the chip is kept as the index
  of the operator it points into.
 */
module Opl3Wiring {
  import opened Arithmetic
  import opened Opl3Slot

  // ------------------------------------------------------------------
  // Wiring of operators and channels
  // ------------------------------------------------------------------

  const SLOTS := 36
  const CHANNELS := 18

  /** ch_slot: the first operator of a channel; the second one is three further on. */
  function ChSlot(c: nat): nat
    requires c < CHANNELS
    ensures ChSlot(c) + 3 < SLOTS
  {
    c / 3 * 6 + c % 3
  }

  /** The channel of an operator. */
  function ChannelOf(s: nat): nat
    requires s < SLOTS
    ensures ChannelOf(s) < CHANNELS
    ensures s == ChSlot(ChannelOf(s)) || s == ChSlot(ChannelOf(s)) + 3
  {
    s / 6 * 3 + s % 3
  }

  predicate HasPair(c: nat) { c % 9 < 6 }

  function Pair(c: nat): nat
    requires c < CHANNELS && HasPair(c)
    ensures Pair(c) < CHANNELS && HasPair(Pair(c)) && Pair(c) != c
  {
    if c % 9 < 3 then c + 3 else c - 3
  }

  /** ad_slot: the operator that a register address selects, if any. */
  function AdSlot(address: nat): int
    requires address < 0x20
    ensures -1 <= AdSlot(address) < 18
  {
    if address % 8 < 6 && address < 0x18 then address / 8 * 6 + address % 8 else -1
  }

  // ------------------------------------------------------------------
  // Register addresses
  // ------------------------------------------------------------------

  /** The registers of operators, from 0x20, 0x40, 0x60, 0x80 and 0xe0 on. */
  datatype Family = Flags | Level | AttackDecay | SustainRelease | Waveform

  /** The registers of channels, from 0xa0, 0xb0 and 0xc0 on. */
  datatype ChannelFamily = FrequencyLow | Block | Feedback

  datatype Target =
    OperatorReg(family: Family, n: nat) | ChannelReg(which: ChannelFamily, c: nat)
    | FourOpReg | NewModeReg | NoteSelectReg | RhythmReg | NoReg

  /** The switch of OPL3_WriteReg. */
  function Decode(reg: nat): (t: Target)
    requires reg < 0x200
    ensures t.OperatorReg? ==> t.n < SLOTS
    ensures t.ChannelReg? ==> t.c < CHANNELS
  {
    var high, regm := reg / 0x100, reg % 0x100;
    match regm / 0x10
    case 0x0 =>
      if high == 1 then (if regm == 0x04 then FourOpReg else if regm == 0x05 then NewModeReg else NoReg)
      else if regm == 0x08 then NoteSelectReg
      else NoReg
    case 0x2 | 0x3 => OperatorTarget(Flags, high, regm % 0x20)
    case 0x4 | 0x5 => OperatorTarget(Level, high, regm % 0x20)
    case 0x6 | 0x7 => OperatorTarget(AttackDecay, high, regm % 0x20)
    case 0x8 | 0x9 => OperatorTarget(SustainRelease, high, regm % 0x20)
    case 0xe | 0xf => OperatorTarget(Waveform, high, regm % 0x20)
    case 0xa => ChannelTarget(FrequencyLow, high, regm % 0x10)
    case 0xb => if regm == 0xbd && high == 0 then RhythmReg else ChannelTarget(Block, high, regm % 0x10)
    case 0xc => ChannelTarget(Feedback, high, regm % 0x10)
    case _ => NoReg
  }

  function OperatorTarget(family: Family, high: nat, address: nat): (t: Target)
    requires high < 2 && address < 0x20
    ensures t.OperatorReg? ==> t.n < SLOTS
    ensures !t.ChannelReg?
  {
    if AdSlot(address) >= 0 then OperatorReg(family, 18 * high + AdSlot(address)) else NoReg
  }

  function ChannelTarget(family: ChannelFamily, high: nat, address: nat): (t: Target)
    requires high < 2
    ensures t.ChannelReg? ==> t.c < CHANNELS
    ensures !t.OperatorReg?
  {
    if address < 9 then ChannelReg(family, 9 * high + address) else NoReg
  }

  function Base(family: Family): nat {
    match family
    case Flags => 0x20
    case Level => 0x40
    case AttackDecay => 0x60
    case SustainRelease => 0x80
    case Waveform => 0xe0
  }

  function ChannelBase(family: ChannelFamily): nat {
    match family
    case FrequencyLow => 0xa0
    case Block => 0xb0
    case Feedback => 0xc0
  }

  /** Every register of every operator has exactly one address. */
  lemma OperatorAddressUnique(family: Family, n: nat, reg: nat)
    requires n < SLOTS && reg < 0x200
    ensures Decode(reg) == OperatorReg(family, n) <==>
      reg == n / 18 * 0x100 + Base(family) + n % 18 / 6 * 8 + n % 18 % 6
  {
    hide Decode, AdSlot;
    DecodeOperator(family, n, reg);
    AdSlotInverse(reg % 0x20, n % 18);
    OperatorDigits(n);
    Digits(reg, n / 18, Base(family) / 0x20, n % 18 / 6 * 8 + n % 18 % 6, 0x20);
  }

  lemma DecodeOperator(family: Family, n: nat, reg: nat)
    requires n < SLOTS && reg < 0x200
    ensures Decode(reg) == OperatorReg(family, n)
      <==> reg / 0x100 == n / 18 && reg % 0x100 / 0x20 == Base(family) / 0x20 && AdSlot(reg % 0x20) == n % 18
  {
    hide AdSlot, ChannelTarget;
    Halves(reg % 0x100);
    RestDigits(reg, 0x20);
  }

  lemma Halves(regm: nat)
    ensures regm / 0x20 == regm / 0x10 / 2
  {
    var h := regm / 0x10;
    DivSplit(regm, 0x10);
    DivModUnique(regm, 0x20, h / 2, h % 2 * 0x10 + regm % 0x10);
  }

  lemma AdSlotInverse(address: nat, k: nat)
    requires address < 0x20 && k < 18
    ensures AdSlot(address) == k <==> address == k / 6 * 8 + k % 6
  {}

  /** Every register of every channel has exactly one address. */
  lemma ChannelAddressUnique(family: ChannelFamily, c: nat, reg: nat)
    requires c < CHANNELS && reg < 0x200
    ensures Decode(reg) == ChannelReg(family, c) <==> reg == c / 9 * 0x100 + ChannelBase(family) + c % 9
  {
    hide Decode;
    DecodeChannel(family, c, reg);
    ChannelDigits(c);
    Digits(reg, c / 9, ChannelBase(family) / 0x10, c % 9, 0x10);
  }

  lemma DecodeChannel(family: ChannelFamily, c: nat, reg: nat)
    requires c < CHANNELS && reg < 0x200
    ensures Decode(reg) == ChannelReg(family, c)
      <==> reg / 0x100 == c / 9 && reg % 0x100 / 0x10 == ChannelBase(family) / 0x10 && reg % 0x10 == c % 9
  {
    hide OperatorTarget;
    assert reg % 0x100 % 0x10 == reg % 0x10;
  }

  lemma OperatorDigits(n: nat)
    requires n < SLOTS
    ensures n / 18 < 2 && n % 18 / 6 * 8 + n % 18 % 6 < 0x20
  {}

  lemma ChannelDigits(c: nat)
    requires c < CHANNELS
    ensures c / 9 < 2 && c % 9 < 0x10
  {}

  /** The parts of a register address. */
  lemma Digits(reg: nat, high: nat, mid: nat, low: nat, m: nat)
    requires m == 0x10 || m == 0x20
    requires reg < 0x200 && high < 2 && mid < 0x100 / m && low < m
    ensures reg == high * 0x100 + mid * m + low <==> reg / 0x100 == high && reg % 0x100 / m == mid && reg % m == low
  {
    var rest := reg % 0x100;
    DivSplit(reg, 0x100);
    DivSplit(rest, m);
    RestDigits(reg, m);
    if reg == high * 0x100 + mid * m + low {
      MidBound(mid, low, m);
      DivModUnique(reg, 0x100, high, mid * m + low);
      DivModUnique(rest, m, mid, low);
    }
  }

  lemma MidBound(mid: nat, low: nat, m: nat)
    requires m == 0x10 || m == 0x20
    requires mid < 0x100 / m && low < m
    ensures mid * m + low < 0x100
  {}

  lemma RestDigits(reg: nat, m: nat)
    requires m == 0x10 || m == 0x20
    ensures reg % 0x100 % m == reg % m
  {
    var h, rest := reg / 0x100, reg % 0x100;
    DivSplit(rest, m);
    DivModUnique(reg, m, h * (0x100 / m) + rest / m, rest % m);
  }

  datatype ChannelType = TwoOp | FourOp | FourOp2 | Drum

  /** opl3_channel; cha and chb say whether the masks let the channel through. */
  datatype Channel = Channel(out: seq<Source>, chtype: ChannelType, pitch: Pitch, fb: nat, con: nat, alg: nat,
    cha: bool, chb: bool)

  /** Operator n belongs to channel c or to its pair. */
  predicate OfChannelOrPair(c: nat, n: nat)
    requires c < CHANNELS
  {
    n < SLOTS && (ChannelOf(n) == c || (HasPair(c) && ChannelOf(n) == Pair(c)))
  }

  predicate ValidSource(c: nat, source: Source)
    requires c < CHANNELS
  {
    match source
    case ZeroMod => true
    case Out(n) => OfChannelOrPair(c, n)
    case FeedbackMod(n) => OfChannelOrPair(c, n)
  }

  /** The pointer of operator s: only its own feedback can modulate it. */
  predicate ValidMod(s: nat, source: Source)
    requires s < SLOTS
  {
    ValidSource(ChannelOf(s), source) && (source.FeedbackMod? ==> source.n == s)
  }

  ghost predicate ValidOut(c: nat, out: seq<Source>)
    requires c < CHANNELS
  {
    |out| == 4 && forall j | 0 <= j < 4 :: !out[j].FeedbackMod? && ValidSource(c, out[j])
  }

  /** Only paired channels have the four-operator types and algorithms; only channels 6 to 8 are drums. */
  ghost predicate ValidChannel(c: nat, ch: Channel)
    requires c < CHANNELS
  {
    && ValidOut(c, ch.out) && ValidPitch(ch.pitch) && ch.fb <= 7 && ch.con <= 1
    && (ch.alg <= 1 || (4 <= ch.alg <= 8 && HasPair(c)))
    && (ch.chtype == FourOp ==> c % 9 < 3)
    && (ch.chtype == FourOp2 ==> 3 <= c % 9 < 6)
    && (ch.chtype == Drum ==> 6 <= c <= 8)
  }

  ghost predicate ValidWiring(slot: seq<Slot>, channel: seq<Channel>) {
    && |slot| == SLOTS && |channel| == CHANNELS
    && (forall s | 0 <= s < SLOTS :: ValidSlot(slot[s]) && ValidMod(s, slot[s].mod))
    && (forall c | 0 <= c < CHANNELS :: ValidChannel(c, channel[c]))
  }

  // ------------------------------------------------------------------
  // Algorithms
  // ------------------------------------------------------------------

  /** The connections of one or two channels: mod of four operators, out of the two channels. */
  datatype Connection = Connection(mod0: Source, mod1: Source, out: seq<Source>)

  /** OPL3_ChannelSetupAlg for a channel alone, whose operators are s0 and s1. */
  function TwoOpConnection(con: nat, s0: nat, s1: nat): Connection {
    if con == 0 then Connection(FeedbackMod(s0), Out(s0), [Out(s1), ZeroMod, ZeroMod, ZeroMod])
    else Connection(FeedbackMod(s0), ZeroMod, [Out(s0), Out(s1), ZeroMod, ZeroMod])
  }

  /**
    For a pair: the operators p0 and p1 of the paired channel come before s0 and s1; the first result is the pair's.
   */
  function FourOpConnection(alg: nat, p0: nat, p1: nat, s0: nat, s1: nat): (Connection, Connection) {
    var silent := [ZeroMod, ZeroMod, ZeroMod, ZeroMod];
    if alg == 0 then
      (Connection(FeedbackMod(p0), Out(p0), silent),
       Connection(Out(p1), Out(s0), [Out(s1), ZeroMod, ZeroMod, ZeroMod]))
    else if alg == 1 then
      (Connection(FeedbackMod(p0), Out(p0), silent),
       Connection(ZeroMod, Out(s0), [Out(p1), Out(s1), ZeroMod, ZeroMod]))
    else if alg == 2 then
      (Connection(FeedbackMod(p0), ZeroMod, silent),
       Connection(Out(p1), Out(s0), [Out(p0), Out(s1), ZeroMod, ZeroMod]))
    else
      (Connection(FeedbackMod(p0), ZeroMod, silent),
       Connection(Out(p1), ZeroMod, [Out(p0), Out(s0), Out(s1), ZeroMod]))
  }

  /** How often operator n is heard directly or modulates another operator. */
  function Uses(n: nat, sources: seq<Source>): nat {
    if sources == [] then 0 else Uses(n, sources[1..]) + if sources[0] == Out(n) then 1 else 0
  }

  function Consumers(p: Connection, s: Connection): seq<Source> {
    [p.mod0, p.mod1, s.mod0, s.mod1] + p.out + s.out
  }

  /** In every algorithm each operator is used exactly once, and only by a later operator or the output. */
  lemma EveryOperatorUsedOnce(alg: nat, p0: nat, p1: nat, s0: nat, s1: nat)
    requires alg < 4
    requires p0 != p1 && p0 != s0 && p0 != s1 && p1 != s0 && p1 != s1 && s0 != s1
    ensures var (p, s) := FourOpConnection(alg, p0, p1, s0, s1);
      && Uses(p0, Consumers(p, s)) == 1 && Uses(p1, Consumers(p, s)) == 1
      && Uses(s0, Consumers(p, s)) == 1 && Uses(s1, Consumers(p, s)) == 1
      && p.mod0 == FeedbackMod(p0) && p.mod1 in {ZeroMod, Out(p0)} && s.mod0 in {ZeroMod, Out(p1)}
        && s.mod1 in {ZeroMod, Out(s0)}
  {
    var (p, s) := FourOpConnection(alg, p0, p1, s0, s1);
    forall n ensures Uses(n, Consumers(p, s)) == Uses12(n, p.mod0, p.mod1, s.mod0, s.mod1, p.out, s.out) {
      UsesUnrolled(n, p, s);
    }
  }

  function One(n: nat, source: Source): nat { if source == Out(n) then 1 else 0 }

  function Uses12(n: nat, a: Source, b: Source, c: Source, d: Source, p: seq<Source>, s: seq<Source>): nat
    requires |p| == |s| == 4
  {
    One(n, a) + One(n, b) + One(n, c) + One(n, d) + One(n, p[0]) + One(n, p[1]) + One(n, p[2]) + One(n, p[3]) +
    One(n, s[0]) + One(n, s[1]) + One(n, s[2]) + One(n, s[3])
  }

  lemma UsesNext(n: nat, sources: seq<Source>, k: nat)
    requires k < |sources|
    ensures Uses(n, sources[k..]) == One(n, sources[k]) + Uses(n, sources[k + 1..])
  {
    assert sources[k..][1..] == sources[k + 1..];
  }

  lemma UsesEnd(n: nat, sources: seq<Source>)
    ensures Uses(n, sources[|sources|..]) == 0
  {}

  lemma UsesUnrolled(n: nat, p: Connection, s: Connection)
    requires |p.out| == |s.out| == 4
    ensures Uses(n, Consumers(p, s)) == Uses12(n, p.mod0, p.mod1, s.mod0, s.mod1, p.out, s.out)
  {
    hide Uses, One;
    var all := Consumers(p, s);
    assert all[0..] == all;
    UsesEnd(n, all);
    UsesNext(n, all, 0);
    UsesNext(n, all, 1);
    UsesNext(n, all, 2);
    UsesNext(n, all, 3);
    UsesNext(n, all, 4);
    UsesNext(n, all, 5);
    UsesNext(n, all, 6);
    UsesNext(n, all, 7);
    UsesNext(n, all, 8);
    UsesNext(n, all, 9);
    UsesNext(n, all, 10);
    UsesNext(n, all, 11);
  }

  /** The channels differ in their types only. */
  ghost predicate SameButTypes(before: seq<Channel>, after: seq<Channel>) {
    |before| == |after| == CHANNELS && forall c | 0 <= c < CHANNELS :: after[c] == before[c].(chtype := after[c].chtype)
  }

  lemma SameTypesReflexive(channel: seq<Channel>)
    requires |channel| == CHANNELS
    ensures SameButTypes(channel, channel)
  {}

  /** The first channel of the pair that bit b of the four-operator register stands for. */
  function FourOpChannel(b: nat): (c: nat)
    requires b < 6
    ensures c % 9 < 3 && c + 3 < CHANNELS
  {
    if b < 3 then b else b + 6
  }

  ghost predicate PairTyped(channel: seq<Channel>, b: nat, on: bool) {
    && b < 6 && |channel| == CHANNELS
    && channel[FourOpChannel(b)].chtype == (if on then FourOp else TwoOp)
    && channel[FourOpChannel(b) + 3].chtype == (if on then FourOp2 else TwoOp)
  }

  function WithPair(channel: seq<Channel>, b: nat, on: bool): (r: seq<Channel>)
    requires b < 6 && |channel| == CHANNELS
    ensures |r| == CHANNELS
  {
    var c := FourOpChannel(b);
    channel[c := channel[c].(chtype := if on then FourOp else TwoOp)]
           [c + 3 := channel[c + 3].(chtype := if on then FourOp2 else TwoOp)]
  }

  lemma PairTypesStored(first: seq<Channel>, channel: seq<Channel>, b: nat, on: bool)
    requires b < 6 && SameButTypes(first, channel)
    ensures SameButTypes(first, WithPair(channel, b, on)) && PairTyped(WithPair(channel, b, on), b, on)
    ensures forall k, was: bool | 0 <= k < 6 && k != b && PairTyped(channel, k, was) ::
      PairTyped(WithPair(channel, b, on), k, was)
  {}

  /** OPL3_EnvelopeUpdateKSL and OPL3_EnvelopeUpdateRate after a change of pitch. */
  function Repitched(s: Slot, p: Pitch): Slot
    requires ValidPitch(p)
  {
    s.(eg := UpdateRate(UpdateKsl(s.eg, p), s.regs, p.ksv))
  }

  lemma RepitchedValid(s: Slot, p: Pitch)
    requires ValidSlot(s) && ValidPitch(p)
    ensures ValidSlot(Repitched(s, p)) && Repitched(s, p).mod == s.mod
  {
    hide UpdateKsl, UpdateRate;
    UpdateKslValid(s.eg, s.regs, p);
    UpdateRateValid(UpdateKsl(s.eg, p), s.regs, p.ksv);
  }

  function WithPitch(slot: seq<Slot>, c: nat, p: Pitch): (r: seq<Slot>)
    requires |slot| == SLOTS && c < CHANNELS && ValidPitch(p)
    ensures |r| == SLOTS
  {
    var s0 := ChSlot(c);
    slot[s0 := Repitched(slot[s0], p)][s0 + 3 := Repitched(slot[s0 + 3], p)]
  }

  /**
    A write of the frequency, which for a pair goes to both channels; a write of the low bits leaves the pair's block
    alone.
   */
  ghost function Retuned(newm: bool, slot: seq<Slot>, channel: seq<Channel>, c: nat, p: Pitch, keepBlock: bool):
    (r: (seq<Slot>, seq<Channel>))
    requires |slot| == SLOTS && |channel| == CHANNELS && c < CHANNELS
    requires ValidPitch(p) && (HasPair(c) ==> channel[Pair(c)].pitch.block <= 7)
    ensures |r.0| == SLOTS && |r.1| == CHANNELS
  {
    var ch := channel[c];
    if newm && ch.chtype == FourOp2 then (slot, channel)
    else if newm && ch.chtype == FourOp && HasPair(c) then
      var pair := channel[Pair(c)];
      var q := if keepBlock then p.(block := pair.pitch.block) else p;
      (WithPitch(WithPitch(slot, c, p), Pair(c), q), channel[c := ch.(pitch := p)][Pair(c) := pair.(pitch := q)])
    else (WithPitch(slot, c, p), channel[c := ch.(pitch := p)])
  }

  /** The key scale value of a frequency. */
  function KeyScale(nts: bool, fNum: nat, block: nat): nat {
    block * 2 + (if nts then fNum / 256 % 2 else fNum / 512 % 2)
  }

  /** The pitch with new low bits of the frequency. */
  function LowPitch(nts: bool, was: Pitch, data: nat): (p: Pitch)
    requires ValidPitch(was) && data <= 0xff
    ensures ValidPitch(p)
  {
    var fNum := was.fNum / 256 * 256 + data;
    Pitch(fNum, was.block, KeyScale(nts, fNum, was.block))
  }

  /** The pitch with a new block and new high bits of the frequency. */
  function BlockPitch(nts: bool, was: Pitch, data: nat): (p: Pitch)
    requires ValidPitch(was) && data <= 0xff
    ensures ValidPitch(p)
  {
    var fNum := data % 4 * 256 + was.fNum % 256;
    Pitch(fNum, data / 4 % 8, KeyScale(nts, fNum, data / 4 % 8))
  }

  /** OPL3_ChannelWriteA0 on values. */
  ghost function A0Written(newm: bool, nts: bool, slot: seq<Slot>, channel: seq<Channel>, c: nat, data: nat):
    (r: (seq<Slot>, seq<Channel>))
    requires ValidWiring(slot, channel) && c < CHANNELS && data <= 0xff
    ensures |r.0| == SLOTS && |r.1| == CHANNELS
  {
    ChannelAt(slot, channel, c);
    Retuned(newm, slot, channel, c, LowPitch(nts, channel[c].pitch, data), true)
  }

  /** OPL3_ChannelWriteB0 on values. */
  ghost function B0Written(newm: bool, nts: bool, slot: seq<Slot>, channel: seq<Channel>, c: nat, data: nat):
    (r: (seq<Slot>, seq<Channel>))
    requires ValidWiring(slot, channel) && c < CHANNELS && data <= 0xff
    ensures |r.0| == SLOTS && |r.1| == CHANNELS
  {
    ChannelAt(slot, channel, c);
    Retuned(newm, slot, channel, c, BlockPitch(nts, channel[c].pitch, data), false)
  }

  /** The registers of a write to C0: of a pair, one channel carries the algorithm of both. */
  function Stored(newm: bool, channel: seq<Channel>, c: nat, data: nat): (r: seq<Channel>)
    requires |channel| == CHANNELS && c < CHANNELS
    ensures |r| == CHANNELS
  {
    var ch := channel[c].(fb := data / 2 % 8, con := data % 2, alg := data % 2);
    if newm && ch.chtype == FourOp && HasPair(c) then
      var pair := channel[Pair(c)];
      channel[c := ch.(alg := 8)][Pair(c) := pair.(alg := 4 + 2 * (data % 2) + pair.con)]
    else if newm && ch.chtype == FourOp2 && HasPair(c) then
      var pair := channel[Pair(c)];
      channel[c := ch.(alg := 4 + 2 * pair.con + data % 2)][Pair(c) := pair.(alg := 8)]
    else channel[c := ch]
  }

  /** The channel whose algorithm a write to C0 sets up. */
  function Carrier(newm: bool, channel: seq<Channel>, c: nat): (r: nat)
    requires |channel| == CHANNELS && c < CHANNELS
    ensures r < CHANNELS
  {
    if newm && channel[c].chtype == FourOp && HasPair(c) then Pair(c) else c
  }

  /** OPL3_ChannelWriteC0 on values. */
  function C0Written(newm: bool, slot: seq<Slot>, channel: seq<Channel>, c: nat,
    data: nat): (r: (seq<Slot>, seq<Channel>))
    requires |slot| == SLOTS && |channel| == CHANNELS && c < CHANNELS
    ensures |r.0| == SLOTS && |r.1| == CHANNELS
  {
    var (slots, channels) := Rewired(slot, Stored(newm, channel, c, data), Carrier(newm, channel, c));
    (slots, channels[c := channels[c].(cha := newm ==> Bit(data, 4), chb := newm ==> Bit(data, 5))])
  }

  /** The channels that a key-on or key-off of channel c reaches. */
  function KeyedChannels(newm: bool, channel: seq<Channel>, c: nat): seq<nat>
    requires c < CHANNELS && |channel| == CHANNELS
  {
    if newm && channel[c].chtype == FourOp then (if HasPair(c) then [c, Pair(c)] else [c])
    else if newm && channel[c].chtype == FourOp2 then []
    else [c]
  }

  function KeyChanged(s: Slot, ksv: nat, on: bool, drum: bool): Slot {
    if on then KeyOn(s, ksv, drum) else KeyOff(s, ksv, drum)
  }

  /** OPL3_ChannelKeyOn and OPL3_ChannelKeyOff on values. */
  function KeysChanged(newm: bool, slot: seq<Slot>, channel: seq<Channel>, c: nat, on: bool): (r: seq<Slot>)
    requires |slot| == SLOTS && |channel| == CHANNELS && c < CHANNELS
    ensures |r| == SLOTS
  {
    seq(SLOTS, n requires 0 <= n < SLOTS =>
      if ChannelOf(n) in KeyedChannels(newm, channel, c)
        then KeyChanged(slot[n], channel[ChannelOf(n)].pitch.ksv, on, false)
      else slot[n])
  }

  /** A register of channel c on values; a write of the block also keys the channel. */
  ghost function ChannelWritten(family: ChannelFamily, newm: bool, nts: bool, slot: seq<Slot>, channel: seq<Channel>,
    c: nat, data: nat): (seq<Slot>, seq<Channel>)
    requires ValidWiring(slot, channel) && c < CHANNELS && data <= 0xff
  {
    match family
    case FrequencyLow => A0Written(newm, nts, slot, channel, c, data)
    case Block =>
      var (slots, channels) := B0Written(newm, nts, slot, channel, c, data);
      (KeysChanged(newm, slots, channels, c, Bit(data, 5)), channels)
    case Feedback => C0Written(newm, slot, channel, c, data)
  }

  lemma ChannelAt(slot: seq<Slot>, channel: seq<Channel>, c: nat)
    requires ValidWiring(slot, channel) && c < CHANNELS
    ensures |slot| == SLOTS && |channel| == CHANNELS && ValidChannel(c, channel[c])
    ensures HasPair(c) ==> ValidChannel(Pair(c), channel[Pair(c)])
  {}

  /** Channel k is neither c nor its pair. */
  predicate Elsewhere(c: nat, k: nat)
    requires c < CHANNELS
  {
    k != c && !(HasPair(c) && k == Pair(c))
  }

  /** A write to a channel stays within it and its pair. */
  lemma ChannelWrittenElsewhere(family: ChannelFamily, newm: bool, nts: bool, slot: seq<Slot>, channel: seq<Channel>,
    c: nat,
                                data: nat)
    requires ValidWiring(slot, channel) && c < CHANNELS && data <= 0xff
    ensures var (slots, channels) := ChannelWritten(family, newm, nts, slot, channel, c, data);
      && |slots| == SLOTS && |channels| == CHANNELS
      && (forall n | 0 <= n < SLOTS && Elsewhere(c, ChannelOf(n)) :: slots[n] == slot[n])
      && (forall k | 0 <= k < CHANNELS && Elsewhere(c, k) :: channels[k] == channel[k])
  {
    hide A0Written, B0Written, C0Written, KeysChanged, Bit, Elsewhere, ValidWiring;
    ChannelAt(slot, channel, c);
    FrequencyElsewhere(newm, nts, slot, channel, c, data);
    C0Elsewhere(newm, slot, channel, c, data);
    if family == Block {
      var (slots, channels) := B0Written(newm, nts, slot, channel, c, data);
      KeysElsewhere(newm, slots, channels, c, Bit(data, 5));
    }
  }

  lemma FrequencyElsewhere(newm: bool, nts: bool, slot: seq<Slot>, channel: seq<Channel>, c: nat, data: nat)
    requires ValidWiring(slot, channel) && c < CHANNELS && data <= 0xff
    ensures var (slots, channels) := A0Written(newm, nts, slot, channel, c, data);
      && (forall n | 0 <= n < SLOTS && Elsewhere(c, ChannelOf(n)) :: slots[n] == slot[n])
      && (forall k | 0 <= k < CHANNELS && Elsewhere(c, k) :: channels[k] == channel[k])
    ensures var (slots, channels) := B0Written(newm, nts, slot, channel, c, data);
      && (forall n | 0 <= n < SLOTS && Elsewhere(c, ChannelOf(n)) :: slots[n] == slot[n])
      && (forall k | 0 <= k < CHANNELS && Elsewhere(c, k) :: channels[k] == channel[k])
  {
    hide ValidOut, ValidPitch, Retuned, LowPitch, BlockPitch, Elsewhere, ValidWiring;
    ChannelAt(slot, channel, c);
    if HasPair(c) { PairBlock(slot, channel, c); }
    RetunedElsewhere(newm, slot, channel, c, LowPitch(nts, channel[c].pitch, data), true);
    RetunedElsewhere(newm, slot, channel, c, BlockPitch(nts, channel[c].pitch, data), false);
  }

  lemma PairBlock(slot: seq<Slot>, channel: seq<Channel>, c: nat)
    requires ValidWiring(slot, channel) && c < CHANNELS && HasPair(c)
    ensures channel[Pair(c)].pitch.block <= 7
  {
    ChannelAt(slot, channel, c);
  }

  lemma KeysElsewhere(newm: bool, slot: seq<Slot>, channel: seq<Channel>, c: nat, on: bool)
    requires |slot| == SLOTS && |channel| == CHANNELS && c < CHANNELS
    ensures forall n | 0 <= n < SLOTS && Elsewhere(c, ChannelOf(n)) ::
      KeysChanged(newm, slot, channel, c, on)[n] == slot[n]
  {
    hide KeyChanged, ChannelOf, Pair;
  }

  lemma RetunedElsewhere(newm: bool, slot: seq<Slot>, channel: seq<Channel>, c: nat, p: Pitch, keepBlock: bool)
    requires |slot| == SLOTS && |channel| == CHANNELS && c < CHANNELS
    requires ValidPitch(p) && (HasPair(c) ==> channel[Pair(c)].pitch.block <= 7)
    ensures var (slots, channels) := Retuned(newm, slot, channel, c, p, keepBlock);
      && (forall n | 0 <= n < SLOTS && Elsewhere(c, ChannelOf(n)) :: slots[n] == slot[n])
      && (forall k | 0 <= k < CHANNELS && Elsewhere(c, k) :: channels[k] == channel[k])
      && (forall k | 0 <= k < CHANNELS :: channels[k].chtype == channel[k].chtype)
  {
    hide Repitched, ChSlot, ChannelOf;
    SlotsOfChannel(c);
    if HasPair(c) {
      SlotsOfChannel(Pair(c));
    }
  }

  lemma C0Elsewhere(newm: bool, slot: seq<Slot>, channel: seq<Channel>, c: nat, data: nat)
    requires |slot| == SLOTS && |channel| == CHANNELS && c < CHANNELS
    ensures var (slots, channels) := C0Written(newm, slot, channel, c, data);
      && (forall n | 0 <= n < SLOTS && Elsewhere(c, ChannelOf(n)) :: slots[n] == slot[n])
      && (forall k | 0 <= k < CHANNELS && Elsewhere(c, k) :: channels[k] == channel[k])
  {
    hide Bit, Rewired;
    if HasPair(c) {
      PairOfPair(c);
    }
    RewiredElsewhere(slot, Stored(newm, channel, c, data), Carrier(newm, channel, c));
  }

  lemma RewiredElsewhere(slot: seq<Slot>, channel: seq<Channel>, c: nat)
    requires |slot| == SLOTS && |channel| == CHANNELS && c < CHANNELS
    ensures var (slots, channels) := Rewired(slot, channel, c);
      && (forall n | 0 <= n < SLOTS && Elsewhere(c, ChannelOf(n)) :: slots[n] == slot[n])
      && (forall k | 0 <= k < CHANNELS && Elsewhere(c, k) :: channels[k] == channel[k])
  {
    hide ChSlot, ChannelOf, TwoOpConnection, FourOpConnection;
    SlotsOfChannel(c);
    if HasPair(c) {
      SlotsOfChannel(Pair(c));
    }
  }

  /** Operator n hears of a key-on or key-off of channel c. */
  predicate Reached(newm: bool, channel: seq<Channel>, c: nat, n: nat)
    requires |channel| == CHANNELS && c < CHANNELS && n < SLOTS
  {
    if newm && channel[c].chtype == FourOp2 then false
    else ChannelOf(n) == c || (newm && channel[c].chtype == FourOp && HasPair(c) && ChannelOf(n) == Pair(c))
  }

  /**
    A key-on or key-off sets the key of the operators that it reaches and leaves all others as they are. A
    note begins with its phase at zero, and ends in release.
   */
  lemma KeysAreChanged(newm: bool, slot: seq<Slot>, channel: seq<Channel>, c: nat, on: bool, n: nat)
    requires |slot| == SLOTS && |channel| == CHANNELS && c < CHANNELS && n < SLOTS
    ensures var s, next := slot[n], KeysChanged(newm, slot, channel, c, on)[n];
      && (!Reached(newm, channel, c, n) ==> next == s)
      && (Reached(newm, channel, c, n) ==>
        && next == s.(keyNorm := on, eg := next.eg, pgPhase := next.pgPhase)
        && (on == (s.keyNorm || s.keyDrum) ==> next.eg == s.eg && next.pgPhase == s.pgPhase)
        && (on && !s.keyNorm && !s.keyDrum ==> next.pgPhase == 0 && next.eg.gen in {Attack, Decay})
        && (!on ==> next.pgPhase == s.pgPhase)
        && (!on && s.keyNorm && !s.keyDrum ==> next.eg.gen == Release))
  {
    hide KeyOn, KeyOff, ChannelOf, UpdateRate, Pair, HasPair;
    KeysStored(slot[n], channel[ChannelOf(n)].pitch.ksv, on);
  }

  lemma KeysStored(s: Slot, ksv: nat, on: bool)
    ensures var next := KeyChanged(s, ksv, on, false);
      && next == s.(keyNorm := on, eg := next.eg, pgPhase := next.pgPhase)
      && (on == (s.keyNorm || s.keyDrum) ==> next.eg == s.eg && next.pgPhase == s.pgPhase)
      && (on && !s.keyNorm && !s.keyDrum ==> next.pgPhase == 0 && next.eg.gen in {Attack, Decay})
      && (!on ==> next.pgPhase == s.pgPhase)
      && (!on && s.keyNorm && !s.keyDrum ==> next.eg.gen == Release)
  {
    hide CalcRate;
  }

  function WithMods(slot: seq<Slot>, c: nat, mod0: Source, mod1: Source): (r: seq<Slot>)
    requires |slot| == SLOTS && c < CHANNELS
    ensures |r| == SLOTS
  {
    var s0 := ChSlot(c);
    slot[s0 := slot[s0].(mod := mod0)][s0 + 3 := slot[s0 + 3].(mod := mod1)]
  }

  lemma WithModsValid(slot: seq<Slot>, channel: seq<Channel>, c: nat, mod0: Source, mod1: Source)
    requires ValidWiring(slot, channel) && c < CHANNELS && ValidMod(ChSlot(c), mod0) && ValidMod(ChSlot(c) + 3, mod1)
    ensures |slot| == SLOTS && ValidWiring(WithMods(slot, c, mod0, mod1), channel)
  {
    hide ValidMod, ValidChannel, ValidEnvelope, ValidRegisters, InRange, ChSlot;
  }

  /** What a change of algorithm makes of the pointers: nothing else of the operators and channels changes. */
  function Rewired(slot: seq<Slot>, channel: seq<Channel>, c: nat): (r: (seq<Slot>, seq<Channel>))
    requires |slot| == SLOTS && |channel| == CHANNELS && c < CHANNELS
    ensures |r.0| == SLOTS && |r.1| == CHANNELS
  {
    var ch, s0 := channel[c], ChSlot(c);
    var two := TwoOpConnection(ch.alg % 2, s0, s0 + 3);
    if ch.chtype == Drum then (WithMods(slot, c, two.mod0, two.mod1), channel)
    else if ch.alg >= 8 then (slot, channel)
    else if ch.alg >= 4 && HasPair(c) then RewiredPair(slot, channel, c, ch.alg % 4)
    else (WithMods(slot, c, two.mod0, two.mod1), channel[c := ch.(out := two.out)])
  }

  function RewiredPair(slot: seq<Slot>, channel: seq<Channel>, c: nat, alg: nat): (r: (seq<Slot>, seq<Channel>))
    requires |slot| == SLOTS && |channel| == CHANNELS && c < CHANNELS && HasPair(c) && alg < 4
    ensures |r.0| == SLOTS && |r.1| == CHANNELS
  {
    var p := Pair(c);
    var (pairConn, conn) := FourOpConnection(alg, ChSlot(p), ChSlot(p) + 3, ChSlot(c), ChSlot(c) + 3);
    (WithMods(WithMods(slot, p, pairConn.mod0, pairConn.mod1), c, conn.mod0, conn.mod1),
     channel[p := channel[p].(out := pairConn.out)][c := channel[c].(out := conn.out)])
  }

  /**
    The pointer of operator n after a write to the rhythm register: a channel given back, or channel 6, is connected
    anew.
   */
  function RhythmMod(slot: seq<Slot>, channel: seq<Channel>, n: nat, on: bool): Source
    requires |slot| == SLOTS && |channel| == CHANNELS && n < SLOTS
  {
    var c := ChannelOf(n);
    if !(6 <= c < 9) || (on && c != 6) then slot[n].mod
    else
      var conn := TwoOpConnection(channel[c].alg, ChSlot(c), ChSlot(c) + 3);
      if n == ChSlot(c) then conn.mod0 else conn.mod1
  }

  /** With the rhythm mode on only channel 6 is connected anew. */
  lemma RhythmModsOn(slot: seq<Slot>, channel: seq<Channel>)
    requires |slot| == SLOTS && |channel| == CHANNELS
    ensures var conn := TwoOpConnection(channel[6].alg, ChSlot(6), ChSlot(6) + 3);
      forall n | 0 <= n < SLOTS ::
        WithMods(slot, 6, conn.mod0, conn.mod1)[n] == slot[n].(mod := RhythmMod(slot, channel, n, true))
  {
    hide TwoOpConnection;
    SlotsOfChannel(6);
  }

  lemma ConnectionsValid(c: nat, con: nat)
    requires c < CHANNELS
    ensures var conn := TwoOpConnection(con, ChSlot(c), ChSlot(c) + 3);
      ValidMod(ChSlot(c), conn.mod0) && ValidMod(ChSlot(c) + 3, conn.mod1) && ValidOut(c, conn.out)
  {
    hide ChSlot, ChannelOf;
    SlotsOfChannel(c);
  }

  lemma PairConnectionsValid(c: nat, alg: nat)
    requires c < CHANNELS && HasPair(c) && alg < 4
    ensures var p := Pair(c);
      var (pairConn, conn) := FourOpConnection(alg, ChSlot(p), ChSlot(p) + 3, ChSlot(c), ChSlot(c) + 3);
      && ValidMod(ChSlot(p), pairConn.mod0) && ValidMod(ChSlot(p) + 3, pairConn.mod1) && ValidOut(p, pairConn.out)
      && ValidMod(ChSlot(c), conn.mod0) && ValidMod(ChSlot(c) + 3, conn.mod1) && ValidOut(c, conn.out)
  {
    hide ChSlot, ChannelOf, Pair;
    PairOfPair(c);
    SlotsOfChannel(c);
    SlotsOfChannel(Pair(c));
  }

  lemma PairOfPair(c: nat)
    requires c < CHANNELS && HasPair(c)
    ensures Pair(Pair(c)) == c
  {}

  lemma KeyKeepsMod(s: Slot, ksv: nat, drum: bool)
    ensures KeyOn(s, ksv, drum).mod == s.mod && KeyOff(s, ksv, drum).mod == s.mod
  {
    hide UpdateRate;
  }

  function ResetSlot(n: nat): Slot
    requires n < SLOTS
  {
    var first := n == ChSlot(ChannelOf(n));
    Slot(0, 0, 0, if first then FeedbackMod(n) else Out(n - 3),
         Envelope(0x1ff, 0x1ff, 0, Off, 0, 0),
         Registers(false, false, false, false, 0, 0, 0, 0, 0, 0, 0, 0), false, false, 0)
  }

  function ResetChannel(c: nat): Channel
    requires c < CHANNELS
  {
    Channel(TwoOpConnection(0, ChSlot(c), ChSlot(c) + 3).out, TwoOp, Pitch(0, 0, 0), 0, 0, 0, true, true)
  }

  lemma ResetSlotValid(n: nat)
    requires n < SLOTS
    ensures ValidSlot(ResetSlot(n)) && ValidMod(n, ResetSlot(n).mod)
  {
    hide ChSlot, ChannelOf;
    SlotsOfChannel(ChannelOf(n));
  }

  lemma ResetChannelValid(c: nat)
    requires c < CHANNELS
    ensures ValidChannel(c, ResetChannel(c))
  {
    SlotsOfChannel(c);
  }

  /** The bit of the rhythm register that keys operator n. */
  function DrumBit(n: nat): (b: nat)
    requires 12 <= n < 18
    ensures b < 5
  {
    [4, 0, 2, 4, 3, 1][n - 12]
  }

  lemma WritesKeepMod(s: Slot, p: Pitch, newm: bool, data: nat)
    requires ValidPitch(p)
    ensures SlotWrite20(s, p.ksv, data).mod == s.mod && SlotWrite40(s, p, data).mod == s.mod
    ensures SlotWrite60(s, p.ksv, data).mod == s.mod && SlotWrite80(s, p.ksv, data).mod == s.mod
    ensures SlotWriteE0(s, newm, data).mod == s.mod
  {
    hide UpdateRate, UpdateKsl, Bit;
  }

  /** What channels 6 to 8 are heard through in rhythm mode: each drum twice. */
  function DrumOut(c: nat): seq<Source>
    requires 6 <= c < 9
  {
    if c == 6 then [Out(15), Out(15), ZeroMod, ZeroMod] else [Out(c + 6), Out(c + 6), Out(c + 9), Out(c + 9)]
  }

  /** Channel c after a write to the rhythm register. */
  function Drummed(ch: Channel, c: nat, on: bool): Channel
    requires c < CHANNELS
  {
    if !(6 <= c < 9) then ch
    else if on then ch.(out := DrumOut(c), chtype := Drum)
    else ch.(out := TwoOpConnection(ch.alg, ChSlot(c), ChSlot(c) + 3).out, chtype := TwoOp)
  }

  lemma DrumOutsValid()
    ensures forall c | 6 <= c < 9 :: ValidOut(c, DrumOut(c))
  {}

  lemma ResetWiringValid(slot: seq<Slot>, channel: seq<Channel>)
    requires |slot| == SLOTS && forall n | 0 <= n < SLOTS :: slot[n] == ResetSlot(n)
    requires |channel| == CHANNELS && forall c | 0 <= c < CHANNELS :: channel[c] == ResetChannel(c)
    ensures ValidWiring(slot, channel)
  {
    hide ResetSlot, ResetChannel, ValidSlot, ValidMod, ValidChannel;
    forall n | 0 <= n < SLOTS ensures ValidSlot(slot[n]) && ValidMod(n, slot[n].mod) {
      ResetSlotValid(n);
    }
    forall c | 0 <= c < CHANNELS ensures ValidChannel(c, channel[c]) {
      ResetChannelValid(c);
    }
  }

  /** The two operators of a channel belong to it. */
  lemma SlotsOfChannel(c: nat)
    requires c < CHANNELS
    ensures ChannelOf(ChSlot(c)) == c && ChannelOf(ChSlot(c) + 3) == c
  {
    var q, r := c / 3, c % 3;
    DivModUnique(6 * q + r, 6, q, r);
    DivModUnique(6 * q + r, 3, 2 * q, r);
    DivModUnique(6 * q + r + 3, 6, q, r + 3);
    DivModUnique(6 * q + r + 3, 3, 2 * q + 1, r);
  }
}
