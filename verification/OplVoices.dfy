/**
  src/i_oplmusic.c: the DMX driver. The events of a song take voices from a list of free ones, program
  them, and give them back.
 */
module OplVoices {
  import opened Collections
  import opened VoiceLists
  import opened VoiceRegisters

  datatype Version = Doom1 | Doom2 | Doom19

  /** opl_channel_data_t. */
  datatype ChannelData = ChannelData(instrument: nat, volume: nat, volumeBase: nat, pan: nat, bend: int)

  ghost predicate ValidChannels(channels: seq<ChannelData>) {
    |channels| == MIDI_CHANNELS &&
    forall c | 0 <= c < MIDI_CHANNELS ::
      channels[c].instrument < GENMIDI_NUM_INSTRS && channels[c].volume < 128 && channels[c].volumeBase < 128
        && -64 <= channels[c].bend < 64
  }

  /** TrackChannelForEvent: percussion is channel 9 of MIDI and channel 15 of MUS. */
  function TrackChannel(c: nat): nat { if c == 9 then 15 else if c == 15 then 9 else c }

  class Driver {
    const version: Version
    const opl3: bool
    const num: nat
    const instrs: seq<Instrument>
    const curve: nat -> nat
    const voices: array<Voice>
    const freeList: array<nat>
    const allocedList: array<nat>
    const channels: array<ChannelData>
    var freeNum: nat
    var allocedNum: nat
    var chip: Chip
    var startVolume: nat
    var musicVolume: nat

    /** The arrays exist and the counts fit in them. */
    ghost predicate Shape()
      reads this`freeNum, this`allocedNum, channels
    {
      && (num == 9 || num == 18) && voices.Length == freeList.Length == allocedList.Length == num
      && channels.Length == MIDI_CHANNELS
      && freeList != allocedList && freeNum + allocedNum <= num
      && ValidInstruments(instrs) && ValidCurve(curve) && ValidChannels(channels[..])
    }

    ghost function Now(): Lists
      requires Shape()
      reads this`freeNum, this`allocedNum, channels, freeList, allocedList
    {
      Lists(freeList[..freeNum], allocedList[..allocedNum])
    }

    ghost predicate Valid()
      reads this, channels, freeList, allocedList, voices
    {
      && Shape() && startVolume < 128 && musicVolume < 128
      && StateOk(instrs, num, Now(), voices[..], chip)
    }

    /** Drivers before 1.9 release the second voice of an instrument together with the next one. */
    predicate Chained() { version != Doom19 }

    /** InitVoices, and InitChannel for every channel, when the music starts up. */
    constructor (version: Version, opl3: bool, instrs: seq<Instrument>, curve: nat -> nat, musicVolume: nat)
      requires ValidInstruments(instrs) && ValidCurve(curve) && musicVolume < 128
      ensures Valid() && Partition(Now(), num) && Now().alloced == []
      ensures this.version == version && this.instrs == instrs && this.curve == curve
      ensures fresh(voices) && fresh(freeList) && fresh(allocedList) && fresh(channels)
    {
      this.version, this.opl3, this.instrs, this.curve := version, opl3, instrs, curve;
      num := if opl3 then 18 else 9;
      voices := new Voice[if opl3 then 18 else 9](_ => NO_VOICE);
      freeList := new nat[if opl3 then 18 else 9](i => i);
      allocedList := new nat[if opl3 then 18 else 9](_ => 0);
      channels := new ChannelData[MIDI_CHANNELS](_ => InitialChannel(musicVolume));
      freeNum, allocedNum, chip := if opl3 then 18 else 9, 0, map[];
      this.startVolume, this.musicVolume := musicVolume, musicVolume;
      new;
      assert Now() == Lists(freeList[..freeNum], []);
      AllFree(freeList[..freeNum], num);
      NothingLoaded(instrs, num, Now(), voices[..], chip);
    }

    // ----------------------------------------------------------------
    // Lists
    // ----------------------------------------------------------------

    /** GetFreeVoice. */
    method GetFreeVoice() returns (v: int)
      requires Shape()
      modifies this`freeNum, this`allocedNum, freeList, allocedList
      ensures Shape()
      ensures old(Now()).free == [] ==> v == -1 && Now() == old(Now())
      ensures old(Now()).free != [] ==> v == old(Now()).free[0] && Now() == Taken(old(Now()))
    {
      if freeNum == 0 {
        return -1;
      }
      ghost var free, alloced := freeList[..freeNum], allocedList[..allocedNum];
      var first := freeList[0];
      v := first;
      freeNum := freeNum - 1;
      var i := 0;
      while i < freeNum
        invariant 0 <= i <= freeNum == |free| - 1
        invariant forall k | 0 <= k < i :: freeList[k] == free[k + 1]
        invariant forall k | i <= k < |free| :: freeList[k] == free[k]
        invariant allocedList[..allocedNum] == alloced
        modifies freeList
      {
        freeList[i] := freeList[i + 1];
        i := i + 1;
      }
      assert freeList[..freeNum] == free[1..];
      allocedList[allocedNum] := first;
      allocedNum := allocedNum + 1;
      assert allocedList[..allocedNum] == alloced + [first];
    }

    /** The part of ReleaseVoice that moves a voice from one list to the end of the other. */
    method MoveToFree(index: nat)
      requires Shape() && index < allocedNum
      modifies this`freeNum, this`allocedNum, freeList, allocedList
      ensures Shape() && Now() == ReleasedOne(old(Now()), index)
    {
      ghost var free, alloced := freeList[..freeNum], allocedList[..allocedNum];
      var v := allocedList[index];
      allocedNum := allocedNum - 1;
      var i := index;
      while i < allocedNum
        invariant index <= i <= allocedNum == |alloced| - 1
        invariant forall k | 0 <= k < index :: allocedList[k] == alloced[k]
        invariant forall k | index <= k < i :: allocedList[k] == alloced[k + 1]
        invariant forall k | i <= k < |alloced| :: allocedList[k] == alloced[k]
        invariant freeList[..freeNum] == free
        modifies allocedList
      {
        allocedList[i] := allocedList[i + 1];
        i := i + 1;
      }
      assert allocedList[..allocedNum] == RemoveAt(alloced, index);
      freeList[freeNum] := v;
      freeNum := freeNum + 1;
      assert freeList[..freeNum] == free + [v];
    }

    method WriteRegister(r: Reg, value: nat)
      modifies this`chip
      ensures chip == old(chip)[r := value]
    {
      chip := chip[r := value];
    }

    /** VoiceKeyOff: the frequency is written without the bit that keys the voice. */
    method VoiceKeyOff(v: nat)
      requires v < voices.Length && voices[v].freq < 0x2000
      modifies this`chip
      ensures chip == old(chip)[VoiceReg(Freq2, v) := voices[v].freq / 0x100]
      ensures SameElsewhere(old(chip), chip, v) && !KeyedOn(chip, v)
    {
      WriteRegister(VoiceReg(Freq2, v), voices[v].freq / 0x100);
    }

    /**
      ReleaseVoice. An index past the end wipes both lists; this happens to the older drivers when every
      voice from the index on is a second voice.
     */
    method ReleaseVoice(index: nat)
      requires Valid()
      modifies this`freeNum, this`allocedNum, this`chip, freeList, allocedList, voices
      ensures Valid() && Now() == Released(old(Now()), index, old(voices[..]), Chained())
      ensures Settled(old(voices[..]), voices[..], Now())
      ensures forall v | v in Now().alloced :: v in old(Now()).alloced
      decreases allocedNum
    {
      hide StateOk, Partition;
      ghost var l, vs := Now(), voices[..];
      if index >= allocedNum {
        StateWiped(instrs, num, l, vs, chip);
        allocedNum, freeNum := 0, 0;
        assert Now() == WIPED;
        return;
      }
      VoicesCount();
      var v := allocedList[index];
      assert v == l.alloced[index] && v in l.alloced;
      ReleaseOne(index);
      if voices[v].instrVoice != 0 && version != Doom19 {
        ghost var mid, next := voices[..], Now();
        SettledSeconds(vs, mid, next);
        ReleaseVoice(index);
        SameReleases(next, index, vs, mid, Chained());
        SettledTwice(vs, mid, voices[..], next, Now());
      }
    }

    lemma VoicesCount()
      requires Valid()
      ensures voices.Length == num && forall v | v in Now().alloced :: v < num
    {}

    /** ReleaseVoice without the crash and without the second voice. */
    method ReleaseOne(index: nat)
      requires Valid() && index < allocedNum
      modifies this`freeNum, this`allocedNum, this`chip, freeList, allocedList, voices
      ensures Valid() && Now() == ReleasedOne(old(Now()), index)
      ensures Settled(old(voices[..]), voices[..], Now())
      ensures forall v | v in Now().alloced :: v in old(Now()).alloced
    {
      hide Partition, InUse, LevelsOk, OperatorsOk, SameElsewhere, KeyedOn;
      ghost var l, vs, was := Now(), voices[..], chip;
      var v := allocedList[index];
      AllocatedVoice(instrs, num, l, vs, chip, index);
      VoiceKeyOff(v);
      VoiceOkSilent(instrs, v, vs[v], was, vs[v].freq / 0x100);
      StateReleased(instrs, num, l, vs, was, index, vs[v].(channel := -1, note := 0), chip);
      voices[v] := voices[v].(channel := -1, note := 0);
      assert voices[..] == vs[v := vs[v].(channel := -1, note := 0)];
      MoveToFree(index);
    }

    /** The loops of KeyOffEvent and AllNotesOff. */
    method Sweep(q: Query)
      requires Valid()
      modifies this`freeNum, this`allocedNum, this`chip, freeList, allocedList, voices
      ensures Valid() && Now() == Swept(old(Now()), 0, old(voices[..]), q, Chained())
      ensures Settled(old(voices[..]), voices[..], Now())
    {
      hide Driver.Valid, Partition, Settled, Second, Released;
      ShapeOfValid();
      ghost var vs := voices[..];
      SettledAlready(vs, Now());
      var i := 0;
      while i < allocedNum
        invariant 0 <= i && Valid() && Shape()
        invariant Swept(Now(), i, vs, q, Chained()) == Swept(old(Now()), 0, vs, q, Chained())
        invariant Settled(vs, voices[..], Now())
        decreases allocedNum, allocedNum - i
      {
        ShapeOfValid();
        ghost var l, mid := Now(), voices[..];
        var v := allocedList[i];
        assert v == l.alloced[i] && v in l.alloced;
        SettledSeconds(vs, mid, l);
        SettledMatches(vs, mid, l, q, v);
        if voices[v].channel == q.channel && (q.key < 0 || voices[v].key == q.key) {
          ReleaseVoice(i);
          ShapeOfValid();
          SameReleases(l, i, vs, mid, Chained());
          SettledTwice(vs, mid, voices[..], l, Now());
          ReleasedSmaller(l, i, vs, Chained());
          i := i - 1;
        }
        i := i + 1;
      }
    }

    lemma ShapeOfValid()
      requires Valid()
      ensures Shape() && forall v | v in Now().alloced :: v < num
    {}

    /**
      KeyOffEvent: no voice goes on playing the key. The 1.9 driver frees exactly the voices of the
      key, in order.
     */
    method KeyOffEvent(midiChannel: nat, key: nat)
      requires Valid() && midiChannel < MIDI_CHANNELS
      modifies this`freeNum, this`allocedNum, this`chip, freeList, allocedList, voices
      ensures Valid() && SweptRight(old(Now()), Now(), old(voices[..]), Query(TrackChannel(midiChannel), key))
    {
      hide Driver.Valid, Partition;
      ShapeOfValid();
      ghost var l, vs, q := Now(), voices[..], Query(TrackChannel(midiChannel), key);
      SweptClean(l, 0, vs, q, Chained());
      if !Chained() { SweptAll(l, vs, q); }
      Sweep(Query(TrackChannel(midiChannel), key));
    }

    /** AllNotesOff: the same for every key of a channel. */
    method AllNotesOff(channel: nat)
      requires Valid() && channel < MIDI_CHANNELS
      modifies this`freeNum, this`allocedNum, this`chip, freeList, allocedList, voices
      ensures Valid() && SweptRight(old(Now()), Now(), old(voices[..]), Query(channel, -1))
    {
      hide Driver.Valid, Partition;
      ShapeOfValid();
      ghost var l, vs, q := Now(), voices[..], Query(channel, -1);
      SweptClean(l, 0, vs, q, Chained());
      if !Chained() { SweptAll(l, vs, q); }
      Sweep(Query(channel, -1));
    }

    ghost predicate SweptRight(before: Lists, after: Lists, vs: seq<Voice>, q: Query) {
      && (forall v | v in after.alloced :: !Matches(vs, q, v))
      && after == Swept(before, 0, vs, q, Chained())
      && (version == Doom19 ==> after == Lists(before.free + Matching(before.alloced, vs, q),
        Others(before.alloced, vs, q)))
    }

    // ----------------------------------------------------------------
    // One voice
    // ----------------------------------------------------------------

    /** The voice may be programmed: it is one of the driver's, and consistent with the chip. */
    ghost predicate Programmable(v: nat)
      reads this`freeNum, this`allocedNum, this`chip, channels, voices
    {
      Shape() && v < num && VoiceOk(instrs, v, voices[v], chip)
    }

    /** The loops of FrequencyForVoice. */
    method MoveIntoRange(first: int) returns (note: int)
      ensures note == InRange(first) && 0 <= note <= 95
    {
      note := first;
      while note < 0
        invariant InRange(note) == InRange(first)
      {
        OctaveUp(note);
        note := note + 12;
      }
      while note > 95
        invariant InRange(note) == InRange(first) && note >= 0
      {
        OctaveDown(note);
        note := note - 12;
      }
    }

    /** FrequencyForVoice. */
    method FrequencyForVoice(v: nat) returns (freq: nat)
      requires Programmable(v) && voices[v].channel >= 0 && voices[v].instr >= 0
      ensures freq == FrequencyOf(curve, instrs[voices[v].instr], voices[v], channels[voices[v].channel].bend)
      ensures 0 < freq < 0x2000
    {
      hide LevelsOk, OperatorsOk, InRange;
      var voice := voices[v];
      var instr := instrs[voice.instr];
      var note := MoveIntoRange(voice.note + if instr.fixedPitch then 0
        else DataOf(instr, voice.instrVoice).baseNoteOffset);
      var index := 64 + 32 * note + channels[voice.channel].bend;
      if voice.instrVoice != 0 {
        index := index + (instr.fineTuning / 2 - 64);
      }
      CurveBound(curve, index);
      if index < 0 {
        index := 0;
      }
      if index < 284 {
        return curve(index);
      }
      var sub, octave := (index - 284) % 384, (index - 284) / 384;
      if octave >= 7 {
        octave := 7;
      }
      freq := curve(sub + 284) + octave * 0x400;
    }

    /** UpdateVoiceFrequency: a new frequency is written, and keys the voice. */
    method UpdateVoiceFrequency(v: nat)
      requires Programmable(v) && voices[v].channel >= 0 && voices[v].instr >= 0
      modifies this`chip, voices
      ensures Programmable(v) && SameElsewhere(old(chip), chip, v)
      ensures var freq := FrequencyOf(curve, instrs[old(voices[v]).instr], old(voices[v]),
        channels[old(voices[v]).channel].bend);
        && voices[..] == old(voices[..])[v := old(voices[v]).(freq := freq)]
        && chip == if freq == old(voices[v].freq) then old(chip)
                   else old(chip)[VoiceReg(Freq1, v) := freq % 0x100][VoiceReg(Freq2, v) := freq / 0x100 + 0x20]
    {
      hide VoiceOk, SameElsewhere, FrequencyOf;
      ghost var was, vs := chip, voices[..];
      var freq := FrequencyForVoice(v);
      FreqWritten(instrs, v, voices[v], chip, freq);
      if voices[v].freq != freq {
        WriteRegister(VoiceReg(Freq1, v), freq % 0x100);
        WriteRegister(VoiceReg(Freq2, v), freq / 0x100 + 0x20);
        voices[v] := voices[v].(freq := freq);
      }
      assert voices[..] == vs[v := vs[v].(freq := freq)];
    }

    /** LoadOperatorData. */
    method LoadOperatorData(v: nat, carrier: bool, op: Operator, maxLevel: bool) returns (volume: nat)
      requires ValidOperator(op)
      modifies this`chip
      ensures volume == op.scale + if maxLevel then 0x3f else op.level
      ensures chip == Loaded(old(chip), v, carrier, op, volume)
    {
      volume := op.scale + if maxLevel then 0x3f else op.level;
      WriteRegister(OpReg(Level, v, carrier), volume);
      WriteRegister(OpReg(Tremolo, v, carrier), op.tremolo);
      WriteRegister(OpReg(Attack, v, carrier), op.attack);
      WriteRegister(OpReg(Sustain, v, carrier), op.sustain);
      WriteRegister(OpReg(Waveform, v, carrier), op.waveform);
    }

    /** SetVoiceInstrument: a voice that has the instrument already is left alone, pan included. */
    method SetVoiceInstrument(v: nat, instr: nat, instrVoice: nat)
      requires Programmable(v) && instr < |instrs| && instrVoice <= 1
      modifies this`chip, voices
      ensures Programmable(v) && SameElsewhere(old(chip), chip, v) && KeyedOn(chip, v) == KeyedOn(old(chip), v)
      ensures voices[..] == old(voices[..])[v := voices[v]]
      ensures voices[v].instr == instr && voices[v].instrVoice == instrVoice
      ensures voices[v] == old(voices[v]).(instr := instr, instrVoice := instrVoice, levels := voices[v].levels,
        priority := voices[v].priority)
      ensures voices[v].levels.note == old(voices[v]).levels.note
      ensures var same := old(voices[v]).instr == instr && old(voices[v]).instrVoice == instrVoice;
        var d := DataOf(instrs[instr], instrVoice);
        if same then voices[v] == old(voices[v]) && chip == old(chip)
        else
          && voices[v].levels.car % 0x40 == 0x3f
          && voices[v].priority == 30 - d.carrier.attack / 0x10 - d.carrier.sustain % 0x10
          && Read(chip, VoiceReg(Feedback, v)) == OrPan(d.feedback, old(voices[v]).regPan)
    {
      hide SameElsewhere, OperatorOk, KeyedOn, LevelsOk;
      SameAsBefore(chip, v);
      if voices[v].instr == instr && voices[v].instrVoice == instrVoice {
        assert voices[..] == old(voices[..])[v := voices[v]];
        return;
      }
      var car, mod := LoadInstrument(v, instr, instrVoice);
      var d := DataOf(instrs[instr], instrVoice);
      var priority: int := 0x0f - d.carrier.attack / 0x10 + 0x0f - d.carrier.sustain % 0x10;
      voices[v] := voices[v].(instr := instr, instrVoice := instrVoice, priority := priority,
                              levels := voices[v].levels.(car := car, mod := mod));
      assert voices[..] == old(voices[..])[v := voices[v]];
    }

    /** The register writes of SetVoiceInstrument: both operators, silent where the carrier is, and the connection. */
    method LoadInstrument(v: nat, instr: nat, instrVoice: nat) returns (car: nat, mod: nat)
      requires Programmable(v) && instr < |instrs| && instrVoice <= 1
      modifies this`chip
      ensures SameElsewhere(old(chip), chip, v) && KeyedOn(chip, v) == KeyedOn(old(chip), v)
      ensures var d := DataOf(instrs[instr], instrVoice);
        && OperatorsOk(d, v, chip) && car % 0x40 == 0x3f
        && Read(chip, VoiceReg(Feedback, v)) == OrPan(d.feedback, voices[v].regPan)
        && forall note :: LevelsOk(d, v, Levels(note, car, mod), chip)
    {
      hide VoiceOk, Loaded;
      assert ValidInstrument(instrs[instr]);
      var d := DataOf(instrs[instr], instrVoice);
      ghost var was := chip;
      car := LoadOperatorData(v, true, d.carrier, true);
      mod := LoadOperatorData(v, false, d.modulator, Additive(d));
      BothLoaded(was, v, d, car, mod, OrPan(d.feedback, voices[v].regPan));
      WriteRegister(VoiceReg(Feedback, v), OrPan(d.feedback, voices[v].regPan));
    }

    /**
      SetVoiceVolume skips writes that would change nothing: the registers are those of a driver that
      always writes both levels.
     */
    method SetVoiceVolume(v: nat, volume: nat)
      requires Programmable(v) && voices[v].channel >= 0 && voices[v].instr >= 0 && volume < 128
      modifies this`chip, voices
      ensures Programmable(v) && SameElsewhere(old(chip), chip, v) && KeyedOn(chip, v) == KeyedOn(old(chip), v)
      ensures var x := old(voices[v]);
        var d, c := DataOf(instrs[x.instr], x.instrVoice), CarVolume(volume, channels[x.channel].volume);
        && chip == AlwaysSet(old(chip), d, v, c)
        && voices[..] == old(voices[..])[v := x.(levels := Levels(volume, CarLevel(d, c), ModLevel(d, c)))]
    {
      hide CarVolume, OperatorsOk, FullVolume;
      ghost var vs, was := voices[..], chip;
      var x := voices[v];
      var d := DataOf(instrs[x.instr], x.instrVoice);
      assert ValidInstrument(instrs[x.instr]) && channels[x.channel] == channels[..][x.channel];
      var c := CarVolume(volume, channels[x.channel].volume);
      var car, mod := WriteLevels(v, d, c, x.levels);
      voices[v] := x.(levels := Levels(volume, car, mod));
      assert voices[..] == vs[v := x.(levels := Levels(volume, car, mod))];
      AlwaysSetKeeps(d, v, c, was, volume);
    }

    /** The conditional writes of SetVoiceVolume. */
    method WriteLevels(v: nat, d: InstrVoice, c: nat, levels: Levels) returns (car: nat, mod: nat)
      requires ValidInstrVoice(d) && c < 0x40 && LevelsOk(d, v, levels, chip)
      modifies this`chip
      ensures car == CarLevel(d, c) && mod == ModLevel(d, c) && chip == AlwaysSet(old(chip), d, v, c)
    {
      ghost var was := chip;
      LevelParts(d, levels.car % 0x40);
      LevelParts(d, c);
      OrSame(d.modulator);
      car, mod := levels.car, levels.mod;
      if c != levels.car % 0x40 {
        car := c + levels.car / 0x40 * 0x40;
        WriteRegister(OpReg(Level, v, true), car);
        if d.feedback % 2 != 0 && d.modulator.level != 0x3f {
          var level := d.modulator.level;
          if level < c {
            level := c;
          }
          level := level + levels.mod / 0x40 * 0x40;
          if level != levels.mod {
            mod := level;
            WriteRegister(OpReg(Level, v, false), level % 0x40 + OrTop(level / 0x40 * 0x40, d.modulator.scale));
          }
        }
      }
      assert chip == AlwaysSet(was, d, v, c);
    }

    /** SetVoicePan. */
    method SetVoicePan(v: nat, pan: nat)
      requires Programmable(v) && voices[v].instr >= 0
      modifies this`chip, voices
      ensures Programmable(v) && SameElsewhere(old(chip), chip, v) && KeyedOn(chip, v) == KeyedOn(old(chip), v)
      ensures voices[..] == old(voices[..])[v := old(voices[v]).(regPan := pan)]
      ensures var x := old(voices[v]);
        chip == old(chip)[VoiceReg(Feedback, v) := OrPan(DataOf(instrs[x.instr], x.instrVoice).feedback, pan)]
    {
      hide CarLevel, ModLevel;
      ghost var vs := voices[..];
      var x := voices[v];
      voices[v] := x.(regPan := pan);
      WriteRegister(VoiceReg(Feedback, v), OrPan(DataOf(instrs[x.instr], x.instrVoice).feedback, pan));
      assert voices[..] == vs[v := x.(regPan := pan)];
    }

    // ----------------------------------------------------------------
    // Notes
    // ----------------------------------------------------------------

    /** What VoiceKeyOn makes of a voice. */
    ghost predicate Programmed(v: nat, channel: nat, instr: nat, instrVoice: nat, note: nat, key: nat, volume: nat)
      requires Shape()
      reads this`freeNum, this`allocedNum, this`chip, channels, voices
    {
      && v < num && channel < MIDI_CHANNELS
      && SoundsAs(curve, instrs, channels[..][channel], chip, v, voices[v], channel, instr, instrVoice, note, key,
                  volume)
    }

    /** The first steps of VoiceKeyOn on the voice it has found: the instrument is loaded. */
    method PrepareVoice(v: nat, channel: nat, instr: nat, instrVoice: nat, note: nat, key: nat)
      requires Programmable(v) && channel < MIDI_CHANNELS && instr < |instrs| && instrVoice <= 1
      modifies this`chip, voices
      ensures Programmable(v) && SameElsewhere(old(chip), chip, v)
      ensures voices[..] == old(voices[..])[v := voices[v]]
      ensures voices[v].channel == channel && voices[v].key == key
      ensures voices[v].instr == instr && voices[v].instrVoice == instrVoice
      ensures voices[v].note == if instrs[instr].fixedPitch then instrs[instr].fixedNote else note
      ensures Read(chip, VoiceReg(Feedback, v)) ==
        SideAfter(old(voices[v]), old(chip), v, instrs, instr, instrVoice, channels[channel].pan)
    {
      hide LevelsOk, OperatorsOk, SameElsewhere, KeyedOn, OrPan;
      ghost var vs := voices[..];
      assert channels[channel] == channels[..][channel];
      var actual := if instrs[instr].fixedPitch then instrs[instr].fixedNote else note;
      voices[v] := voices[v].(channel := channel, key := key, note := actual, regPan := channels[channel].pan);
      SetVoiceInstrument(v, instr, instrVoice);
      assert voices[..] == vs[v := voices[v]];
    }

    /** The part of VoiceKeyOn that programs the voice. */
    method ProgramVoice(v: nat, channel: nat, instr: nat, instrVoice: nat, note: nat, key: nat, volume: nat)
      requires Programmable(v) && channel < MIDI_CHANNELS && instr < |instrs| && instrVoice <= 1 && volume < 128
      modifies this`chip, voices
      ensures Programmable(v) && Programmed(v, channel, instr, instrVoice, note, key, volume)
      ensures SameElsewhere(old(chip), chip, v) && KeyedOn(chip, v)
      ensures voices[..] == old(voices[..])[v := voices[v]]
      ensures Read(chip, VoiceReg(Feedback, v)) ==
        SideAfter(old(voices[v]), old(chip), v, instrs, instr, instrVoice, channels[channel].pan)
    {
      hide CarLevel, ModLevel, LevelsOk, OperatorsOk, FrequencyOf, SameElsewhere, AlwaysSet, CarVolume, SideAfter;
      ghost var vs, was := voices[..], chip;
      PrepareVoice(v, channel, instr, instrVoice, note, key);
      assert channels[channel] == channels[..][channel];
      ghost var loaded := chip;
      SetVoiceVolume(v, volume);
      ghost var levelled := chip;
      LevelsKeepSide(loaded, DataOf(instrs[instr], instrVoice), v, CarVolume(volume, channels[channel].volume));
      voices[v] := voices[v].(freq := 0);
      FrequencyIgnoresFreq(curve, instrs[instr], voices[v], channels[channel].bend);
      UpdateVoiceFrequency(v);
      ElsewhereThrice(was, loaded, levelled, chip, v);
      assert voices[..] == vs[v := voices[v]];
      FrequencyBound(curve, instrs[instr], voices[v], channels[channel].bend);
      OperatorsStay(instrs, v, voices[v], chip);
    }

    /** The voice of an instrument that plays: the first driver knows no second voices without OPL3. */
    function Actual(instrVoice: nat): nat { if !opl3 && version == Doom1 then 0 else instrVoice }

    /**
      VoiceKeyOn: the first free voice, if there is one, plays the note. A voice that had the instrument
      before keeps its side.
     */
    method VoiceKeyOn(channel: nat, instr: nat, instrVoice: nat, note: nat, key: nat, volume: nat)
      requires Valid() && channel < MIDI_CHANNELS && instr < |instrs| && instrVoice <= 1 && volume < 128
      modifies this`freeNum, this`allocedNum, this`chip, freeList, allocedList, voices
      ensures Valid()
      ensures old(Now()).free == [] ==> Now() == old(Now()) && voices[..] == old(voices[..]) && chip == old(chip)
      ensures old(Now()).free != [] ==>
        var v := old(Now()).free[0];
        && Now() == Taken(old(Now())) && v < num && v < |old(voices[..])|
        && voices[..] == old(voices[..])[v := voices[v]]
        && SameElsewhere(old(chip), chip, v) && Programmed(v, channel, instr, Actual(instrVoice), note, key, volume)
        && Read(chip, VoiceReg(Feedback, v)) ==
          SideAfter(old(voices[..])[v], old(chip), v, instrs, instr, Actual(instrVoice), channels[channel].pan)
    {
      hide Partition, InUse, VoiceOk, Driver.Programmed, SameElsewhere, KeyedOn, Read, SideAfter;
      ghost var l, vs, was := Now(), voices[..], chip;
      if l.free != [] { FirstFree(instrs, num, l, vs, chip); }
      var actual := if !opl3 && version == Doom1 then 0 else instrVoice;
      var v := GetFreeVoice();
      if v < 0 {
        return;
      }
      ProgramVoice(v, channel, instr, actual, note, key, volume);
      assert voices[v].channel >= 0 && Assigned(voices[v]) by
        { ProgrammedMeans(v, channel, instr, actual, note, key, volume); }
      StateTaken(instrs, num, l, vs, was, voices[v], chip);
    }

    lemma ProgrammedMeans(v: nat, channel: nat, instr: nat, instrVoice: nat, note: nat, key: nat, volume: nat)
      requires Shape() && Programmed(v, channel, instr, instrVoice, note, key, volume)
      ensures
        && voices[v].channel == channel
        && voices[v].instr == instr
        && voices[v].key == key
        && voices[v].levels.note == volume
    {
      hide CarVolume, LevelsOk, OperatorsOk, FrequencyOf;
    }

    /** ReplaceExistingVoice. */
    method ReplaceExistingVoice()
      requires Valid()
      modifies this`freeNum, this`allocedNum, this`chip, freeList, allocedList, voices
      ensures Valid()
      ensures Now() == Released(old(Now()), Victim19(old(Now()).alloced, old(voices[..]), |old(Now()).alloced|),
        old(voices[..]), Chained())
      ensures Kept(old(voices[..]), old(Now()), voices[..], Now(), -1, -1)
    {
      hide Driver.Valid;
      ShapeOfValid();
      ghost var was, list := voices[..], Now();
      var result := FindVictim19();
      ReleaseVoice(result);
      ShapeOfValid();
      KeptSettled(was, list, voices[..], Now());
    }

    /** Its search. */
    method FindVictim19() returns (result: nat)
      requires Valid()
      ensures result == Victim19(Now().alloced, voices[..], |Now().alloced|)
    {
      hide StateOk, Partition;
      ghost var a := Now().alloced;
      AllocatedVoices(instrs, num, Now(), voices[..], chip);
      result := 0;
      var i := 0;
      while i < allocedNum
        invariant 0 <= i <= allocedNum && result == Victim19(a, voices[..], i)
      {
        assert a[i] in a && a[result] in a && allocedList[i] == a[i] && allocedList[result] == a[result];
        if voices[allocedList[i]].instrVoice != 0
          || voices[allocedList[i]].channel >= voices[allocedList[result]].channel {
          result := i;
        }
        i := i + 1;
      }
    }

    /** ReplaceExistingVoiceDoom1. */
    method ReplaceExistingVoiceDoom1()
      requires Valid()
      modifies this`freeNum, this`allocedNum, this`chip, freeList, allocedList, voices
      ensures Valid() && (allocedNum < old(allocedNum) || Now() == WIPED)
      ensures Now() == ReplacedDoom1(old(Now()), old(voices[..]), Chained())
      ensures Settled(old(voices[..]), voices[..], Now()) && forall v | v in Now().alloced :: v in old(Now()).alloced
      ensures Kept(old(voices[..]), old(Now()), voices[..], Now(), -1, -1)
    {
      hide StateOk, Partition;
      ghost var was, list := voices[..], Now();
      var result := FindVictimDoom1();
      ReleaseVoice(result);
      KeptSettled(was, list, voices[..], Now());
    }

    /** Its search. */
    method FindVictimDoom1() returns (result: nat)
      requires Valid()
      ensures result == VictimDoom1(Now().alloced, voices[..], |Now().alloced|)
    {
      hide StateOk, Partition;
      ghost var a := Now().alloced;
      AllocatedVoices(instrs, num, Now(), voices[..], chip);
      result := 0;
      var i := 0;
      while i < allocedNum
        invariant 0 <= i <= allocedNum && result == VictimDoom1(a, voices[..], i)
      {
        assert a[i] in a && a[result] in a && allocedList[i] == a[i] && allocedList[result] == a[result];
        if voices[allocedList[i]].channel > voices[allocedList[result]].channel {
          result := i;
        }
        i := i + 1;
      }
    }

    /** ReplaceExistingVoiceDoom2: the last three voices allocated are safe. */
    method ReplaceExistingVoiceDoom2(channel: nat)
      requires Valid()
      modifies this`freeNum, this`allocedNum, this`chip, freeList, allocedList, voices
      ensures Valid() && (Now() == WIPED || allocedNum < old(allocedNum))
      ensures Now() == ReplacedDoom2(old(Now()), old(voices[..]), channel, Chained())
      ensures Settled(old(voices[..]), voices[..], Now()) && forall v | v in Now().alloced :: v in old(Now()).alloced
      ensures Kept(old(voices[..]), old(Now()), voices[..], Now(), -1, -1)
    {
      hide Driver.Valid;
      ShapeOfValid();
      ghost var was, list := voices[..], Now();
      var result := FindVictimDoom2(channel);
      ReleaseVoice(result);
      ShapeOfValid();
      KeptSettled(was, list, voices[..], Now());
      ShapeOfValid();
      if list.alloced != [] {
        ReleasedSmaller(list, result, was, Chained());
      }
    }

    /** Its search. */
    method FindVictimDoom2(channel: nat) returns (result: nat)
      requires Valid()
      ensures var a := Now().alloced;
        result == VictimDoom2(a, voices[..], channel, if |a| < 3 then 0 else |a| - 3).0
    {
      hide StateOk, Partition;
      ghost var a := Now().alloced;
      AllocatedVoices(instrs, num, Now(), voices[..], chip);
      result := 0;
      var priority := 0x8000;
      var i := 0;
      while i < allocedNum - 3
        invariant 0 <= i <= (if allocedNum < 3 then 0 else allocedNum - 3)
        invariant (result, priority) == VictimDoom2(a, voices[..], channel, i)
      {
        assert a[i] in a && allocedList[i] == a[i];
        if voices[allocedList[i]].priority < priority && voices[allocedList[i]].channel >= channel {
          priority := voices[allocedList[i]].priority;
          result := i;
        }
        i := i + 1;
      }
    }

    /** A voice plays a note: it is allocated and keyed, and its registers are those of the instrument at that note. */
    ghost predicate Plays(v: nat, channel: nat, instr: nat, instrVoice: nat, note: nat, key: nat, volume: nat)
      requires Shape()
      reads this`freeNum, this`allocedNum, this`chip, channels, freeList, allocedList, voices
    {
      v in Now().alloced && v < num && KeyedOn(chip, v) && Programmed(v, channel, instr, instrVoice, note, key, volume)
    }

    /** One call of VoiceKeyOn, as far as the note is concerned. */
    method PlayVoice(channel: nat, instr: nat, instrVoice: nat, note: nat, key: nat, volume: nat) returns (ghost v: int)
      requires Valid() && channel < MIDI_CHANNELS && instr < |instrs| && instrVoice <= 1 && volume < 128
      modifies this`freeNum, this`allocedNum, this`chip, freeList, allocedList, voices
      ensures Valid() && Now() == TakenIfFree(old(Now()))
      ensures v == if old(Now()).free != [] then old(Now()).free[0] else -1
      ensures v >= 0 ==> Plays(v, channel, instr, Actual(instrVoice), note, key, volume)
      ensures v !in old(Now()).alloced
      ensures |voices[..]| == |old(voices[..])| == num
      ensures if v < 0 then voices[..] == old(voices[..]) && chip == old(chip)
        else v < num && voices[..] == old(voices[..])[v := voices[v]] && SameElsewhere(old(chip), chip, v)
      ensures Kept(old(voices[..]), old(Now()), voices[..], Now(), v, -1)
    {
      hide StateOk, Driver.Programmed, SameElsewhere, OrPan, Read, Partition;
      v := -1;
      ghost var l := Now();
      VoicesCount();
      KeepsPartition();
      if l.free != [] {
        v := l.free[0];
        FreeIsFree(l, num);
      }
      VoiceKeyOn(channel, instr, instrVoice, note, key, volume);
      if l.free != [] {
        ProgrammedKeyed(v, channel, instr, Actual(instrVoice), note, key, volume);
        assert v == Now().alloced[|Now().alloced| - 1];
      }
    }

    lemma ProgrammedKeyed(v: nat, channel: nat, instr: nat, instrVoice: nat, note: nat, key: nat, volume: nat)
      requires Shape() && Programmed(v, channel, instr, instrVoice, note, key, volume)
      ensures KeyedOn(chip, v)
    {
      hide CarVolume, LevelsOk, OperatorsOk, FrequencyOf;
      FrequencyBound(curve, instrs[instr], voices[v], channels[..][channel].bend);
    }

    /** The instrument of a note: percussion keys choose it, otherwise the channel has it. */
    function InstrumentOf(midiChannel: nat, key: nat): int
      requires channels.Length == MIDI_CHANNELS && midiChannel < MIDI_CHANNELS
      reads channels
    {
      if midiChannel == 9 then 128 + key - 35 else channels[TrackChannel(midiChannel)].instrument
    }

    /** The lists when room has been made for a note. */
    function RoomMade(l: Lists, vs: seq<Voice>, channel: nat, double: bool): Lists {
      match version
      case Doom1 => MadeRoomDoom1(l, vs, if double && opl3 then Minus(num, 2) else Minus(num, 1), Chained())
      case Doom2 => MadeRoomDoom2(l, vs, channel, num, double, Chained())
      case Doom19 => MadeRoom19(l, vs)
    }

    function NoteOf(midiChannel: nat, key: nat): nat { if midiChannel == 9 then 60 else key }

    /** There is room for a second voice. */
    ghost predicate SecondFits()
      requires Shape()
      reads this`freeNum, this`allocedNum, channels, freeList, allocedList
    {
      version == Doom2 || (version == Doom1 && opl3) || |Now().free| >= 2
    }

    /** The voices of the instrument play: the first one on v, and on w the second one, if it does. */
    ghost predicate PlayedOn(v: int, w: int, channel: nat, instr: nat, note: nat, key: nat, volume: nat)
      requires Shape()
      reads this`freeNum, this`allocedNum, this`chip, channels, freeList, allocedList, voices
    {
      && v >= 0 && Plays(v, channel, instr, 0, note, key, volume)
      && (w >= 0 ==> w != v && Plays(w, channel, instr, Actual(1), note, key, volume))
    }

    /**
      KeyOnEvent. Percussion keys choose the instrument; a volume of zero is a key off. With every
      driver the note plays unless the lists have been wiped, and wiped lists stay wiped.
     */
    method KeyOnEvent(midiChannel: nat, key: nat, volume: nat) returns (ghost v: int, ghost w: int)
      requires Valid() && midiChannel < MIDI_CHANNELS && key < 128 && volume < 128
      modifies this`freeNum, this`allocedNum, this`chip, freeList, allocedList, voices
      ensures Valid() && Shape() && channels.Length == MIDI_CHANNELS
      ensures volume == 0 ==> SweptRight(old(Now()), Now(), old(voices[..]), Query(TrackChannel(midiChannel), key))
      ensures volume > 0 && midiChannel == 9 && !(35 <= key <= 81) ==>
        Now() == old(Now()) && voices[..] == old(voices[..]) && chip == old(chip)
      ensures Heard(midiChannel, key, volume) && Now() != WIPED ==>
        var instr := InstrumentOf(midiChannel, key);
        && 0 <= instr < |instrs|
        && PlayedOn(v, w, TrackChannel(midiChannel), instr, NoteOf(midiChannel, key), key, volume)
        && (w >= 0 ==> instrs[instr].twoVoices)
        && (instrs[instr].twoVoices && old(SecondFits()) ==> w >= 0)
        && (version == Doom19 && w >= 0 ==> old(SecondFits()))
      ensures Heard(midiChannel, key, volume) ==>
        var instr := InstrumentOf(midiChannel, key);
        && 0 <= instr < |instrs|
        && var double, channel := instrs[instr].twoVoices, TrackChannel(midiChannel);
        Now() == NotePlayed(RoomMade(old(Now()), old(voices[..]), channel, double), double)
      ensures volume > 0 ==> Kept(old(voices[..]), old(Now()), voices[..], Now(), v, w)
      ensures version == Doom19 && old(Now()) != WIPED ==> Now() != WIPED
      ensures old(Now()) == WIPED ==> Now() == WIPED
    {
      hide StateOk, Partition, Driver.PlayedOn, Kept, MadeRoom19, MadeRoomDoom1, MadeRoomDoom2;
      KeptAll(voices[..], Now());
      v, w := -1, -1;
      KeepsPartition();
      if volume == 0 {
        KeyOffEvent(midiChannel, key);
        KeepsPartition();
        return;
      }
      var channel := TrackChannel(midiChannel);
      var instr, note := channels[channel].instrument, key;
      if midiChannel == 9 {
        if key < 35 || key > 81 {
          return;
        }
        instr, note := GENMIDI_NUM_INSTRS + key - 35, 60;
      }
      assert channels[channel] == channels[..][channel];
      var double := instrs[instr].twoVoices;
      match version
      case Doom1 => v, w := KeyOnDoom1(channel, instr, double, note, key, volume);
      case Doom2 => v, w := KeyOnDoom2(channel, instr, double, note, key, volume);
      case Doom19 => v, w := KeyOn19(channel, instr, double, note, key, volume);
    }

    /** The note is meant to be heard. */
    predicate Heard(midiChannel: nat, key: nat, volume: nat) {
      volume > 0 && (midiChannel == 9 ==> 35 <= key <= 81)
    }

    /** Under a partition one of the lists has a voice. */
    lemma KeepsPartition()
      requires Valid()
      ensures Now() == WIPED || Partition(Now(), num)
      ensures Partition(Now(), num) ==> Now() != WIPED && |Now().free| + |Now().alloced| == num
      ensures |instrs| == GENMIDI_NUM_INSTRS + GENMIDI_NUM_PERCUSSION && ValidChannels(channels[..])
    {}

    /** The 1.9 driver gives up one voice if it must; the second voice of an instrument is optional. */
    method KeyOn19(channel: nat, instr: nat, double: bool, note: nat, key: nat, volume: nat)
      returns (ghost v: int, ghost w: int)
      requires Valid() && version == Doom19 && channel < MIDI_CHANNELS && instr < |instrs| && volume < 128
      modifies this`freeNum, this`allocedNum, this`chip, freeList, allocedList, voices
      ensures Valid() && Shape() && Now() == PlayedOn19(old(Now()), old(voices[..]), double)
      ensures Now() != WIPED ==> PlayedOn(v, w, channel, instr, note, key, volume)
      ensures Now() != WIPED ==> (w >= 0 <==> double && old(SecondFits()))
      ensures Kept(old(voices[..]), old(Now()), voices[..], Now(), v, w)
      ensures old(Now()) == WIPED <==> Now() == WIPED
    {
      hide StateOk, Partition, Driver.Plays, Kept, Settled, ReplacedDoom1, ReplacedDoom2;
      KeptAll(voices[..], Now());
      KeepsPartition();
      ghost var l, vs := Now(), voices[..];
      if freeNum == 0 {
        ReplaceExistingVoice();
      }
      KeepsPartition();
      assert Now() == MadeRoom19(l, vs);
      ghost var mid, room := voices[..], Now();
      v := PlayVoice(channel, instr, 0, note, key, volume);
      KeptTwice(vs, l, mid, room, voices[..], Now(), -1, v);
      KeptSwapped(vs, l, voices[..], Now(), -1, v);
      w := -1;
      if double {
        mid, room := voices[..], Now();
        w := SecondVoice(channel, instr, 1, note, key, volume, v, 0);
        KeptTwice(vs, l, mid, room, voices[..], Now(), v, w);
      }
    }

    /** Another voice, beside one that plays already, if any. */
    method SecondVoice(channel: nat, instr: nat, instrVoice: nat, note: nat, key: nat, volume: nat, ghost p: int,
                       ghost playing: nat)
      returns (ghost v: int)
      requires Valid() && channel < MIDI_CHANNELS && instr < |instrs| && instrVoice <= 1 && volume < 128
      requires Shape() && (p >= 0 ==> Plays(p, channel, instr, playing, note, key, volume))
      modifies this`freeNum, this`allocedNum, this`chip, freeList, allocedList, voices
      ensures Valid() && Shape() && Now() == TakenIfFree(old(Now()))
      ensures v == if old(Now()).free != [] then old(Now()).free[0] else -1
      ensures v >= 0 ==> Plays(v, channel, instr, Actual(instrVoice), note, key, volume)
      ensures p >= 0 ==> Plays(p, channel, instr, playing, note, key, volume) && p != v
      ensures Kept(old(voices[..]), old(Now()), voices[..], Now(), v, -1)
    {
      hide StateOk, Partition, SameElsewhere, SoundsAs, KeyedOn;
      ghost var before, vs := chip, voices[..];
      v := PlayVoice(channel, instr, instrVoice, note, key, volume);
      ShapeOfValid();
      if p >= 0 && v >= 0 {
        SoundsElsewhere(curve, instrs, channels[..][channel], before, chip, v, p, voices[p], channel, instr, playing,
                        note, key, volume);
      }
    }

    /** The driver of Doom 1.666: room for both voices is made first. */
    method KeyOnDoom1(channel: nat, instr: nat, double: bool, note: nat, key: nat, volume: nat)
      returns (ghost v: int, ghost w: int)
      requires Valid() && version == Doom1 && channel < MIDI_CHANNELS && instr < |instrs| && volume < 128
      modifies this`freeNum, this`allocedNum, this`chip, freeList, allocedList, voices
      ensures Valid() && Shape()
      ensures Now() != WIPED ==> PlayedOn(v, w, channel, instr, note, key, volume)
      ensures Now() != WIPED ==> (w >= 0 ==> double) && (double && old(SecondFits()) ==> w >= 0)
      ensures var room :=
        MadeRoomDoom1(old(Now()), old(voices[..]), num - (if double && opl3 then 2 else 1), Chained());
        Now() == NotePlayed(room, double)
      ensures Kept(old(voices[..]), old(Now()), voices[..], Now(), v, w)
      ensures old(Now()) == WIPED ==> Now() == WIPED
    {
      hide StateOk, Partition, Driver.Plays, Kept, Settled, ReplacedDoom1, ReplacedDoom2;
      ghost var vs, l := voices[..], Now();
      KeptAll(vs, l);
      KeepsPartition();
      SettledAlready(vs, l);
      var voicenum := if double && opl3 then 2 else 1;
      while allocedNum > num - voicenum
        invariant Valid() && (old(Now()) == WIPED ==> Now() == WIPED)
        invariant |old(Now()).free| >= 2 ==> Now() == old(Now())
        invariant Kept(vs, l, voices[..], Now(), -1, -1) && Settled(vs, voices[..], Now())
        invariant MadeRoomDoom1(Now(), vs, num - voicenum, Chained()) == MadeRoomDoom1(l, vs, num - voicenum, Chained())
        decreases allocedNum
      {
        KeepsPartition();
        ghost var before, list := voices[..], Now();
        ReplaceExistingVoiceDoom1();
        SameReplaced(list, vs, before, 0, Chained());
        SettledTwice(vs, before, voices[..], list, Now());
        KeptTwice(vs, l, before, list, voices[..], Now(), -1, -1);
      }
      KeepsPartition();
      ghost var mid, room := voices[..], Now();
      v, w := BothVoices(channel, instr, double, note, key, volume);
      KeptThen(vs, l, mid, room, voices[..], Now(), v, w);
    }

    /** The last steps of the older drivers: the second voice comes first. */
    method BothVoices(channel: nat, instr: nat, double: bool, note: nat, key: nat, volume: nat)
      returns (ghost v: int, ghost w: int)
      requires Valid() && channel < MIDI_CHANNELS && instr < |instrs| && volume < 128
      requires Now() != WIPED ==> |Now().free| >= if double && Actual(1) != 0 then 2 else 1
      modifies this`freeNum, this`allocedNum, this`chip, freeList, allocedList, voices
      ensures Valid() && Shape() && (old(Now()) == WIPED <==> Now() == WIPED)
      ensures Now() != WIPED ==> PlayedOn(v, w, channel, instr, note, key, volume)
      ensures Now() != WIPED ==> (w >= 0 <==> double && |old(Now()).free| >= 2)
      ensures Now() == NotePlayed(old(Now()), double)
      ensures Kept(old(voices[..]), old(Now()), voices[..], Now(), v, w)
    {
      hide StateOk, Partition, Driver.Plays, Kept, Settled, ReplacedDoom1, ReplacedDoom2;
      KeepsPartition();
      ghost var vs, l := voices[..], Now();
      KeptAll(vs, l);
      v, w := -1, -1;
      if double {
        w := PlayVoice(channel, instr, 1, note, key, volume);
      }
      ShapeOfValid();
      KeepsPartition();
      ghost var mid, room := voices[..], Now();
      v := SecondVoice(channel, instr, 0, note, key, volume, w, Actual(1));
      KeptTwice(vs, l, mid, room, voices[..], Now(), w, v);
      KeptSwapped(vs, l, voices[..], Now(), w, v);
      KeepsPartition();
      if v < 0 {
        v, w := w, -1;
      }
    }

    /** The driver of Doom II 1.666. */
    method KeyOnDoom2(channel: nat, instr: nat, double: bool, note: nat, key: nat, volume: nat)
      returns (ghost v: int, ghost w: int)
      requires Valid() && version == Doom2 && channel < MIDI_CHANNELS && instr < |instrs| && volume < 128
      modifies this`freeNum, this`allocedNum, this`chip, freeList, allocedList, voices
      ensures Valid() && Shape()
      ensures Now() != WIPED ==> PlayedOn(v, w, channel, instr, note, key, volume)
      ensures Now() != WIPED ==> (w >= 0 <==> double)
      ensures var room := MadeRoomDoom2(old(Now()), old(voices[..]), channel, num, double, Chained());
        Now() == NotePlayed(room, double)
      ensures Kept(old(voices[..]), old(Now()), voices[..], Now(), v, w)
      ensures old(Now()) == WIPED ==> Now() == WIPED
    {
      hide StateOk, Partition, Driver.Plays, Kept, Settled, ReplacedDoom1, ReplacedDoom2;
      KeepsPartition();
      ghost var vs, l := voices[..], Now();
      KeptAll(vs, l);
      SettledAlready(vs, l);
      if allocedNum == num {
        ReplaceExistingVoiceDoom2(channel);
      }
      KeepsPartition();
      if allocedNum == num - 1 && double {
        ghost var before, list := voices[..], Now();
        ReplaceExistingVoiceDoom2(channel);
        SameReplaced(list, vs, before, channel, Chained());
        KeptTwice(vs, l, before, list, voices[..], Now(), -1, -1);
      }
      KeepsPartition();
      ghost var mid, room := voices[..], Now();
      v, w := BothVoices(channel, instr, double, note, key, volume);
      KeptThen(vs, l, mid, room, voices[..], Now(), v, w);
    }

    // ----------------------------------------------------------------
    // Controllers
    // ----------------------------------------------------------------

    /** SetChannelVolume: every voice of the channel follows. */
    method SetChannelVolume(channel: nat, volume: nat, clipStart: bool)
      requires Valid() && channel < MIDI_CHANNELS && volume < 128
      modifies channels, this`chip, voices
      ensures Valid() && freeList[..] == old(freeList[..]) && allocedList[..] == old(allocedList[..])
      ensures
        && |old(channels[..])| == MIDI_CHANNELS
        && channels[..] == old(channels[..])[channel := old(channels[channel]).(
        volumeBase := volume, volume := Clipped(volume, musicVolume, startVolume, clipStart))]
      ensures |voices[..]| == |old(voices[..])| == num
      ensures forall v | 0 <= v < num :: voices[v] == old(voices[v]).(levels := voices[v].levels)
      ensures forall v | 0 <= v < num && voices[v].channel != channel :: voices[v] == old(voices[v])
      ensures forall v | 0 <= v < num && voices[v].channel == channel :: Follows(instrs, voices[v], channels[..])
    {
      hide Driver.Valid, Follows;
      ChangeVolume(channel, volume, Clipped(volume, musicVolume, startVolume, clipStart));
      ghost var changed := channels[..];
      ShapeOfValid();
      var i := 0;
      while i < num
        invariant 0 <= i <= num && Valid() && Shape()
        invariant
          && channels[..] == changed
          && freeList[..] == old(freeList[..])
          && allocedList[..] == old(allocedList[..])
        invariant forall v | 0 <= v < num :: voices[v] == old(voices[v]).(levels := voices[v].levels)
        invariant forall v | i <= v < num || (0 <= v < num && voices[v].channel != channel) ::
          voices[v] == old(voices[v])
        invariant forall v | 0 <= v < i && voices[v].channel == channel :: Follows(instrs, voices[v], channels[..])
        modifies this`chip, voices
      {
        if voices[i].channel == channel {
          ghost var vs := voices[..];
          UpdateVolume(i);
          OthersSame(vs, i);
        }
        i := i + 1;
      }
    }

    lemma OthersSame(vs: seq<Voice>, i: nat)
      requires Shape() && i < num && |vs| == num && voices[..] == vs[i := voices[i]]
      ensures forall v | 0 <= v < num && v != i :: voices[v] == vs[v]
    {
      forall v | 0 <= v < num && v != i ensures voices[v] == vs[v] {
        assert voices[..][v] == voices[v];
      }
    }

    method ChangeVolume(channel: nat, base: nat, volume: nat)
      requires Valid() && channel < MIDI_CHANNELS && base < 128 && volume < 128
      modifies channels
      ensures Valid() && |old(channels[..])| == MIDI_CHANNELS
      ensures channels[..] == old(channels[..])[channel :=
        old(channels[channel]).(volumeBase := base, volume := volume)]
    {
      hide StateOk;
      ghost var was, l := channels[..], Now();
      channels[channel] := channels[channel].(volumeBase := base, volume := volume);
      assert channels[..] == was[channel := was[channel].(volumeBase := base, volume := volume)];
      assert Now() == l;
    }

    /** A voice in use is set to its note's volume again. */
    method UpdateVolume(v: nat)
      requires Valid() && v < num && 0 <= voices[v].channel
      modifies this`chip, voices
      ensures Valid() && Shape() && |old(voices[..])| == num && voices[..] == old(voices[..])[v := voices[v]]
      ensures
        && voices[v] == old(voices[v]).(levels := voices[v].levels)
        && voices[v].levels.note == old(voices[v]).levels.note
      ensures Follows(instrs, voices[v], channels[..])
    {
      hide Partition, InUse, LevelsOk, OperatorsOk, CarVolume, CarLevel, ModLevel, AlwaysSet, SameElsewhere, KeyedOn;
      ghost var vs, was, l := voices[..], chip, Now();
      assert channels[voices[v].channel] == channels[..][voices[v].channel];
      SetVoiceVolume(v, voices[v].levels.note);
      assert Now() == l;
      StateUpdated(instrs, num, l, vs, was, v, voices[v], chip);
    }

    /** SetChannelPan: with one chip of two sides a new side is written for every voice of the channel. */
    method SetChannelPan(channel: nat, pan: nat)
      requires Valid() && channel < MIDI_CHANNELS && pan < 128
      modifies channels, this`chip, voices
      ensures Valid() && Now() == old(Now()) && voices.Length == |old(voices[..])| == num
      ensures |old(channels[..])| == MIDI_CHANNELS
      ensures channels[..] == old(channels[..])[channel :=
        old(channels[channel]).(pan := if opl3 then PanRegister(pan) else old(channels[channel]).pan)]
      ensures var news := channels[channel].pan != old(channels[channel]).pan;
        forall v | 0 <= v < num ::
          voices[v] == if news && voices[v].channel == channel then old(voices[v]).(regPan := PanRegister(pan))
            else old(voices[v])
      ensures channels[channel].pan != old(channels[channel]).pan ==>
        Panned(instrs, old(voices[..]), num, channel, PanRegister(pan), old(chip), chip)
      ensures channels[channel].pan == old(channels[channel]).pan ==> chip == old(chip)
    {
      hide StateOk, Panned;
      ChannelsOfVoices();
      PannedNone(instrs, voices[..], channel, PanRegister(pan), chip);
      var regPan := PanRegister(pan);
      if !opl3 || channels[channel].pan == regPan {
        assert channels[..] == old(channels[..])[channel := channels[channel]];
        return;
      }
      ghost var vs, was := voices[..], chip;
      ChangePan(channel, regPan);
      ghost var changed, l := channels[..], Now();
      assert channels[channel] == changed[channel];
      var i := 0;
      while i < num
        invariant 0 <= i <= num && Valid() && Now() == l && channels[..] == changed
        invariant forall v | 0 <= v < i ::
          voices[v] == if voices[v].channel == channel then vs[v].(regPan := regPan) else vs[v]
        invariant forall v | i <= v < num :: voices[v] == vs[v]
        invariant Panned(instrs, vs, i, channel, regPan, was, chip)
        modifies this`chip, voices
      {
        PannedNext(instrs, vs, i, channel, regPan, was, chip);
        if voices[i].channel == channel {
          ghost var before := voices[..];
          UpdatePan(i, regPan);
          OthersSame(before, i);
        }
        i := i + 1;
      }
    }

    method ChangePan(channel: nat, pan: nat)
      requires Valid() && channel < MIDI_CHANNELS
      modifies channels
      ensures Valid() && Now() == old(Now()) && |old(channels[..])| == MIDI_CHANNELS
      ensures channels[..] == old(channels[..])[channel := old(channels[channel]).(pan := pan)]
    {
      hide StateOk;
      ghost var was := channels[..];
      channels[channel] := channels[channel].(pan := pan);
      assert channels[..] == was[channel := was[channel].(pan := pan)];
    }

    method UpdatePan(v: nat, pan: nat)
      requires Valid() && v < num && 0 <= voices[v].channel
      modifies this`chip, voices
      ensures
        && Valid()
        && Shape()
        && Now() == old(Now())
        && |old(voices[..])| == num
        && voices[..] == old(voices[..])[v := voices[v]]
      ensures voices[v] == old(voices[v]).(regPan := pan)
      ensures 0 <= voices[v].instr < |instrs|
      ensures chip == old(chip)[VoiceReg(Feedback, v) := FeedbackWithPan(instrs, voices[v], pan)]
    {
      hide Partition, InUse, LevelsOk, OperatorsOk, SameElsewhere, KeyedOn;
      ghost var vs, was, l := voices[..], chip, Now();
      SetVoicePan(v, pan);
      StateUpdated(instrs, num, l, vs, was, v, voices[v], chip);
    }

    /** I_OPL_SetMusicVolume: channel 15, the percussion, takes the music volume as its own. */
    method SetMusicVolume(volume: nat)
      requires Valid() && volume < 128
      modifies channels, this`chip, this`musicVolume, voices
      ensures Valid() && musicVolume == volume && |old(channels[..])| == MIDI_CHANNELS && Now() == old(Now())
      ensures |voices[..]| == |old(voices[..])| == num
      ensures old(musicVolume) == volume ==>
        channels[..] == old(channels[..]) && voices[..] == old(voices[..]) && chip == old(chip)
      ensures forall v | 0 <= v < num :: voices[v] == old(voices[v]).(levels := voices[v].levels)
      ensures old(musicVolume) != volume ==>
        forall v | 0 <= v < num && voices[v].channel >= 0 :: Follows(instrs, voices[v], channels[..])
      ensures old(musicVolume) != volume ==> forall c | 0 <= c < MIDI_CHANNELS ::
        channels[c] == old(channels[c]).(volumeBase := if c == 15 then volume else old(channels[c]).volumeBase,
                                         volume := Clipped(if c == 15 then volume else old(channels[c]).volumeBase,
                                           volume, 0, false))
    {
      hide StateOk, Follows;
      ChannelsOfVoices();
      if musicVolume == volume {
        return;
      }
      musicVolume := volume;
      ghost var was := channels[..];
      var i := 0;
      while i < MIDI_CHANNELS
        invariant 0 <= i <= MIDI_CHANNELS && Valid() && musicVolume == volume && Now() == old(Now())
        invariant |voices[..]| == num
        invariant forall v | 0 <= v < num :: voices[v] == old(voices[v]).(levels := voices[v].levels)
        invariant forall v | 0 <= v < num && 0 <= voices[v].channel < i :: Follows(instrs, voices[v], channels[..])
        invariant forall c | i <= c < MIDI_CHANNELS :: channels[c] == was[c]
        invariant forall c | 0 <= c < i ::
          channels[c] == was[c].(volumeBase := if c == 15 then volume else was[c].volumeBase,
                                         volume := Clipped(if c == 15 then volume else was[c].volumeBase, volume, 0,
                                           false))
        modifies channels, this`chip, voices
      {
        assert channels[i] == channels[..][i];
        ghost var before, vs := channels[..], voices[..];
        SetChannelVolume(i, if i == 15 then volume else channels[i].volumeBase, false);
        assert forall c | 0 <= c < MIDI_CHANNELS :: channels[c] == channels[..][c];
        forall v | 0 <= v < num && 0 <= voices[v].channel < i ensures Follows(instrs, voices[v], channels[..]) {
          assert voices[v] == vs[v];
          FollowsElsewhere(instrs, voices[v], before, channels[..], i);
        }
        i := i + 1;
      }
    }

    lemma ChannelsOfVoices()
      requires Valid()
      ensures |voices[..]| == num && forall v | 0 <= v < num :: voices[v].channel < MIDI_CHANNELS
      ensures forall v | 0 <= v < num && voices[v].channel >= 0 :: 0 <= voices[v].instr < |instrs|
    {
      hide LevelsOk, OperatorsOk;
      assert forall v | 0 <= v < num :: VoiceOk(instrs, v, voices[..][v], chip) && Assigned(voices[..][v]);
    }

    /** PitchBendEvent: the voices of the channel are retuned, and move behind the others. */
    method PitchBendEvent(midiChannel: nat, param2: nat)
      requires Valid() && midiChannel < MIDI_CHANNELS && param2 < 128
      modifies channels, this`chip, voices, allocedList
      ensures Valid() && Now() == Bent(old(Now()), old(voices[..]), Query(TrackChannel(midiChannel), -1))
      ensures |old(channels[..])| == MIDI_CHANNELS && voices.Length == |old(voices[..])| == num
      ensures channels[..] == old(channels[..])[TrackChannel(midiChannel) :=
        old(channels[TrackChannel(midiChannel)]).(bend := param2 - 64)]
      ensures forall v | 0 <= v < num :: voices[v] == old(voices[v]).(freq := voices[v].freq)
      ensures forall v | 0 <= v < num && voices[v].channel != TrackChannel(midiChannel) :: voices[v] == old(voices[v])
      ensures SameButFrequencies(old(chip), chip, old(voices[..]), TrackChannel(midiChannel))
      ensures forall v | v in old(Now()).alloced && v < num && old(voices[v]).channel == TrackChannel(midiChannel) ::
        Tuned(curve, instrs, voices[v], param2 - 64)
    {
      hide StateOk, Matches, Tuned, SameButFrequencies, FrequencyOfVoice;
      var channel := TrackChannel(midiChannel);
      ghost var l, vs, q := Now(), voices[..], Query(channel, -1);
      SetBend(channel, param2 - 64);
      ghost var a := Now().alloced;
      var notUpdated, updated := RetuneChannel(channel);
      SplitMembers(a, vs, q);
      StateReordered(instrs, num, l, voices[..], chip, q);
      SameSplit(a, vs, voices[..], q);
      CopyBack(notUpdated + updated);
      assert Now() == Bent(l, vs, q);
    }

    /** The first loop of PitchBendEvent. */
    method RetuneChannel(channel: nat) returns (notUpdated: seq<nat>, updated: seq<nat>)
      requires Valid() && channel < MIDI_CHANNELS
      modifies this`chip, voices
      ensures Valid() && Now() == old(Now()) && |voices[..]| == |old(voices[..])| == num
      ensures updated == Matching(Now().alloced, old(voices[..]), Query(channel, -1))
      ensures notUpdated == Others(Now().alloced, old(voices[..]), Query(channel, -1))
      ensures forall v | 0 <= v < num :: voices[v] == old(voices[v]).(freq := voices[v].freq)
      ensures forall v | 0 <= v < num && voices[v].channel != channel :: voices[v] == old(voices[v])
      ensures SameButFrequencies(old(chip), chip, old(voices[..]), channel)
      ensures forall v | v in Now().alloced && v < num && old(voices[v]).channel == channel ::
        Tuned(curve, instrs, voices[v], channels[channel].bend)
    {
      hide StateOk, Matches, Tuned, SameButFrequencies, FrequencyOfVoice, Read;
      ghost var l, vs, q := Now(), voices[..], Query(channel, -1);
      FrequenciesSame(chip, vs, channel);
      updated, notUpdated := [], [];
      var i := 0;
      ghost var a := Now().alloced;
      while i < allocedNum
        invariant 0 <= i <= allocedNum && Valid() && Now() == l && |voices[..]| == |vs|
        invariant forall v | 0 <= v < num :: voices[v] == vs[v].(freq := voices[v].freq)
        invariant forall v | 0 <= v < num && voices[v].channel != channel :: voices[v] == vs[v]
        invariant SameButFrequencies(old(chip), chip, vs, channel)
        invariant updated == Matching(a[..i], vs, q) && notUpdated == Others(a[..i], vs, q)
        invariant forall v | v in updated :: v < num && Tuned(curve, instrs, voices[v], channels[channel].bend)
        modifies this`chip, voices
      {
        AllocatedVoices(instrs, num, l, voices[..], chip);
        assert allocedList[i] == a[i] && a[i] in a;
        SplitNext(a, i, vs, channel);
        if voices[allocedList[i]].channel == channel {
          ghost var before, tones := voices[..], chip;
          Retune(allocedList[i]);
          FrequenciesNext(old(chip), tones, chip, vs, channel, a[i]);
          OthersSame(before, a[i]);
          updated := updated + [allocedList[i]];
        } else {
          notUpdated := notUpdated + [allocedList[i]];
        }
        i := i + 1;
      }
      assert a[..allocedNum] == a;
      MembersOfChannel(a, vs, channel);
    }

    /** The two copy loops of PitchBendEvent. */
    method CopyBack(order: seq<nat>)
      requires Shape() && |order| == allocedNum
      modifies allocedList
      ensures Shape() && Now() == Lists(old(Now()).free, order)
    {
      ghost var free := freeList[..freeNum];
      var i := 0;
      while i < allocedNum
        invariant 0 <= i <= allocedNum
        invariant forall k | 0 <= k < i :: allocedList[k] == order[k]
        invariant freeList[..freeNum] == free
        modifies allocedList
      {
        allocedList[i] := order[i];
        i := i + 1;
      }
      assert allocedList[..allocedNum] == order;
    }

    method SetBend(channel: nat, bend: int)
      requires Valid() && channel < MIDI_CHANNELS && -64 <= bend < 64
      modifies channels
      ensures Valid() && Now() == old(Now()) && |old(channels[..])| == MIDI_CHANNELS
      ensures channels[..] == old(channels[..])[channel := old(channels[channel]).(bend := bend)]
    {
      hide StateOk;
      ghost var was := channels[..];
      channels[channel] := channels[channel].(bend := bend);
      assert channels[..] == was[channel := was[channel].(bend := bend)];
    }

    method Retune(v: nat)
      requires Valid() && v < num && 0 <= voices[v].channel
      modifies this`chip, voices
      ensures Valid() && |old(voices[..])| == num && voices[..] == old(voices[..])[v := voices[v]]
      ensures voices[v] == old(voices[v]).(freq := voices[v].freq)
      ensures forall r: Reg | !FrequencyOfVoice(r, v) :: Read(chip, r) == Read(old(chip), r)
      ensures
        && Shape()
        && voices[v].channel < MIDI_CHANNELS
        && Tuned(curve, instrs, voices[v], channels[voices[v].channel].bend)
    {
      hide Partition, InUse, LevelsOk, OperatorsOk, SameElsewhere, KeyedOn, FrequencyOf;
      ghost var vs, was, l := voices[..], chip, Now();
      FrequencyIgnoresFreq(curve, instrs[voices[v].instr], voices[v], channels[voices[v].channel].bend);
      UpdateVoiceFrequency(v);
      assert Now() == l;
      StateUpdated(instrs, num, l, vs, was, v, voices[v], chip);
    }

    /** What I_OPL_PlaySong and RestartSong do to the channels; voices that sound are not told. */
    method ResetChannels()
      requires Valid()
      modifies channels, this`startVolume
      ensures Valid() && Now() == old(Now()) && startVolume == musicVolume
      ensures
        && channels.Length == MIDI_CHANNELS
        && forall c | 0 <= c < MIDI_CHANNELS :: channels[c] == InitialChannel(musicVolume)
    {
      hide StateOk;
      startVolume := musicVolume;
      var i := 0;
      while i < MIDI_CHANNELS
        invariant 0 <= i <= MIDI_CHANNELS && Valid() && Now() == old(Now())
        invariant forall c | 0 <= c < i :: channels[c] == InitialChannel(musicVolume)
        modifies channels
      {
        ghost var was := channels[..];
        channels[i] := InitialChannel(musicVolume);
        assert channels[..] == was[i := InitialChannel(musicVolume)];
        i := i + 1;
      }
    }

    /** ProgramChangeEvent: voices that play already keep their instrument. */
    method ProgramChangeEvent(midiChannel: nat, program: nat)
      requires Valid() && midiChannel < MIDI_CHANNELS && program < GENMIDI_NUM_INSTRS
      modifies channels
      ensures Valid() && Now() == old(Now()) && |old(channels[..])| == MIDI_CHANNELS
      ensures channels[..] == old(channels[..])[TrackChannel(midiChannel) :=
        old(channels[TrackChannel(midiChannel)]).(instrument := program)]
    {
      hide StateOk;
      ghost var was := channels[..];
      var c := TrackChannel(midiChannel);
      channels[c] := channels[c].(instrument := program);
      assert channels[..] == was[c := was[c].(instrument := program)];
    }

    /** I_OPL_PauseSong: the voices fall silent, except the percussion, and stay allocated. */
    method PauseSong()
      requires Valid()
      modifies this`chip
      ensures Valid() && voices.Length == num
      ensures forall v | 0 <= v < num && voices[v].channel >= 0 && voices[v].instr < GENMIDI_NUM_INSTRS ::
        !KeyedOn(chip, v)
      ensures forall v | 0 <= v < num :: KeyedOn(chip, v) ==> KeyedOn(old(chip), v)
      ensures forall r: Reg ::
        Read(chip, r) == if r == VoiceReg(Freq2, r.v) && r.v < num && Melodic(voices[r.v]) then voices[r.v].freq / 0x100
        else Read(old(chip), r)
    {
      hide StateOk, Partition, KeyedOn, SameElsewhere;
      var i := 0;
      while i < num
        invariant 0 <= i <= num && Valid()
        invariant forall v | 0 <= v < i && voices[v].channel >= 0 && voices[v].instr < GENMIDI_NUM_INSTRS ::
          !KeyedOn(chip, v)
        invariant forall v | 0 <= v < num :: KeyedOn(chip, v) ==> KeyedOn(old(chip), v)
        invariant forall r: Reg ::
          Read(chip, r) == if r == VoiceReg(Freq2, r.v) && r.v < i && Melodic(voices[r.v]) then voices[r.v].freq / 0x100
          else Read(old(chip), r)
        modifies this`chip
      {
        if voices[i].channel >= 0 && voices[i].instr < GENMIDI_NUM_INSTRS {
          Silence(i);
        }
        i := i + 1;
      }
    }

    method Silence(v: nat)
      requires Valid() && v < num && voices[v].channel >= 0
      modifies this`chip
      ensures Valid() && !KeyedOn(chip, v)
      ensures chip == old(chip)[VoiceReg(Freq2, v) := voices[v].freq / 0x100]
      ensures forall w | 0 <= w < num && w != v :: KeyedOn(chip, w) == KeyedOn(old(chip), w)
    {
      hide Partition, InUse, LevelsOk, OperatorsOk;
      ghost var was := chip;
      VoiceKeyOff(v);
      VoiceOkKeyed(instrs, v, voices[v], was, voices[v].freq / 0x100);
      StateUpdated(instrs, num, Now(), voices[..], was, v, voices[v], chip);
      assert voices[..][v := voices[v]] == voices[..];
      forall w | 0 <= w < num && w != v ensures KeyedOn(chip, w) == KeyedOn(was, w) {}
    }

    /** I_OPL_StopSong: every driver ends with no voice allocated. */
    method StopSong()
      requires Valid()
      modifies this`freeNum, this`allocedNum, this`chip, freeList, allocedList, voices
      ensures Valid() && Now().alloced == []
      ensures version == Doom19 && old(Now()) != WIPED ==> Partition(Now(), num)
    {
      hide StateOk, Partition;
      KeepsPartition();
      var i := 0;
      while i < MIDI_CHANNELS
        invariant 0 <= i <= MIDI_CHANNELS && Valid()
        invariant forall v | v in Now().alloced && v < |voices[..]| :: !(0 <= voices[..][v].channel < i)
        invariant version == Doom19 && old(Now()) != WIPED ==> Partition(Now(), num)
      {
        StopChannel(i);
        i := i + 1;
      }
      NobodyLeft(instrs, num, Now(), voices[..], chip);
    }

    method StopChannel(channel: nat)
      requires Valid() && channel < MIDI_CHANNELS
      requires forall v | v in Now().alloced && v < |voices[..]| :: !(0 <= voices[..][v].channel < channel)
      modifies this`freeNum, this`allocedNum, this`chip, freeList, allocedList, voices
      ensures Valid()
      ensures forall v | v in Now().alloced && v < |voices[..]| :: !(0 <= voices[..][v].channel < channel + 1)
      ensures version == Doom19 && Partition(old(Now()), num) ==> Partition(Now(), num)
    {
      hide StateOk, Partition;
      ghost var l, vs, q := Now(), voices[..], Query(channel, -1);
      SweptClean(l, 0, vs, q, Chained());
      SweptMembers(l, 0, vs, q, Chained());
      if Partition(l, num) { SweptKeeps(l, 0, vs, q, Chained(), num); }
      Sweep(Query(channel, -1));
    }
  }

  /** The frequency of a voice is that of its note, bent. */
  /** Loaded, at the right levels, and keyed at the right frequency: registers and shadows of a voice that plays. */
  ghost predicate SoundsAs(curve: nat -> nat, instrs: seq<Instrument>, ch: ChannelData, chip: Chip, v: nat, x: Voice,
    channel: nat, instr: nat, instrVoice: nat, note: nat, key: nat, volume: nat)
  {
    && instr < |instrs| && volume < 128 && ch.volume < 128
    && var d, c := DataOf(instrs[instr], instrVoice), CarVolume(volume, ch.volume);
    && x.channel == channel && x.key == key && x.instr == instr && x.instrVoice == instrVoice
    && x.note == (if instrs[instr].fixedPitch then instrs[instr].fixedNote else note)
    && x.levels == Levels(volume, CarLevel(d, c), ModLevel(d, c)) && LevelsOk(d, v, x.levels, chip)
    && OperatorsOk(d, v, chip)
    && x.freq == FrequencyOf(curve, instrs[instr], x, ch.bend)
    && Read(chip, VoiceReg(Freq1, v)) == x.freq % 0x100 && Read(chip, VoiceReg(Freq2, v)) == x.freq / 0x100 + 0x20
  }

  /** A note goes on when another voice is programmed. */
  lemma SoundsElsewhere(curve: nat -> nat, instrs: seq<Instrument>, ch: ChannelData, before: Chip, after: Chip, w: nat,
    v: nat, x: Voice, channel: nat, instr: nat, instrVoice: nat, note: nat, key: nat, volume: nat)
    requires SoundsAs(curve, instrs, ch, before, v, x, channel, instr, instrVoice, note, key, volume)
    requires SameElsewhere(before, after, w) && w != v
    ensures SoundsAs(curve, instrs, ch, after, v, x, channel, instr, instrVoice, note, key, volume)
    ensures KeyedOn(after, v) == KeyedOn(before, v)
  {
    hide CarVolume, CarLevel, ModLevel, FrequencyOf;
  }

  /** The feedback register after a voice is given an instrument: if it had it before, the side is not written. */
  ghost function SideAfter(x: Voice, chip: Chip, v: nat, instrs: seq<Instrument>, instr: nat, instrVoice: nat, pan: nat)
    : nat
    requires instr < |instrs|
  {
    if x.instr == instr && x.instrVoice == instrVoice then Read(chip, VoiceReg(Feedback, v))
    else OrPan(DataOf(instrs[instr], instrVoice).feedback, pan)
  }

  lemma LevelsKeepSide(chip: Chip, d: InstrVoice, v: nat, c: nat)
    ensures Read(AlwaysSet(chip, d, v, c), VoiceReg(Feedback, v)) == Read(chip, VoiceReg(Feedback, v))
  {}

  predicate FrequencyOfVoice(r: Reg, v: nat) {
    r == VoiceReg(Freq1, v) || r == VoiceReg(Freq2, v)
  }

  /** Only frequency registers change, and only of voices that play for the channel. */
  ghost predicate SameButFrequencies(before: Chip, after: Chip, vs: seq<Voice>, channel: nat) {
    forall r: Reg | !(r.v < |vs| && vs[r.v].channel == channel && FrequencyOfVoice(r, r.v)) ::
      Read(after, r) == Read(before, r)
  }

  lemma FrequenciesSame(chip: Chip, vs: seq<Voice>, channel: nat)
    ensures SameButFrequencies(chip, chip, vs, channel)
  {}

  lemma FrequenciesNext(first: Chip, before: Chip, after: Chip, vs: seq<Voice>, channel: nat, v: nat)
    requires SameButFrequencies(first, before, vs, channel) && v < |vs| && vs[v].channel == channel
    requires forall r: Reg | !FrequencyOfVoice(r, v) :: Read(after, r) == Read(before, r)
    ensures SameButFrequencies(first, after, vs, channel)
  {
    hide Read;
  }

  ghost predicate Tuned(curve: nat -> nat, instrs: seq<Instrument>, x: Voice, bend: int) {
    0 <= x.instr < |instrs| && x.freq == FrequencyOf(curve, instrs[x.instr], x, bend)
  }

  /** A change of another channel does not matter to the levels of a voice. */
  lemma FollowsElsewhere(instrs: seq<Instrument>, x: Voice, before: seq<ChannelData>, after: seq<ChannelData>, c: nat)
    requires Follows(instrs, x, before) && ValidChannels(after) && c < |before| == |after| && x.channel != c
    requires after == before[c := after[c]]
    ensures Follows(instrs, x, after)
  {}

  /** The levels of a voice are those of its note and of its channel. */
  ghost predicate Follows(instrs: seq<Instrument>, x: Voice, channels: seq<ChannelData>) {
    && ValidChannels(channels) && 0 <= x.channel < MIDI_CHANNELS && 0 <= x.instr < |instrs| && x.levels.note < 128
    && var d, c := DataOf(instrs[x.instr], x.instrVoice), CarVolume(x.levels.note, channels[x.channel].volume);
    x.levels == Levels(x.levels.note, CarLevel(d, c), ModLevel(d, c))
  }

  function Minus(x: nat, y: nat): nat { if x < y then 0 else x - y }

  /** A voice that plays for a channel, and no percussion. */
  predicate Melodic(x: Voice) { x.channel >= 0 && x.instr < GENMIDI_NUM_INSTRS }

  function FeedbackWithPan(instrs: seq<Instrument>, x: Voice, pan: nat): nat
    requires 0 <= x.instr < |instrs|
  {
    OrPan(DataOf(instrs[x.instr], x.instrVoice).feedback, pan)
  }

  /** The first n voices, if they play for the channel, have a new side in their registers; nothing else changes. */
  ghost predicate Panned(instrs: seq<Instrument>, vs: seq<Voice>, n: nat, channel: nat, pan: nat, before: Chip,
    after: Chip)
  {
    && n <= |vs| && (forall v | 0 <= v < |vs| && vs[v].channel == channel :: 0 <= vs[v].instr < |instrs|)
    && forall r: Reg ::
      Read(after, r) ==
        if r == VoiceReg(Feedback, r.v) && r.v < n && vs[r.v].channel == channel
        then FeedbackWithPan(instrs, vs[r.v], pan) else Read(before, r)
  }

  lemma PannedNone(instrs: seq<Instrument>, vs: seq<Voice>, channel: nat, pan: nat, chip: Chip)
    requires forall v | 0 <= v < |vs| && vs[v].channel == channel :: 0 <= vs[v].instr < |instrs|
    ensures Panned(instrs, vs, 0, channel, pan, chip, chip)
  {}

  lemma PannedNext(instrs: seq<Instrument>, vs: seq<Voice>, i: nat, channel: nat, pan: nat, before: Chip, after: Chip)
    requires Panned(instrs, vs, i, channel, pan, before, after) && i < |vs|
    ensures vs[i].channel != channel ==> Panned(instrs, vs, i + 1, channel, pan, before, after)
    ensures vs[i].channel == channel ==>
      && 0 <= vs[i].instr < |instrs|
      && var next := after[VoiceReg(Feedback, i) := FeedbackWithPan(instrs, vs[i], pan)];
        Panned(instrs, vs, i + 1, channel, pan, before, next)
  {
    hide FeedbackWithPan;
  }

  /** The bits of the feedback register for a pan of MIDI, reversed as the driver does. */
  function PanRegister(pan: nat): nat
    requires pan < 128
  {
    var reversed := 144 - pan;
    if reversed >= 96 then 0x10 else if reversed <= 48 then 0x20 else 0x30
  }

  function Clipped(volume: nat, music: nat, start: nat, clipStart: bool): nat {
    var v := if volume > music then music else volume;
    if clipStart && v > start then start else v
  }

  /** InitChannel. */
  function InitialChannel(musicVolume: nat): ChannelData {
    ChannelData(0, if musicVolume > 100 then 100 else musicVolume, 100, 0x30, 0)
  }

  /** A program change decides the instrument of the notes that follow on the channel. */
  method ProgramThenKey(driver: Driver, midiChannel: nat, program: nat, key: nat, volume: nat)
    returns (ghost v: int, ghost w: int)
    requires driver.Valid() && midiChannel < MIDI_CHANNELS && midiChannel != 9 && program < GENMIDI_NUM_INSTRS
    requires key < 128 && 0 < volume < 128
    modifies driver`freeNum, driver`allocedNum, driver`chip
    modifies driver.channels, driver.freeList, driver.allocedList, driver.voices
    ensures driver.Valid() && driver.Shape()
    ensures driver.Now() != WIPED ==>
      driver.PlayedOn(v, w, TrackChannel(midiChannel), program, key, key, volume)
  {
    hide Driver.PlayedOn, StateOk;
    driver.ProgramChangeEvent(midiChannel, program);
    driver.ShapeOfValid();
    v, w := driver.KeyOnEvent(midiChannel, key, volume);
  }

  /** A voice that is given the instrument it has sounds on the side of its last note, whatever the channel says. */
  lemma SideIsRight(x: Voice, chip: Chip, v: nat, instrs: seq<Instrument>, instr: nat, instrVoice: nat, pan: nat)
    requires instr < |instrs|
    ensures var right := OrPan(DataOf(instrs[instr], instrVoice).feedback, pan);
      SideAfter(x, chip, v, instrs, instr, instrVoice, pan) == right <==>
        x.instr != instr || x.instrVoice != instrVoice || Read(chip, VoiceReg(Feedback, v)) == right
  {}

  /** The left side is kept on a channel that is set to the right one. */
  lemma StaleSide(instrs: seq<Instrument>)
    requires |instrs| > 0 && instrs[0].first.feedback == 0
    ensures var x := NO_VOICE.(instr := 0);
      && SideAfter(x, map[VoiceReg(Feedback, 0) := 0x20], 0, instrs, 0, 0, 0x10) == 0x20
      && OrPan(instrs[0].first.feedback, 0x10) == 0x10
  {}
}
