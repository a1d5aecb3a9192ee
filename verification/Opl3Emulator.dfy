/**
  opl/opl3.c as its callers see it: the chip behind the ring of register writes. What they write
  reaches the chip between its samples.
 */
module Opl3Emulator {
  import C = Opl3Chip
  import B = Opl3WriteBuffer

  /** What a caller does: OPL3_WriteRegBuffered or OPL3_Generate. */
  datatype Command = Issue(reg: bv16, data: bv8) | Sample

  function Issued(commands: seq<Command>): seq<B.Write> {
    if commands == [] then []
    else
      var c := commands[|commands| - 1];
      Issued(commands[..|commands| - 1]) + if c.Issue? then [B.Masked(c.reg, c.data)] else []
  }

  /** The number of samples that the caller asks for. */
  function Asked(commands: seq<Command>): nat {
    if commands == [] then 0
    else Asked(commands[..|commands| - 1]) + if commands[|commands| - 1].Sample? then 1 else 0
  }

  /** A register write as a command to the chip. */
  function ToChip(w: B.Write): C.Command { C.Write(w.reg as nat, w.data as nat) }

  /** What the chip has got is an interleaving of these writes, in their order, and so many samples. */
  ghost predicate Interleaves(history: seq<C.Command>, writes: seq<B.Write>, samples: nat)
    decreases |history|
  {
    if history == [] then writes == [] && samples == 0
    else
      var n := |history| - 1;
      || (writes != [] && history[n] == ToChip(writes[|writes| - 1])
          && Interleaves(history[..n], writes[..|writes| - 1], samples))
      || (samples > 0 && history[n].Sample? && Interleaves(history[..n], writes, samples - 1))
  }

  lemma OneMoreWrite(history: seq<C.Command>, writes: seq<B.Write>, samples: nat, w: B.Write)
    requires Interleaves(history, writes, samples)
    ensures Interleaves(history + [ToChip(w)], writes + [w], samples)
  {
    var next := history + [ToChip(w)];
    assert next[..|history|] == history && (writes + [w])[..|writes|] == writes;
  }

  lemma OneMoreSample(history: seq<C.Command>, writes: seq<B.Write>, samples: nat)
    requires Interleaves(history, writes, samples)
    ensures Interleaves(history + [C.Sample], writes, samples + 1)
  {
    var next := history + [C.Sample];
    assert next[..|history|] == history;
  }

  /** The chip accepts what comes out of the ring. */
  lemma MaskedIsAddress(reg: bv16)
    ensures (reg & 0x1ff) as nat < 0x200
  {}

  class Emulator {
    const chip: C.Chip
    const buffer: B.WriteBuffer

    ghost var samples: nat

    constructor ()
      ensures Valid() && chip.history == [] && samples == 0 && buffer.issued == [] && buffer.applied == []
      ensures fresh(chip) && fresh(buffer) && fresh(buffer.writebuf)
    {
      chip := new C.Chip();
      buffer := new B.WriteBuffer();
      samples := 0;
    }

    ghost predicate Valid()
      reads this, chip, buffer, buffer.writebuf
    {
      chip.Valid() && buffer.Valid() && Interleaves(chip.history, buffer.applied, samples)
    }

    /** OPL3_WriteRegBuffered. */
    method WriteRegBuffered(reg: bv16, data: bv8)
      requires Valid()
      modifies chip, buffer, buffer.writebuf
      ensures Valid() && old(chip.history) <= chip.history
      ensures samples == old(samples) && buffer.issued == old(buffer.issued) + [B.Masked(reg, data)]
    {
      hide C.Chip.Valid, B.WriteBuffer.Valid, Interleaves, B.Masked;
      var n := |buffer.applied|;
      buffer.WriteRegBuffered(reg, data);
      Deliver(n);
    }

    /** OPL3_Generate. */
    method Generate() returns (left: int, right: int)
      requires Valid()
      modifies this`samples, chip, buffer, buffer.writebuf
      ensures Valid() && old(chip.history) <= chip.history
      ensures left == C.ClipSample(chip.mixLeft) && right == C.ClipSample(old(chip.mixRight))
      ensures samples == old(samples) + 1 && buffer.issued == old(buffer.issued)
    {
      hide C.Chip.Valid, B.WriteBuffer.Valid, Interleaves, B.Masked, C.Stage, C.Mix;
      OneMoreSample(chip.history, buffer.applied, samples);
      left, right := Sample();
      samples := samples + 1;
      var n := |buffer.applied|;
      buffer.Drain();
      Deliver(n);
    }

    method Sample() returns (left: int, right: int)
      requires chip.Valid()
      modifies chip
      ensures chip.Valid() && chip.history == old(chip.history) + [C.Sample]
      ensures left == C.ClipSample(chip.mixLeft) && right == C.ClipSample(old(chip.mixRight))
    {
      hide *;
      left, right := chip.Generate();
    }

    method Send(w: B.Write)
      requires chip.Valid() && w.reg as nat < 0x200
      modifies chip
      ensures chip.Valid() && chip.mixLeft == old(chip.mixLeft)
      ensures chip.history == old(chip.history) + [C.Write(w.reg as nat, w.data as nat)]
    {
      hide *;
      chip.WriteReg(w.reg as nat, w.data as nat);
    }

    /** What the ring has let go reaches the chip. */
    method Deliver(n: nat)
      requires chip.Valid() && buffer.Valid() && n <= |buffer.applied| <= n + 1
      requires |buffer.applied| > n ==> exists slot: B.BufferSlot :: buffer.applied[n] == B.WriteOf(slot)
      requires Interleaves(chip.history, buffer.applied[..n], samples)
      modifies chip
      ensures Valid() && old(chip.history) <= chip.history && chip.mixLeft == old(chip.mixLeft)
    {
      hide C.Chip.Valid, B.WriteBuffer.Valid, Interleaves;
      if |buffer.applied| > n {
        var w := buffer.applied[n];
        ghost var slot: B.BufferSlot :| w == B.WriteOf(slot);
        MaskedIsAddress(slot.reg);
        OneMoreWrite(chip.history, buffer.applied[..n], samples, w);
        Send(w);
        assert buffer.applied == buffer.applied[..n] + [w];
      } else {
        assert buffer.applied == buffer.applied[..n];
      }
    }
  }

  // ------------------------------------------------------------------
  // Runs
  // ------------------------------------------------------------------

  /** After the commands the chip has got all samples, and all writes but at most as many as the ring holds. */
  ghost predicate Follows(history: seq<C.Command>, commands: seq<Command>) {
    exists writes ::
      && Interleaves(history, writes, Asked(commands)) && writes <= Issued(commands)
      && |Issued(commands)| - |writes| <= B.OPL_WRITEBUF_SIZE
  }

  /**
    Any writes and samples from a reset: at every time of the run the chip has got the samples asked
    for and, between them, the oldest of the writes issued by then, in order and each once. All its
    levels, outputs and pointers stay in bounds.
   */
  method Run(commands: seq<Command>) returns (emulator: Emulator, ghost marks: seq<nat>)
    ensures emulator.Valid() && C.Bounded(emulator.chip.slot, emulator.chip.channel)
    ensures |marks| == |commands| + 1 && marks[|commands|] == |emulator.chip.history|
    ensures forall n | 0 <= n <= |commands| ::
      marks[n] <= |emulator.chip.history| && Follows(emulator.chip.history[..marks[n]], commands[..n])
  {
    hide Interleaves, Follows, Emulator.Valid, C.Bounded, B.Masked;
    emulator := new Emulator();
    StartFollows(emulator);
    marks := [0];
    var i := 0;
    while i < |commands|
      invariant 0 <= i <= |commands| && emulator.Valid()
      invariant fresh(emulator) && fresh(emulator.chip) && fresh(emulator.buffer) && fresh(emulator.buffer.writebuf)
      invariant emulator.samples == Asked(commands[..i]) && emulator.buffer.issued == Issued(commands[..i])
      invariant |marks| == i + 1 && marks[i] == |emulator.chip.history|
      invariant forall n | 0 <= n <= i ::
        marks[n] <= |emulator.chip.history| && Follows(emulator.chip.history[..marks[n]], commands[..n])
    {
      ghost var before := emulator.chip.history;
      assert commands[..i + 1][..i] == commands[..i];
      match commands[i] {
        case Issue(reg, data) => emulator.WriteRegBuffered(reg, data);
        case Sample => var _, _ := emulator.Generate();
      }
      FollowsNow(emulator, commands[..i + 1]);
      forall n | 0 <= n <= i ensures emulator.chip.history[..marks[n]] == before[..marks[n]] {}
      assert emulator.chip.history[..|emulator.chip.history|] == emulator.chip.history;
      marks := marks + [|emulator.chip.history|];
      i := i + 1;
    }
    BoundedNow(emulator);
  }

  lemma StartFollows(e: Emulator)
    requires e.chip.history == []
    ensures Follows(e.chip.history[..0], [])
  {
    assert Interleaves(e.chip.history[..0], [], Asked([]));
  }

  lemma FollowsNow(e: Emulator, commands: seq<Command>)
    requires e.Valid() && e.samples == Asked(commands) && e.buffer.issued == Issued(commands)
    ensures Follows(e.chip.history, commands)
  {
    hide Interleaves, Asked, Issued, B.Ring, B.WritesOf, C.Chip.Valid;
    e.buffer.FullAtLastNow();
    B.PendingCount(e.buffer.pending);
  }

  lemma BoundedNow(e: Emulator)
    requires e.Valid()
    ensures C.Bounded(e.chip.slot, e.chip.channel)
  {
    e.chip.WiringNow();
    C.ValidIsBounded(e.chip.slot, e.chip.channel);
  }
}
