/**
  opl/opl3.c: the ring of register writes that wait for their sample. A write that finds the
  ring full pushes out the oldest one.
 */
module Opl3WriteBuffer {

  const OPL_WRITEBUF_SIZE := 1024
  const OPL_WRITEBUF_DELAY := 2

  /** A register write as the chip gets it. */
  datatype Write = Write(reg: bv16, data: bv8)

  /** opl3_writebuf; bit 9 of reg marks a slot that waits. */
  datatype BufferSlot = BufferSlot(time: nat, reg: bv16, data: bv8)

  predicate Waiting(slot: BufferSlot) { slot.reg & 0x200 != 0 }

  function Masked(reg: bv16, data: bv8): Write { Write(reg & 0x1ff, data) }

  function WriteOf(slot: BufferSlot): Write { Masked(slot.reg, slot.data) }

  /** The slot with its mark taken off. */
  function Cleared(slot: BufferSlot): BufferSlot { slot.(reg := slot.reg & 0x1ff) }

  lemma ClearFlag(slot: BufferSlot)
    ensures !Waiting(Cleared(slot)) && Masked(Cleared(slot).reg, slot.data) == WriteOf(slot)
  {}

  /** Slot k of the ring, counted from index start. */
  function At(start: nat, k: nat): nat {
    (start + k) % OPL_WRITEBUF_SIZE
  }

  function WritesOf(pending: seq<BufferSlot>): seq<Write> {
    seq(|pending|, i requires 0 <= i < |pending| => WriteOf(pending[i]))
  }

  /** Times go up by at least the delay from one pending write to the next, and none lies before now. */
  ghost predicate Timed(pending: seq<BufferSlot>, now: nat, lastTime: nat) {
    && (forall i | 0 <= i < |pending| :: now <= pending[i].time)
    && (forall i, j | 0 <= i < j < |pending| :: pending[i].time + OPL_WRITEBUF_DELAY <= pending[j].time)
    && (forall i | 0 <= i < |pending| :: pending[i].time <= lastTime)
  }

  /** The waiting slots are those from cur up to last, and hold the pending writes. */
  ghost predicate Ring(buf: seq<BufferSlot>, cur: nat, last: nat, pending: seq<BufferSlot>) {
    && |buf| == OPL_WRITEBUF_SIZE && cur < OPL_WRITEBUF_SIZE && |pending| <= OPL_WRITEBUF_SIZE
    && last == At(cur, |pending|)
    && (forall k | 0 <= k < |pending| :: buf[At(cur, k)] == pending[k] && Waiting(pending[k]))
    && (forall k | |pending| <= k < OPL_WRITEBUF_SIZE :: !Waiting(buf[At(cur, k)]))
  }

  lemma AtDistinct(start: nat, j: nat, k: nat)
    requires j < OPL_WRITEBUF_SIZE && k < OPL_WRITEBUF_SIZE
    ensures At(start, j) == At(start, k) ==> j == k
  {}

  lemma AtNext(start: nat, k: nat)
    ensures At(At(start, 1), k) == At(start, k + 1)
  {}

  /** The slot at last waits exactly when the ring is full, and then it is the oldest. */
  lemma FullAtLast(buf: seq<BufferSlot>, cur: nat, last: nat, pending: seq<BufferSlot>)
    requires Ring(buf, cur, last, pending)
    ensures Waiting(buf[last]) <==> |pending| == OPL_WRITEBUF_SIZE
    ensures Waiting(buf[last]) ==> last == cur && buf[last] == pending[0]
  {
    if |pending| == OPL_WRITEBUF_SIZE {
      assert At(cur, 0) == cur;
    }
  }

  /** The slot at cur waits exactly when something is pending, and then it is the oldest. */
  lemma FirstAtCur(buf: seq<BufferSlot>, cur: nat, last: nat, pending: seq<BufferSlot>)
    requires Ring(buf, cur, last, pending)
    ensures |buf| == OPL_WRITEBUF_SIZE && cur < OPL_WRITEBUF_SIZE
    ensures Waiting(buf[cur]) <==> |pending| > 0
    ensures |pending| > 0 ==> buf[cur] == pending[0]
  {
    assert At(cur, 0) == cur;
  }

  /** A write takes the empty slot at last. */
  lemma RingStore(buf: seq<BufferSlot>, cur: nat, last: nat, pending: seq<BufferSlot>, slot: BufferSlot)
    requires Ring(buf, cur, last, pending) && |pending| < OPL_WRITEBUF_SIZE && Waiting(slot)
    ensures Ring(buf[last := slot], cur, At(last, 1), pending + [slot])
  {
    forall k | 0 <= k < OPL_WRITEBUF_SIZE && k != |pending| ensures At(cur, k) != last {
      AtDistinct(cur, k, |pending|);
    }
  }

  /** In a full ring a write takes the slot of the oldest one, and the ring starts after it. */
  lemma RingEvict(buf: seq<BufferSlot>, cur: nat, last: nat, pending: seq<BufferSlot>, slot: BufferSlot)
    requires Ring(buf, cur, last, pending) && |pending| == OPL_WRITEBUF_SIZE && Waiting(slot)
    ensures Ring(buf[last := slot], At(last, 1), At(last, 1), pending[1..] + [slot])
  {
    forall k | 0 <= k < OPL_WRITEBUF_SIZE - 1
      ensures At(At(last, 1), k) != last && At(At(last, 1), k) == At(cur, k + 1)
    {
      AtNext(last, k);
      AtDistinct(cur, k + 1, 0);
    }
  }

  /** The oldest write leaves the ring. */
  lemma RingDrop(buf: seq<BufferSlot>, cur: nat, last: nat, pending: seq<BufferSlot>, slot: BufferSlot)
    requires Ring(buf, cur, last, pending) && |pending| > 0 && !Waiting(slot)
    ensures Ring(buf[cur := slot], At(cur, 1), last, pending[1..])
  {
    forall k | 0 <= k < OPL_WRITEBUF_SIZE
      ensures At(At(cur, 1), k) == At(cur, k + 1)
      ensures k + 1 < OPL_WRITEBUF_SIZE ==> At(cur, k + 1) != cur
    {
      AtNext(cur, k);
      if k + 1 < OPL_WRITEBUF_SIZE { AtDistinct(cur, k + 1, 0); }
    }
  }

  lemma TimedPush(pending: seq<BufferSlot>, now: nat, lastTime: nat, slot: BufferSlot)
    requires Timed(pending, now, lastTime) && slot.time == Max(lastTime + OPL_WRITEBUF_DELAY, now)
    ensures Timed(pending + [slot], now, slot.time)
  {}

  lemma TimedDrop(pending: seq<BufferSlot>, now: nat, lastTime: nat, later: nat)
    requires Timed(pending, now, lastTime) && |pending| > 0 && later <= pending[0].time + OPL_WRITEBUF_DELAY
    ensures Timed(pending[1..], later, lastTime)
  {}

  lemma FirstTime(pending: seq<BufferSlot>, now: nat, lastTime: nat)
    requires |pending| > 0
    ensures Timed(pending, now, lastTime) && pending[0].time <= now ==>
      pending[0].time == now && Timed(pending[1..], now + 1, lastTime)
    ensures Timed(pending, now + 1, lastTime) ==> pending[0].time > now
  {}

  lemma TimedLater(pending: seq<BufferSlot>, now: nat, lastTime: nat)
    requires Timed(pending, now, lastTime) || Timed(pending, now + 1, lastTime)
    requires |pending| > 0 ==> pending[0].time > now
    ensures Timed(pending, now + 1, lastTime)
  {}

  lemma WritesOfAppend(pending: seq<BufferSlot>, slot: BufferSlot)
    ensures WritesOf(pending + [slot]) == WritesOf(pending) + [WriteOf(slot)]
  {}

  lemma WritesOfFirst(pending: seq<BufferSlot>)
    requires |pending| > 0
    ensures WritesOf(pending) == [WriteOf(pending[0])] + WritesOf(pending[1..])
  {}

  class WriteBuffer {
    const writebuf: array<BufferSlot>
    var sampleCnt: nat
    var cur: nat
    var last: nat
    var lastTime: nat

    /** The writes made to the chip, in order. */
    var applied: seq<Write>

    ghost var pending: seq<BufferSlot>
    ghost var issued: seq<Write>

    /** OPL3_Reset. */
    constructor ()
      ensures Valid() && applied == [] && issued == [] && pending == [] && sampleCnt == 0
      ensures fresh(writebuf)
    {
      writebuf := new BufferSlot[OPL_WRITEBUF_SIZE](_ => BufferSlot(0, 0, 0));
      sampleCnt, cur, last, lastTime := 0, 0, 0, 0;
      applied, pending, issued := [], [], [];
    }

    /** What was applied and what is pending is what was issued: nothing lost, doubled or overtaken. */
    ghost predicate Valid()
      reads this, writebuf
    {
      && Ring(writebuf[..], cur, last, pending)
      && Timed(pending, sampleCnt, lastTime)
      && applied + WritesOf(pending) == issued
    }

    /** OPL3_WriteRegBuffered: the write joins the ring; the oldest one is applied at once if the ring is full. */
    method WriteRegBuffered(reg: bv16, v: bv8)
      requires Valid()
      modifies this, writebuf
      ensures Valid()
      ensures issued == old(issued) + [Masked(reg, v)]
      ensures var full := |old(pending)| == OPL_WRITEBUF_SIZE;
        && applied == old(applied) + (if full then [WriteOf(old(pending)[0])] else [])
        && sampleCnt == (if full then old(pending)[0].time else old(sampleCnt))
        && lastTime == Max(old(lastTime) + OPL_WRITEBUF_DELAY, sampleCnt)
        && pending == (if full then old(pending)[1..] else old(pending)) + [BufferSlot(lastTime, reg | 0x200, v)]
    {
      hide Ring, Timed, WritesOf, Waiting;
      ghost var buf, p := writebuf[..], pending;
      FullAtLastNow();
      var time1 := lastTime + OPL_WRITEBUF_DELAY;
      if Waiting(writebuf[last]) {
        applied := applied + [WriteOf(writebuf[last])];
        cur := (last + 1) % OPL_WRITEBUF_SIZE;
        sampleCnt := writebuf[last].time;
        WritesOfFirst(p);
        TimedDrop(p, old(sampleCnt), lastTime, sampleCnt);
        pending := p[1..];
      }
      var time := Max(time1, sampleCnt);
      ghost var slot := BufferSlot(time, reg | 0x200, v);
      TimedPush(pending, sampleCnt, lastTime, slot);
      WritesOfAppend(pending, slot);
      FlagSet(reg);
      if |p| == OPL_WRITEBUF_SIZE { RingEvict(buf, old(cur), last, p, slot); }
        else { RingStore(buf, cur, last, p, slot); }
      pending := pending + [slot];
      issued := issued + [Masked(reg, v)];
      writebuf[last] := BufferSlot(time, reg | 0x200, v);
      lastTime := time;
      last := (last + 1) % OPL_WRITEBUF_SIZE;
      assert writebuf[..] == buf[old(last) := slot];
      assert applied + WritesOf(pending) == issued;
    }

    /** The end of OPL3_Generate: the write that is due is applied, and the sample count moves on. */
    method Drain()
      requires Valid()
      modifies this, writebuf
      ensures Valid() && issued == old(issued) && sampleCnt == old(sampleCnt) + 1
      ensures var dueNow := |old(pending)| > 0 && old(pending)[0].time == old(sampleCnt);
        && applied == old(applied) + (if dueNow then [WriteOf(old(pending)[0])] else [])
        && pending == (if dueNow then old(pending)[1..] else old(pending))
    {
      hide Ring, Timed, WritesOf;
      FirstAtCur(writebuf[..], cur, last, pending);
      ghost var dueNow := |pending| > 0 && pending[0].time == sampleCnt;
      while writebuf[cur].time <= sampleCnt
        invariant cur < OPL_WRITEBUF_SIZE == writebuf.Length
        invariant Ring(writebuf[..], cur, last, pending) && applied + WritesOf(pending) == issued
        invariant sampleCnt == old(sampleCnt) && lastTime == old(lastTime) && issued == old(issued)
        invariant if pending == old(pending) then applied == old(applied) && Timed(pending, sampleCnt, lastTime)
                  else && dueNow && pending == old(pending)[1..] && applied == old(applied) + [WriteOf(old(pending)[0])]
                       && Timed(pending, sampleCnt + 1, lastTime)
        decreases |pending|
      {
        FirstAtCur(writebuf[..], cur, last, pending);
        if !Waiting(writebuf[cur]) {
          break;
        }
        FirstTime(pending, sampleCnt, lastTime);
        DropFirst();
      }
      FirstAtCur(writebuf[..], cur, last, pending);
      TimedLater(pending, sampleCnt, lastTime);
      sampleCnt := sampleCnt + 1;
    }

    /** The body of the loop: the oldest write goes to the chip. */
    method DropFirst()
      requires Ring(writebuf[..], cur, last, pending) && |pending| > 0 && applied + WritesOf(pending) == issued
      modifies this`applied, this`cur, this`pending, writebuf
      ensures writebuf.Length == OPL_WRITEBUF_SIZE && cur < OPL_WRITEBUF_SIZE
      ensures Ring(writebuf[..], cur, last, pending) && applied + WritesOf(pending) == issued
      ensures applied == old(applied) + [WriteOf(old(pending)[0])] && pending == old(pending)[1..]
    {
      hide WritesOf, Waiting, Masked, Ring;
      ghost var buf, p := writebuf[..], pending;
      FirstAtCur(buf, cur, last, p);
      ClearFlag(p[0]);
      WritesOfFirst(p);
      RingDrop(buf, cur, last, p, Cleared(p[0]));
      writebuf[cur] := writebuf[cur].(reg := writebuf[cur].reg & 0x1ff);
      assert writebuf[..] == buf[cur := Cleared(p[0])];
      applied := applied + [Masked(writebuf[cur].reg, writebuf[cur].data)];
      cur := (cur + 1) % OPL_WRITEBUF_SIZE;
      pending := p[1..];
    }

    lemma FullAtLastNow()
      requires Valid()
      ensures writebuf.Length == OPL_WRITEBUF_SIZE && last < OPL_WRITEBUF_SIZE && cur < OPL_WRITEBUF_SIZE
      ensures |pending| <= OPL_WRITEBUF_SIZE
      ensures Waiting(writebuf[last]) <==> |pending| == OPL_WRITEBUF_SIZE
      ensures Waiting(writebuf[last]) ==> last == cur && writebuf[last] == pending[0]
    {
      FullAtLast(writebuf[..], cur, last, pending);
    }
  }

  function Max(a: nat, b: nat): nat { if a < b then b else a }

  lemma FlagSet(reg: bv16)
    ensures (reg | 0x200) & 0x200 != 0
    ensures (reg | 0x200) & 0x1ff == reg & 0x1ff
  {}

  // ------------------------------------------------------------------
  // Runs
  // ------------------------------------------------------------------

  datatype Command = WriteReg(reg: bv16, data: bv8) | GenerateSample

  function Issued(commands: seq<Command>): seq<Write> {
    if commands == [] then []
    else
      var c := commands[|commands| - 1];
      Issued(commands[..|commands| - 1]) + match c case WriteReg(reg, v) => [Masked(reg, v)] case GenerateSample => []
  }

  /**
    Any interleaving of writes and samples from a reset: the chip gets the writes in the order in
    which they were issued, each once, and the ones it has not got yet are the last ones.
   */
  method Run(commands: seq<Command>) returns (chip: WriteBuffer)
    ensures chip.Valid()
    ensures chip.applied <= Issued(commands) && |Issued(commands)| - |chip.applied| <= OPL_WRITEBUF_SIZE
  {
    hide Ring, Timed, WritesOf, Waiting, Masked;
    chip := new WriteBuffer();
    var i := 0;
    while i < |commands|
      invariant 0 <= i <= |commands|
      invariant chip.Valid() && fresh(chip) && fresh(chip.writebuf)
      invariant chip.issued == Issued(commands[..i])
    {
      assert commands[..i + 1][..i] == commands[..i];
      match commands[i] {
        case WriteReg(reg, v) => chip.WriteRegBuffered(reg, v);
        case GenerateSample => chip.Drain();
      }
      i := i + 1;
    }
    assert commands[..i] == commands;
    chip.FullAtLastNow();
    PendingCount(chip.pending);
  }

  lemma PendingCount(pending: seq<BufferSlot>)
    ensures |WritesOf(pending)| == |pending|
  {}
}
