/**
  opl/opl_queue.c: the callbacks waiting to be invoked, in a binary heap of at most 64 entries
  ordered by time. A time is a word of 64 bits without sign. Adjusting the callbacks can take a time
  below zero; the word that is stored then is above all others.
 */
module OplQueue {
  import opened Arithmetic

  /** The callback function with its data: the music player only ever queues these two. */
  datatype Callback = TrackTimerCallback(track: nat) | RestartSong

  datatype Entry = Entry(callback: Callback, time: int)

  const MAX_OPL_QUEUE := 64

  const UINT64_RANGE := 0x1_0000_0000_0000_0000

  // ------------------------------------------------------------------
  // Times as words
  // ------------------------------------------------------------------

  /** The order of the words that are stored for two times: those below zero come last. */
  predicate AtMost(t: int, u: int) {
    if t < 0 then u < 0 && t <= u else u < 0 || t <= u
  }

  lemma AtMostIsWordOrder(t: int, u: int)
    requires -UINT64_RANGE < 2 * t < UINT64_RANGE && -UINT64_RANGE < 2 * u < UINT64_RANGE
    ensures AtMost(t, u) <==> t % UINT64_RANGE <= u % UINT64_RANGE
  {
    Word(t);
    Word(u);
  }

  lemma Word(t: int)
    requires -UINT64_RANGE < 2 * t < UINT64_RANGE
    ensures t % UINT64_RANGE == if t < 0 then t + UINT64_RANGE else t
  {
    if t < 0 {
      DivModUnique(t + UINT64_RANGE, UINT64_RANGE, 0, t + UINT64_RANGE);
      assert t % UINT64_RANGE == (t + UINT64_RANGE) % UINT64_RANGE;
    }
  }

  // ------------------------------------------------------------------
  // Heaps as sequences
  // ------------------------------------------------------------------

  function Parent(j: nat): nat
    requires j > 0
    ensures Parent(j) < j
  {
    (j - 1) / 2
  }

  /** The heap condition between j and its parent. */
  predicate Ordered(s: seq<Entry>, j: nat)
    requires 0 < j < |s|
  {
    AtMost(s[Parent(j)].time, s[j].time)
  }

  ghost predicate Heap(s: seq<Entry>) {
    forall j | 0 < j < |s| :: Ordered(s, j)
  }

  /** The heap condition may fail between the hole and its parent; the hole's children fit under that parent. */
  ghost predicate HeapAbove(s: seq<Entry>, hole: nat) {
    && (forall j | 0 < j < |s| && j != hole :: Ordered(s, j))
    && (forall j | 0 < j < |s| && Parent(j) == hole && 0 < hole < |s| :: AtMost(s[Parent(hole)].time, s[j].time))
  }

  /** The heap condition may fail between the hole and its children; they fit under the hole's parent. */
  ghost predicate HeapBelow(s: seq<Entry>, hole: nat) {
    && (forall j | 0 < j < |s| && Parent(j) != hole :: Ordered(s, j))
    && (forall j | 0 < j < |s| && Parent(j) == hole && 0 < hole < |s| :: AtMost(s[Parent(hole)].time, s[j].time))
  }

  function Swap(s: seq<Entry>, i: nat, j: nat): seq<Entry>
    requires i < |s| && j < |s|
  {
    s[i := s[j]][j := s[i]]
  }

  lemma SwapKeepsMultiset(s: seq<Entry>, i: nat, j: nat)
    requires i < |s| && j < |s|
    ensures multiset(Swap(s, i, j)) == multiset(s)
  {}

  lemma SwapUp(s: seq<Entry>, hole: nat)
    requires 0 < hole < |s| && HeapAbove(s, hole)
    requires !AtMost(s[Parent(hole)].time, s[hole].time)
    ensures HeapAbove(Swap(s, hole, Parent(hole)), Parent(hole))
  {
    var p := Parent(hole);
    var t := Swap(s, hole, p);
    forall j | 0 < j < |s| && j != p ensures Ordered(t, j) {
      assert j != hole ==> Ordered(s, j);
    }
    forall j | 0 < j < |s| && Parent(j) == p && p > 0 ensures AtMost(t[Parent(p)].time, t[j].time) {
      assert Ordered(s, p);
      assert j != hole ==> Ordered(s, j);
    }
  }

  /** A heap with an entry appended: only the new one may be out of order. */
  lemma AppendedAbove(s: seq<Entry>, e: Entry)
    requires Heap(s)
    ensures HeapAbove(s + [e], |s|)
  {
    forall j | 0 < j < |s| ensures Ordered(s + [e], j) {
      assert Ordered(s, j);
    }
  }

  lemma StopAbove(s: seq<Entry>, hole: nat)
    requires hole < |s| && HeapAbove(s, hole)
    requires hole > 0 ==> AtMost(s[Parent(hole)].time, s[hole].time)
    ensures Heap(s)
  {}

  /** next is the child of the hole that percolates up. */
  ghost predicate SmallestChild(s: seq<Entry>, hole: nat, next: nat) {
    && hole < next < |s| && Parent(next) == hole
    && !AtMost(s[hole].time, s[next].time)
    && forall j | 0 < j < |s| && Parent(j) == hole :: AtMost(s[next].time, s[j].time)
  }

  lemma SwapDown(s: seq<Entry>, hole: nat, next: nat)
    requires hole < |s| && HeapBelow(s, hole) && SmallestChild(s, hole, next)
    ensures HeapBelow(Swap(s, hole, next), next)
  {}

  lemma StopBelow(s: seq<Entry>, hole: nat)
    requires hole < |s| && HeapBelow(s, hole)
    requires forall j | 0 < j < |s| && Parent(j) == hole :: AtMost(s[hole].time, s[j].time)
    ensures Heap(s)
  {
    forall j | 0 < j < |s| ensures Ordered(s, j) {
      if Parent(j) == hole {}
    }
  }

  lemma {:induction false} RootMinimal(s: seq<Entry>, j: nat)
    requires Heap(s) && j < |s|
    ensures AtMost(s[0].time, s[j].time)
  {
    if j > 0 {
      RootMinimal(s, Parent(j));
      assert Ordered(s, j);
    }
  }

  /** The last entry in place of the first: what remains when the first is taken out. */
  lemma TakeRoot(s: seq<Entry>)
    requires |s| > 1
    ensures var rest := s[..|s| - 1][0 := s[|s| - 1]];
      && multiset(rest) == multiset(s) - multiset{s[0]}
      && (Heap(s) ==> HeapBelow(rest, 0))
  {
    var n := |s| - 1;
    var rest := s[..n][0 := s[n]];
    assert s == [s[0]] + s[1..n] + [s[n]];
    assert rest == [s[n]] + s[1..n];
    forall j | 0 < j < n && Parent(j) != 0 && Heap(s) ensures Ordered(rest, j) {
      assert Ordered(s, j);
    }
  }

  // ------------------------------------------------------------------
  // The queue
  // ------------------------------------------------------------------

  class CallbackQueue {
    const entries: array<Entry>
    var numEntries: nat

    constructor ()
      ensures Valid() && InHeap() && Contents() == [] && fresh(entries)
    {
      entries := new Entry[MAX_OPL_QUEUE](_ => Entry(RestartSong, 0));
      numEntries := 0;
    }

    /** The entries in heap order. */
    ghost function Contents(): seq<Entry>
      requires numEntries <= entries.Length
      reads this, entries
    {
      entries[..numEntries]
    }

    ghost predicate Valid()
      reads this, entries
    {
      && entries.Length == MAX_OPL_QUEUE
      && numEntries <= MAX_OPL_QUEUE
    }

    ghost predicate InHeap()
      requires Valid()
      reads this, entries
    {
      Heap(Contents())
    }

    /** OPL_Queue_IsEmpty. */
    method IsEmpty() returns (empty: bool)
      requires Valid()
      ensures empty == (Contents() == [])
    {
      empty := numEntries == 0;
    }

    /** OPL_Queue_Clear. */
    method Clear()
      requires Valid()
      modifies this
      ensures Valid() && InHeap() && Contents() == []
    {
      numEntries := 0;
    }

    /** OPL_Queue_Peek: the time at the root, which in a heap is the earliest, or zero. */
    method Peek() returns (time: int)
      requires Valid()
      ensures Contents() == [] ==> time == 0
      ensures Contents() != [] ==> time == Contents()[0].time
      ensures Contents() != [] && InHeap() ==> Earliest(Contents(), time)
    {
      if numEntries > 0 {
        RootEarliest(Contents());
        time := entries[0].time;
      } else {
        time := 0;
      }
    }

    /** Move an entry into the hole. With e imagined in the hole, the two change places. */
    method MoveEntry(hole: nat, from: nat, ghost filled: seq<Entry>, e: Entry) returns (ghost moved: seq<Entry>)
      requires numEntries <= entries.Length && hole < numEntries && from < numEntries && hole != from
      requires filled == Contents()[hole := e]
      modifies entries
      ensures moved == Swap(filled, hole, from) && moved == Contents()[from := e]
      ensures multiset(moved) == multiset(filled)
      ensures hole > 0 ==> entries[0] == old(entries[0])
    {
      moved := Swap(filled, hole, from);
      SwapKeepsMultiset(filled, hole, from);
      entries[hole] := entries[from];
    }

    /** OPL_Queue_Push: the entry joins the queue, unless the queue is full. */
    method Push(callback: Callback, time: int)
      requires Valid()
      modifies this, entries
      ensures Valid()
      ensures old(numEntries) >= MAX_OPL_QUEUE ==> Contents() == old(Contents())
      ensures old(numEntries) < MAX_OPL_QUEUE ==>
        multiset(Contents()) == multiset(old(Contents())) + multiset{Entry(callback, time)}
      ensures old(InHeap()) ==> InHeap()
      ensures Contents() != []
      ensures Contents()[0] == Entry(callback, time) || (old(Contents()) != [] && Contents()[0] == old(Contents())[0])
      ensures numEntries == if old(numEntries) < MAX_OPL_QUEUE then old(numEntries) + 1 else old(numEntries)
    {
      if numEntries >= MAX_OPL_QUEUE {
        return;
      }
      var entryId := numEntries;
      numEntries := numEntries + 1;
      // The queue as it would be with the new entry in the hole.
      ghost var filled := old(Contents()) + [Entry(callback, time)];
      if old(InHeap()) {
        AppendedAbove(old(Contents()), Entry(callback, time));
      }
      while entryId > 0
        invariant 0 <= entryId < numEntries == old(numEntries) + 1
        invariant entryId > 0 ==> entries[0] == old(entries[0])
        invariant |filled| == numEntries && filled == Contents()[entryId := Entry(callback, time)]
        invariant multiset(filled) == multiset(old(Contents())) + multiset{Entry(callback, time)}
        invariant old(InHeap()) ==> HeapAbove(filled, entryId)
      {
        hide HeapAbove, Heap, Swap, AtMost;
        var parentId := (entryId - 1) / 2;
        if AtMost(entries[parentId].time, time) {
          break;
        }
        if old(InHeap()) {
          SwapUp(filled, entryId);
        }
        filled := MoveEntry(entryId, parentId, filled, Entry(callback, time));
        entryId := parentId;
      }
      hide HeapAbove, Heap, AtMost;
      if old(InHeap()) {
        StopAbove(filled, entryId);
      }
      entries[entryId] := Entry(callback, time);
      assert Contents() == filled;
    }

    /** OPL_Queue_Pop: the entry at the root leaves the queue, in a heap an earliest one. */
    method Pop() returns (found: bool, popped: Entry)
      requires Valid()
      modifies this, entries
      ensures Valid()
      ensures found == (old(Contents()) != [])
      ensures !found ==> Contents() == []
      ensures found ==> popped == old(Contents())[0]
      ensures old(InHeap()) ==> InHeap() && (found ==> Earliest(old(Contents()), popped.time))
      ensures found ==> multiset(Contents()) == multiset(old(Contents())) - multiset{popped}
      ensures found ==> numEntries == old(numEntries) - 1
    {
      if numEntries <= 0 {
        return false, Entry(RestartSong, 0);
      }
      ghost var before := Contents();
      popped := entries[0];
      RootEarliest(before);
      hide Heap, Earliest;
      numEntries := numEntries - 1;
      var last := entries[numEntries];
      PercolateDown(before, last);
      found := true;
    }

    /** The choice in the loop of OPL_Queue_Pop: the child to move up, or zero when there is none. */
    method SmallerChild(ghost filled: seq<Entry>, i: nat, last: Entry) returns (next: nat)
      requires numEntries <= entries.Length
      requires i < numEntries == |filled| && filled == Contents()[i := last]
      ensures next != 0 ==> SmallestChild(filled, i, next)
      ensures next == 0 ==> forall j | 0 < j < |filled| && Parent(j) == i :: AtMost(filled[i].time, filled[j].time)
    {
      var child1 := i * 2 + 1;
      var child2 := i * 2 + 2;
      assert forall j | 0 < j && Parent(j) == i :: j == child1 || j == child2;
      if child1 < numEntries && !AtMost(last.time, entries[child1].time) {
        if child2 < numEntries && !AtMost(entries[child1].time, entries[child2].time) {
          next := child2;
        } else {
          next := child1;
        }
      } else if child2 < numEntries && !AtMost(last.time, entries[child2].time) {
        next := child2;
      } else {
        next := 0;
      }
    }

    /** The rest of OPL_Queue_Pop: the last entry is put back, starting from the top. */
    method PercolateDown(ghost before: seq<Entry>, last: Entry)
      requires entries.Length == MAX_OPL_QUEUE && numEntries < MAX_OPL_QUEUE
      requires |before| == numEntries + 1
      requires entries[..numEntries + 1] == before && last == before[numEntries]
      modifies entries
      ensures multiset(Contents()) == multiset(before) - multiset{before[0]}
      ensures Heap(before) ==> Heap(Contents())
    {
      if numEntries == 0 {
        entries[0] := last;
        return;
      }
      TakeRoot(before);
      var i := 0;
      // The queue as it would be with the last entry in the hole.
      ghost var filled := before[..numEntries][0 := last];
      while true
        invariant 0 <= i < numEntries == |filled|
        invariant filled == Contents()[i := last]
        invariant multiset(filled) == multiset(before) - multiset{before[0]}
        invariant Heap(before) ==> HeapBelow(filled, i)
        decreases numEntries - i
      {
        hide HeapBelow, Heap, Swap, AtMost;
        var next := SmallerChild(filled, i, last);
        if Heap(before) {
          if next == 0 {
            StopBelow(filled, i);
          } else {
            SwapDown(filled, i, next);
          }
        }
        if next == 0 {
          break;
        }
        filled := MoveEntry(i, next, filled, last);
        i := next;
      }
      hide HeapBelow, Heap;
      entries[i] := last;
      assert Contents() == filled;
    }

    /**
      OPL_Queue_AdjustCallbacks: every delay from the given time is divided by the factor. The queue
      stays a heap just when all times end up below zero or none does.
     */
    method AdjustCallbacks(time: nat, factor: real)
      requires Valid() && factor > 0.0
      modifies entries
      ensures Valid()
      ensures Contents() == Adjusted(old(Contents()), time, factor)
      ensures old(InHeap() && NoneBelow(Contents())) ==>
        (InHeap() <==> NoneBelow(Contents()) || AllBelow(Contents()))
      ensures old(NoneBelow(Contents())) ==>
        (NoneBelow(Contents()) <==> forall e | e in old(Contents()) :: StaysAbove(e.time, time, factor))
    {
      ghost var before := Contents();
      var i := 0;
      while i < numEntries
        invariant 0 <= i <= numEntries
        invariant forall j | 0 <= j < i :: entries[j] == Adjusted(before, time, factor)[j]
        invariant forall j | i <= j < numEntries :: entries[j] == before[j]
      {
        var offset := entries[i].time - time;
        entries[i] := entries[i].(time := time + Trunc(offset as real / factor));
        i := i + 1;
      }
      assert Contents() == Adjusted(before, time, factor);
      AdjustedStaysAbove(before, time, factor);
      if Heap(before) && NoneBelow(before) {
        AdjustedIsHeap(before, time, factor);
      }
    }
  }

  /** t is the least time in the queue. */
  ghost predicate Earliest(s: seq<Entry>, t: int) {
    && (exists j :: 0 <= j < |s| && s[j].time == t)
    && (forall j | 0 <= j < |s| :: AtMost(t, s[j].time))
  }

  lemma RootEarliest(s: seq<Entry>)
    ensures s != [] && Heap(s) ==> Earliest(s, s[0].time)
  {
    if s != [] && Heap(s) {
      forall j | 0 <= j < |s| ensures AtMost(s[0].time, s[j].time) {
        RootMinimal(s, j);
      }
    }
  }

  // ------------------------------------------------------------------
  // Changing the tempo
  // ------------------------------------------------------------------

  ghost predicate NoneBelow(s: seq<Entry>) {
    forall j | 0 <= j < |s| :: s[j].time >= 0
  }

  ghost predicate AllBelow(s: seq<Entry>) {
    forall j | 0 <= j < |s| :: s[j].time < 0
  }

  /** Conversion to integer, which drops the fraction. */
  function Trunc(r: real): int {
    if r >= 0.0 then r.Floor else -((-r).Floor)
  }

  function AdjustTime(t: int, time: int, factor: real): int
    requires factor > 0.0
  {
    time + Trunc((t - time) as real / factor)
  }

  function Adjusted(s: seq<Entry>, time: int, factor: real): seq<Entry>
    requires factor > 0.0
  {
    seq(|s|, i requires 0 <= i < |s| => s[i].(time := AdjustTime(s[i].time, time, factor)))
  }

  /** Seen from the given time, the delay divided by the factor does not go back beyond the start of the clock. */
  predicate StaysAbove(t: int, time: int, factor: real) {
    (time - t) as real < (time + 1) as real * factor
  }

  /** Exactly then the adjusted time is a proper one. */
  lemma AdjustTimeStaysAbove(t: int, time: nat, factor: real)
    requires factor > 0.0
    ensures AdjustTime(t, time, factor) >= 0 <==> StaysAbove(t, time, factor)
  {
    var x := (time - t) as real / factor;
    assert x * factor == (time - t) as real;
    if x < (time + 1) as real {
      LessProduct(x, (time + 1) as real, factor);
    } else {
      AtLeastProduct(x, (time + 1) as real, factor);
    }
    NegatedQuotient((time - t) as real, factor);
    assert (t - time) as real == -((time - t) as real);
  }

  lemma NegatedQuotient(x: real, factor: real)
    requires factor > 0.0
    ensures -x / factor == -(x / factor)
  {
    var y, z := -x / factor, x / factor;
    assert y * factor == -x && z * factor == x;
    assert (y + z) * factor == 0.0;
    if y + z > 0.0 {
      LessProduct(0.0, y + z, factor);
    } else if y + z < 0.0 {
      LessProduct(y + z, 0.0, factor);
    }
  }

  lemma LessProduct(x: real, y: real, factor: real)
    requires x < y && factor > 0.0
    ensures x * factor < y * factor
  {}

  lemma AtLeastProduct(x: real, y: real, factor: real)
    requires x >= y && factor > 0.0
    ensures x * factor >= y * factor
  {}

  lemma AdjustedStaysAbove(s: seq<Entry>, time: nat, factor: real)
    requires factor > 0.0
    ensures NoneBelow(Adjusted(s, time, factor)) <==> forall e | e in s :: StaysAbove(e.time, time, factor)
  {
    hide AdjustTime, StaysAbove;
    forall t ensures AdjustTime(t, time, factor) >= 0 <==> StaysAbove(t, time, factor) {
      AdjustTimeStaysAbove(t, time, factor);
    }
    var adjusted := Adjusted(s, time, factor);
    assert forall j | 0 <= j < |s| :: adjusted[j].time == AdjustTime(s[j].time, time, factor);
  }

  lemma TruncMonotone(a: real, b: real)
    requires a <= b
    ensures Trunc(a) <= Trunc(b)
  {}

  /** A positive factor keeps earlier callbacks earlier. */
  lemma AdjustTimeMonotone(t: int, u: int, time: int, factor: real)
    requires factor > 0.0 && t <= u
    ensures AdjustTime(t, time, factor) <= AdjustTime(u, time, factor)
  {
    var x, y := (t - time) as real, (u - time) as real;
    assert x / factor <= y / factor;
    TruncMonotone(x / factor, y / factor);
  }

  /** The words of the adjusted times keep their order just when all times are below zero or none is. */
  lemma AdjustedIsHeap(s: seq<Entry>, time: int, factor: real)
    requires Heap(s) && NoneBelow(s) && factor > 0.0
    ensures var adjusted := Adjusted(s, time, factor);
      Heap(adjusted) <==> NoneBelow(adjusted) || AllBelow(adjusted)
  {
    hide AdjustTime, Heap;
    var adjusted := Adjusted(s, time, factor);
    if NoneBelow(adjusted) || AllBelow(adjusted) {
      forall j | 0 < j < |s| ensures Ordered(adjusted, j) {
        assert Ordered(s, j) by { HeapOrdered(s, j); }
        AdjustTimeMonotone(s[Parent(j)].time, s[j].time, time, factor);
      }
      AllOrdered(adjusted);
    } else {
      var below: nat :| below < |s| && adjusted[below].time < 0;
      var above: nat :| above < |s| && adjusted[above].time >= 0;
      RootMinimal(s, below);
      AdjustTimeMonotone(s[0].time, s[below].time, time, factor);
      if Heap(adjusted) {
        RootMinimal(adjusted, above);
        assert false;
      }
    }
  }

  lemma HeapOrdered(s: seq<Entry>, j: nat)
    requires Heap(s) && 0 < j < |s|
    ensures Ordered(s, j)
  {}

  lemma AllOrdered(s: seq<Entry>)
    requires forall j | 0 < j < |s| :: Ordered(s, j)
    ensures Heap(s)
  {}

  /**
    After 0.6 s of pause a callback is 100 ms away at 1.5 s of the clock, when the time of a beat becomes four times as
    long. Its time falls below zero. The callback that is booked next is 4 s away and becomes the root, and hides
    the one that is overdue: the clock is taken not to have reached anything.
   */
  method OverdueHidden() returns (next: int, overdue: Entry)
    ensures overdue.time + 600_000 <= 1_500_000 && !StaysAbove(1_000_000, 1_500_000, 0.25)
    ensures next == 4_900_000 && next + 600_000 > 1_500_000
    ensures !AtMost(overdue.time, next)
  {
    var queue := new CallbackQueue();
    queue.Push(TrackTimerCallback(1), 1_000_000);
    assert queue.Contents() == [Entry(TrackTimerCallback(1), 1_000_000)];
    queue.AdjustCallbacks(1_500_000, 0.25);
    overdue := queue.entries[0];
    queue.Push(TrackTimerCallback(0), 4_900_000);
    ghost var s := queue.Contents();
    assert multiset(s)[overdue] > 0 && multiset(s)[Entry(TrackTimerCallback(0), 4_900_000)] > 0;
    next := queue.Peek();
    EarliestInMultiset(s, next);
  }

  // ------------------------------------------------------------------
  // Draining
  // ------------------------------------------------------------------

  ghost predicate NonDecreasing(s: seq<Entry>) {
    forall i, j | 0 <= i < j < |s| :: AtMost(s[i].time, s[j].time)
  }

  /** Part of all is out in order, and nothing left is earlier than what is out. */
  ghost predicate Drained(order: seq<Entry>, rest: multiset<Entry>, all: multiset<Entry>) {
    && multiset(order) + rest == all
    && NonDecreasing(order)
    && forall e | e in rest :: order == [] || AtMost(order[|order| - 1].time, e.time)
  }

  lemma DrainStep(order: seq<Entry>, rest: multiset<Entry>, all: multiset<Entry>, popped: Entry)
    requires Drained(order, rest, all)
    requires popped in rest && forall e | e in rest :: AtMost(popped.time, e.time)
    ensures Drained(order + [popped], rest - multiset{popped}, all)
  {
    assert multiset(order + [popped]) == multiset(order) + multiset{popped};
    assert multiset{popped} + (rest - multiset{popped}) == rest;
  }

  lemma EarliestInMultiset(s: seq<Entry>, t: int)
    requires Earliest(s, t)
    ensures forall e | e in multiset(s) :: AtMost(t, e.time)
  {
    forall e | e in multiset(s) ensures AtMost(t, e.time) {
      assert e in s;
    }
  }

  /** Popping until the queue is empty yields every entry once, in non-decreasing order of time. */
  method Drain(queue: CallbackQueue) returns (order: seq<Entry>)
    requires queue.Valid() && queue.InHeap()
    modifies queue, queue.entries
    ensures queue.Valid() && queue.Contents() == []
    ensures multiset(order) == multiset(old(queue.Contents()))
    ensures NonDecreasing(order)
  {
    order := [];
    ghost var all := multiset(queue.Contents());
    while queue.numEntries > 0
      invariant queue.Valid() && queue.InHeap()
      invariant Drained(order, multiset(queue.Contents()), all)
      decreases queue.numEntries
    {
      hide Drained, Heap, Earliest;
      ghost var rest := queue.Contents();
      var found, popped := queue.Pop();
      EarliestInMultiset(rest, popped.time);
      DrainStep(order, multiset(rest), all, popped);
      order := order + [popped];
    }
  }
}
