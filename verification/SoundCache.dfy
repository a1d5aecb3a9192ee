/**
  src/i_sdlsound.c: the cache of converted sound effects, a doubly linked list in the order of
  use, and the channels that play from it. Lengths, loadable sounds and the answers of the
  allocator are inputs.
 */
module SoundCache {
  import opened Collections

  const NUM_CHANNELS := 16
  const NORM_PITCH := 127

  /** allocated_sound_t; held counts the locks that no channel stands for. */
  class Sound {
    const sfx: nat
    const alen: nat
    var pitch: int
    var useCount: int
    var prev: Sound?
    var next: Sound?
    ghost var held: nat
    ghost var lastUse: nat

    constructor (sfx: nat, alen: nat)
      ensures this.sfx == sfx && this.alen == alen && pitch == NORM_PITCH && useCount == 0 && held == 0
    {
      this.sfx, this.alen, pitch, useCount, held := sfx, alen, NORM_PITCH, 0, 0;
    }
  }

  /** What CacheSFX finds: the length of the converted sound. */
  datatype Lump = Invalid | Loadable(length: nat)

  ghost predicate Distinct(list: seq<Sound>) {
    forall i, j | 0 <= i < j < |list| :: list[i] != list[j]
  }

  /** How many channels play a sound. */
  ghost function Playing(channels: seq<Sound?>, snd: Sound): nat {
    if channels == [] then 0
    else Playing(channels[..|channels| - 1], snd) + if channels[|channels| - 1] == snd then 1 else 0
  }

  lemma {:induction false} PlayingUpdate(channels: seq<Sound?>, c: nat, x: Sound?, snd: Sound)
    requires c < |channels|
    ensures Playing(channels[c := x], snd) ==
      Playing(channels, snd) - (if channels[c] == snd then 1 else 0) + (if x == snd then 1 else 0)
  {
    var last := |channels| - 1;
    if c < last {
      assert channels[c := x][..last] == channels[..last][c := x];
      PlayingUpdate(channels[..last], c, x, snd);
    } else {
      assert channels[c := x][..last] == channels[..last];
    }
  }

  lemma {:induction false} PlayingPositive(channels: seq<Sound?>, c: nat, snd: Sound)
    requires c < |channels| && channels[c] == snd
    ensures Playing(channels, snd) > 0
  {
    var last := |channels| - 1;
    if c < last {
      PlayingPositive(channels[..last], c, snd);
    }
  }

  lemma {:induction false} PlayingNothing(channels: seq<Sound?>, snd: Sound)
    requires forall c | 0 <= c < |channels| :: channels[c] != snd
    ensures Playing(channels, snd) == 0
  {
    if channels != [] {
      PlayingNothing(channels[..|channels| - 1], snd);
    }
  }

  /** A channel but the given one that plays a sound. */
  lemma OtherChannel(channels: seq<Sound?>, channel: nat, snd: Sound) returns (c: nat)
    requires channel < |channels| && Playing(channels, snd) > if channels[channel] == snd then 1 else 0
    ensures c < |channels| && c != channel && channels[c] == snd
  {
    PlayingUpdate(channels, channel, null, snd);
    var others := channels[channel := null];
    if forall k | 0 <= k < |others| :: others[k] != snd {
      PlayingNothing(others, snd);
    }
    c :| 0 <= c < |others| && others[c] == snd;
  }

  lemma OthersCount(channels: seq<Sound?>, channel: nat, c: nat, snd: Sound)
    requires channel < |channels| && c < |channels| && c != channel && channels[c] == snd
    ensures Playing(channels, snd) > if channels[channel] == snd then 1 else 0
  {
    PlayingUpdate(channels, channel, null, snd);
    PlayingPositive(channels[channel := null], c, snd);
  }

  /** The bytes of all sounds of a list. */
  ghost function Total(list: seq<Sound>): nat {
    if list == [] then 0 else list[0].alen + Total(list[1..])
  }

  lemma {:induction false} TotalRemove(list: seq<Sound>, i: nat)
    requires i < |list|
    ensures Total(RemoveAt(list, i)) == Total(list) - list[i].alen
  {
    if i == 0 {
      assert RemoveAt(list, 0) == list[1..];
    } else {
      TotalRemove(list[1..], i - 1);
      assert RemoveAt(list, i)[1..] == RemoveAt(list[1..], i - 1);
    }
  }

  lemma TotalAdd(snd: Sound, list: seq<Sound>)
    ensures Total([snd] + list) == snd.alen + Total(list)
  {
    assert ([snd] + list)[1..] == list;
  }

  /** Locks are exact: one for each channel that plays the sound, and those held besides. What plays is in the cache. */
  ghost predicate Counted(list: seq<Sound>, channels: seq<Sound?>)
    reads list`useCount, list`held
  {
    && (forall c | 0 <= c < |channels| && channels[c] != null :: channels[c] in list)
    && (forall s | s in list :: s.useCount == Playing(channels, s) + s.held)
  }

  /** The list is in the order of use, the latest first. */
  ghost predicate Recent(list: seq<Sound>, clock: nat)
    reads list`lastUse
  {
    && (forall s | s in list :: s.lastUse < clock)
    && (forall i, j | 0 <= i < j < |list| :: list[i].lastUse > list[j].lastUse)
  }

  lemma RecentWithout(list: seq<Sound>, clock: nat, i: nat)
    requires Recent(list, clock) && i < |list|
    ensures Recent(RemoveAt(list, i), clock)
  {}

  lemma RemovedMembers(list: seq<Sound>, i: nat)
    requires Distinct(list) && i < |list|
    ensures forall s :: s in RemoveAt(list, i) <==> s in list && s != list[i]
  {
    var r := RemoveAt(list, i);
    forall s | s in list && s != list[i] ensures s in r {
      var k :| 0 <= k < |list| && list[k] == s;
      assert r[if k < i then k else k - 1] == s;
    }
    forall s | s in r ensures s in list && s != list[i] {
      var k :| 0 <= k < |r| && r[k] == s;
    }
  }

  function Without(list: seq<Sound>, snd: Sound): seq<Sound> {
    if list == [] then []
    else if list[0] == snd then list[1..]
    else [list[0]] + Without(list[1..], snd)
  }

  lemma {:induction false} WithoutIs(list: seq<Sound>, i: nat)
    requires Distinct(list) && i < |list|
    ensures Without(list, list[i]) == RemoveAt(list, i)
  {
    hide Distinct, RemoveAt;
    if i > 0 {
      DistinctRest(list, i);
      WithoutIs(list[1..], i - 1);
      RemoveNext(list, i);
    } else {
      assert RemoveAt(list, 0) == list[1..];
    }
  }

  lemma DistinctRest(list: seq<Sound>, i: nat)
    requires Distinct(list) && 0 < i < |list|
    ensures Distinct(list[1..]) && list[0] != list[i]
  {}

  lemma RemoveNext(list: seq<Sound>, i: nat)
    requires 0 < i < |list|
    ensures RemoveAt(list, i) == [list[0]] + RemoveAt(list[1..], i - 1)
  {
    assert list[..i] == [list[0]] + list[1..][..i - 1];
  }

  /** Without a sound that nothing plays the locks are still right. */
  lemma CountedWithout(list: seq<Sound>, channels: seq<Sound?>, i: nat)
    requires Distinct(list) && Counted(list, channels) && i < |list| && list[i].useCount == 0
    ensures Counted(RemoveAt(list, i), channels)
  {
    RemovedMembers(list, i);
    assert list[i] in list;
    forall c | 0 <= c < |channels| && channels[c] != null ensures channels[c] in RemoveAt(list, i) {
      if channels[c] == list[i] {
        PlayingPositive(channels, c, list[i]);
      }
    }
  }

  lemma EvictedOne(list: seq<Sound>, clock: nat, i: nat)
    requires Distinct(list) && Recent(list, clock) && i < |list| && list[i].useCount == 0
    requires forall j | i < j < |list| :: list[j].useCount > 0
    ensures Evicted(list, RemoveAt(list, i))
  {
    RemovedMembers(list, i);
  }

  /** Only idle sounds went, and each of them was used before every idle sound that stayed. */
  ghost predicate Evicted(before: seq<Sound>, after: seq<Sound>)
    reads before`useCount, before`lastUse, after`useCount, after`lastUse
  {
    && (forall s | s in after :: s in before)
    && (forall s | s in before && s !in after :: s.useCount == 0)
    && (forall s, t | s in before && s !in after && t in after && t.useCount == 0 :: s.lastUse < t.lastUse)
  }

  lemma EvictedNone(list: seq<Sound>)
    ensures Evicted(list, list)
  {}

  lemma EvictedMembers(before: seq<Sound>, after: seq<Sound>)
    requires Evicted(before, after)
    ensures forall s | s in after :: s in before
  {}

  lemma EvictedTwice(first: seq<Sound>, second: seq<Sound>, third: seq<Sound>)
    requires Evicted(first, second) && Evicted(second, third)
    ensures Evicted(first, third)
  {}

  lemma CountedWith(snd: Sound, list: seq<Sound>, channels: seq<Sound?>)
    requires Counted(list, channels) && snd !in list && snd.useCount == 0 && snd.held == 0
    ensures Counted([snd] + list, channels)
  {
    PlayingNothing(channels, snd);
  }

  lemma RecentWith(snd: Sound, list: seq<Sound>, clock: nat)
    requires Recent(list, clock) && snd.lastUse == clock
    ensures Recent([snd] + list, clock + 1)
  {}

  ghost predicate SameMembers(a: seq<Sound>, b: seq<Sound>) {
    (forall s | s in a :: s in b) && (forall s | s in b :: s in a)
  }

  /** The sound at place i in front of the others: the same sounds, locks and bytes. */
  lemma MovedToFront(list: seq<Sound>, i: nat, channels: seq<Sound?>)
    requires Distinct(list) && Counted(list, channels) && i < |list|
    ensures var moved := [list[i]] + RemoveAt(list, i);
      Counted(moved, channels) && SameMembers(moved, list) && Total(moved) == Total(list)
        && list[i] !in RemoveAt(list, i)
    ensures forall s | s in RemoveAt(list, i) :: s in list
  {
    hide Counted, Total, SameMembers;
    TotalRemove(list, i);
    TotalAdd(list[i], RemoveAt(list, i));
    CountedMoved(list, i, channels);
    RemovedMembers(list, i);
    MovedMembers(list, i);
  }

  lemma MovedMembers(list: seq<Sound>, i: nat)
    requires Distinct(list) && i < |list|
    ensures SameMembers([list[i]] + RemoveAt(list, i), list)
  {
    hide Distinct;
    RemovedMembers(list, i);
    assert list[i] in list;
    var rest := RemoveAt(list, i);
    forall s: Sound | s in [list[i]] + rest ensures s in list {
      if s != list[i] {
        assert s in RemoveAt(list, i);
      }
    }
    forall s: Sound | s in list ensures s in [list[i]] + rest {
      if s != list[i] {
        assert s in RemoveAt(list, i);
      }
    }
  }

  lemma CountedMoved(list: seq<Sound>, i: nat, channels: seq<Sound?>)
    requires Distinct(list) && Counted(list, channels) && i < |list|
    ensures Counted([list[i]] + RemoveAt(list, i), channels)
  {
    RemovedMembers(list, i);
  }

  ghost predicate NoneIdle(list: seq<Sound>)
    reads list`useCount
  {
    forall s | s in list :: s.useCount > 0
  }

  // ------------------------------------------------------------------
  // Making room
  // ------------------------------------------------------------------

  /** What is left of the list up to its last idle sound: nothing if there is none. */
  ghost function IdleEnd(list: seq<Sound>, idle: set<Sound>): (n: nat)
    ensures n <= |list| && (n > 0 ==> list[n - 1] in idle)
    ensures forall j | n <= j < |list| :: list[j] !in idle
  {
    if list == [] then 0
    else if list[|list| - 1] in idle then |list|
    else IdleEnd(list[..|list| - 1], idle)
  }

  lemma IdleEndIs(list: seq<Sound>, idle: set<Sound>, n: nat)
    requires n <= |list| && (n > 0 ==> list[n - 1] in idle) && forall j | n <= j < |list| :: list[j] !in idle
    ensures IdleEnd(list, idle) == n
  {}

  /** The list when size and the new length fit into the cache, or nothing idle is left: the last idle ones go. */
  ghost function Reserved(list: seq<Sound>, idle: set<Sound>, len: nat, cachesize: int): (r: seq<Sound>)
    ensures |r| <= |list|
    decreases |list|
  {
    if cachesize <= 0 || Total(list) + len <= cachesize || IdleEnd(list, idle) == 0 then list
    else Reserved(RemoveAt(list, IdleEnd(list, idle) - 1), idle, len, cachesize)
  }

  /** The attempts to get memory from number n on: the list that is left, and whether there was memory. */
  ghost function Attempted(list: seq<Sound>, idle: set<Sound>, malloc: nat -> bool, n: nat): (seq<Sound>, bool)
    decreases |list|
  {
    if malloc(n) then (list, true)
    else if IdleEnd(list, idle) == 0 then (list, false)
    else Attempted(RemoveAt(list, IdleEnd(list, idle) - 1), idle, malloc, n + 1)
  }

  /** The list before a new sound of that length enters it, and whether it does. */
  ghost function Prepared(list: seq<Sound>, idle: set<Sound>, len: nat, cachesize: int, malloc: nat -> bool)
    : (seq<Sound>, bool)
  {
    Attempted(Reserved(list, idle, len, cachesize), idle, malloc, 0)
  }

  lemma GrantedAtOnce(list: seq<Sound>, idle: set<Sound>, len: nat, cachesize: int, malloc: nat -> bool)
    ensures malloc(0) ==> Prepared(list, idle, len, cachesize, malloc).1
  {}

  /** A sound can be locked if it is in the cache, or is valid and there is room for it. */
  ghost predicate CanLock(cached: bool, list: seq<Sound>, idle: set<Sound>, lump: Lump, cachesize: int,
                          malloc: nat -> bool)
  {
    cached || (lump.Loadable? && Prepared(list, idle, lump.length, cachesize, malloc).1)
  }

  ghost function IdleCount(list: seq<Sound>, idle: set<Sound>): nat {
    if list == [] then 0
    else IdleCount(list[..|list| - 1], idle) + if list[|list| - 1] in idle then 1 else 0
  }

  lemma {:induction false} IdleCountRemoved(list: seq<Sound>, idle: set<Sound>)
    ensures IdleCount(list, idle) == 0 <==> IdleEnd(list, idle) == 0
    ensures IdleEnd(list, idle) > 0 ==>
      IdleCount(RemoveAt(list, IdleEnd(list, idle) - 1), idle) == IdleCount(list, idle) - 1
  {
    hide RemoveAt;
    if list != [] {
      var n, front := IdleEnd(list, idle), list[..|list| - 1];
      if list[|list| - 1] in idle {
        LastRemoved(list);
      } else {
        IdleCountRemoved(front, idle);
        if n > 0 {
          InnerRemoved(list, n - 1);
        }
      }
    }
  }

  lemma LastRemoved(list: seq<Sound>)
    requires list != []
    ensures RemoveAt(list, |list| - 1) == list[..|list| - 1]
  {}

  lemma InnerRemoved(list: seq<Sound>, i: nat)
    requires i + 1 < |list|
    ensures var r := RemoveAt(list, i);
      && r != [] && r[|r| - 1] == list[|list| - 1]
      && r[..|r| - 1] == RemoveAt(list[..|list| - 1], i)
  {}

  /** An allocation fails just when as many attempts fail as there are idle sounds to free, and one more. */
  lemma {:induction false} AttemptedMeans(list: seq<Sound>, idle: set<Sound>, malloc: nat -> bool, n: nat)
    ensures Attempted(list, idle, malloc, n).1 <==> exists k :: n <= k <= n + IdleCount(list, idle) && malloc(k)
    decreases |list|
  {
    hide IdleEnd, IdleCount, RemoveAt;
    IdleCountRemoved(list, idle);
    if !malloc(n) && IdleEnd(list, idle) > 0 {
      AttemptedMeans(RemoveAt(list, IdleEnd(list, idle) - 1), idle, malloc, n + 1);
    } else if malloc(n) {
      assert n <= n <= n + IdleCount(list, idle);
    }
  }

  ghost function PrevOf(list: seq<Sound>, i: nat): Sound?
    requires i < |list|
  {
    if i == 0 then null else list[i - 1]
  }

  /** No sound before p has its name and pitch. */
  ghost predicate FirstMatch(list: seq<Sound>, p: Sound)
    reads list`pitch, p`pitch
  {
    exists i :: 0 <= i < |list| && list[i] == p && NoMatchBefore(list, p, i)
  }

  ghost predicate NoMatchBefore(list: seq<Sound>, p: Sound, i: nat)
    requires i <= |list|
    reads list`pitch, p`pitch
  {
    forall j | 0 <= j < i :: !(list[j].sfx == p.sfx && list[j].pitch == p.pitch)
  }

  ghost function NextOf(list: seq<Sound>, i: nat): Sound?
    requires i < |list|
  {
    if i == |list| - 1 then null else list[i + 1]
  }

  /** The pointers of the sound at place i. */
  ghost predicate HookedAt(list: seq<Sound>, i: nat)
    requires i < |list|
    reads list`prev, list`next
  {
    list[i].prev == PrevOf(list, i) && list[i].next == NextOf(list, i)
  }

  class Cache {
    var head: Sound?
    var tail: Sound?
    var size: int
    const channels: array<Sound?>
    ghost var list: seq<Sound>
    ghost var clock: nat

    ghost predicate Valid()
      reads this, list, channels
    {
      && Linked() && channels.Length == NUM_CHANNELS
      && Counted(list, channels[..]) && Recent(list, clock) && size == Total(list)
    }

    ghost function Nodes(): set<Sound>
      reads this`list
    {
      set s | s in list
    }

    /** A pitch-shifted sound is there only while a channel plays it. */
    ghost predicate ShiftedPlay()
      reads this`list, list`pitch, list`useCount, list`held
    {
      forall s | s in list && s.pitch != NORM_PITCH :: s.useCount > 0 && s.held == 0
    }

    ghost predicate ShiftedUsed()
      reads this`list, list`pitch, list`useCount
    {
      forall s | s in list && s.pitch != NORM_PITCH :: s.useCount > 0
    }

    /** Another channel keeps a sound of this name and pitch in the cache. */
    ghost predicate Shared(sfx: nat, pitch: int, channel: int)
      reads this`list, list`pitch, list`useCount, channels
    {
      && 0 <= channel < channels.Length
      && exists s ::
        s in list && s.sfx == sfx && s.pitch == pitch && s.useCount > if channels[channel] == s then 1 else 0
    }

    constructor ()
      ensures Valid() && ShiftedPlay() && list == [] && fresh(channels)
    {
      head, tail, size, list, clock := null, null, 0, [], 0;
      channels := new Sound?[NUM_CHANNELS](_ => null);
    }

    ghost predicate Linked()
      reads this`head, this`tail, this`list, list`prev, list`next
    {
      && Distinct(list)
      && head == (if list == [] then null else list[0])
      && tail == (if list == [] then null else list[|list| - 1])
      && (forall i | 0 <= i < |list| :: HookedAt(list, i))
    }

    /** AllocatedSoundLink. */
    method Link(snd: Sound)
      requires Linked() && snd !in list
      modifies this`head, this`tail, this`list, Nodes()`prev, snd`prev, snd`next
      ensures Linked() && list == [snd] + old(list)
    {
      hide PrevOf, NextOf;
      ghost var was := list;
      if list != [] { assert HookedAt(list, 0); }
      LinkHead(snd);
      list := [snd] + list;
      forall i | 0 <= i < |list| ensures HookedAt(list, i) {
        AddedLinks(was, snd, i);
        if i > 0 {
          assert was[i - 1] in was;
          assert old(HookedAt(was, i - 1));
        }
      }
    }

    /** The pointers that AllocatedSoundLink writes. */
    method LinkHead(snd: Sound)
      requires (head == null <==> tail == null) && head != snd
      modifies this`head, this`tail, snd`prev, snd`next
      modifies if head == null then {} else {head}`prev
      ensures head == snd && snd.prev == null && snd.next == old(head)
      ensures tail == if old(tail) == null then snd else old(tail)
      ensures old(head) != null ==> old(head).prev == snd
    {
      snd.prev := null;
      snd.next := head;
      head := snd;
      if tail == null {
        tail := snd;
      } else {
        snd.next.prev := snd;
      }
    }

    /** AllocatedSoundUnlink. */
    method Unlink(snd: Sound, ghost i: nat)
      requires Linked() && i < |list| && list[i] == snd
      modifies this`head, this`tail, this`list, Nodes()`prev, Nodes()`next
      ensures Linked() && list == RemoveAt(old(list), i)
    {
      hide RemoveAt, PrevOf, NextOf;
      ghost var was := list;
      Neighbours(i);
      UnlinkHooks(snd);
      list := RemoveAt(list, i);
      forall k | 0 <= k < |list| ensures HookedAt(list, k) {
        RemovedLinks(was, i, k);
        assert old(HookedAt(was, if k < i then k else k + 1));
      }
      RemovedEnds(was, i);
    }

    /** The pointers that AllocatedSoundUnlink writes. */
    method UnlinkHooks(snd: Sound)
      requires snd.prev != snd && snd.next != snd
      modifies this`head, this`tail
      modifies if snd.prev == null then {} else {snd.prev}`next
      modifies if snd.next == null then {} else {snd.next}`prev
      ensures old(snd.prev) == null ==> head == old(snd.next)
      ensures old(snd.prev) != null ==> head == old(head) && old(snd.prev).next == old(snd.next)
      ensures old(snd.next) == null ==> tail == old(snd.prev)
      ensures old(snd.next) != null ==> tail == old(tail) && old(snd.next).prev == old(snd.prev)
    {
      if snd.prev == null {
        head := snd.next;
      } else {
        snd.prev.next := snd.next;
      }
      if snd.next == null {
        tail := snd.prev;
      } else {
        snd.next.prev := snd.prev;
      }
    }

    /** FreeAllocatedSound: an idle sound leaves the cache. */
    method FreeAllocatedSound(snd: Sound, ghost i: nat)
      requires Valid() && i < |list| && list[i] == snd && snd.useCount == 0
      modifies this`head, this`tail, this`list, this`size, Nodes()`prev, Nodes()`next
      ensures Valid() && list == RemoveAt(old(list), i)
    {
      hide Cache.Linked, Counted, Recent, Total;
      LastIsTail();
      TotalRemove(list, i);
      CountedWithout(list, channels[..], i);
      RecentWithout(list, clock, i);
      Unlink(snd, i);
      size := size - snd.alen;
      assert channels[..] == old(channels[..]);
    }

    /** The search of FindAndFreeSound, from the tail: the last idle sound. */
    method FindIdle() returns (snd: Sound?, ghost victim: nat)
      requires Valid()
      ensures snd == null ==> NoneIdle(list)
      ensures snd != null ==>
        && victim < |list| && snd == list[victim] && snd.useCount == 0
        && forall j | victim < j < |list| :: list[j].useCount > 0
    {
      hide Cache.Linked, Recent, Playing, Total;
      snd := tail;
      victim := |list|;
      LastIsTail();
      while snd != null && snd.useCount != 0
        invariant 0 <= victim <= |list| && snd == (if victim == 0 then null else list[victim - 1])
        invariant forall j | victim <= j < |list| :: list[j].useCount > 0
        decreases victim
      {
        assert snd in list;
        victim := victim - 1;
        Neighbours(victim);
        snd := snd.prev;
      }
      if snd != null {
        victim := victim - 1;
      }
    }

    /** These are the idle ones of the sounds in the cache. */
    ghost predicate AreIdle(idle: set<Sound>)
      reads this`list, list`useCount
    {
      forall s | s in list :: s in idle <==> s.useCount == 0
    }

    ghost function Idle(): (idle: set<Sound>)
      reads this`list, list`useCount
      ensures AreIdle(idle)
    {
      set s | s in list && s.useCount == 0
    }

    /** FindAndFreeSound: the least recently used idle sound goes. */
    method FindAndFreeSound(ghost idle: set<Sound>) returns (freed: bool, ghost victim: nat)
      requires Valid() && AreIdle(idle)
      modifies this`head, this`tail, this`list, this`size, Nodes()`prev, Nodes()`next
      ensures Valid() && Evicted(old(list), list)
      ensures freed ==> victim < |old(list)| && old(list)[victim].useCount == 0 && list == RemoveAt(old(list), victim)
      ensures freed ==> victim == IdleEnd(old(list), idle) - 1
      ensures !freed ==> list == old(list) && NoneIdle(list)
      ensures freed <==> IdleEnd(old(list), idle) > 0
    {
      hide Cache.Valid, RemoveAt, Evicted, IdleEnd, NoneIdle, Cache.AreIdle;
      EvictedNone(list);
      var snd;
      snd, victim := FindIdle();
      LastFound(idle, if snd == null then 0 else victim + 1);
      if snd == null {
        return false, 0;
      }
      FreeLastIdle(snd, victim);
      freed := true;
    }

    /** Its last idle sound leaves the cache. */
    method FreeLastIdle(snd: Sound, ghost i: nat)
      requires Valid() && i < |list| && list[i] == snd && snd.useCount == 0
      requires forall j | i < j < |list| :: list[j].useCount > 0
      modifies this`head, this`tail, this`list, this`size, Nodes()`prev, Nodes()`next
      ensures Valid() && Evicted(old(list), list) && list == RemoveAt(old(list), i)
    {
      hide Cache.Linked, RemoveAt, Counted, Recent, Evicted, Total;
      LastIsTail();
      EvictedOne(list, clock, i);
      FreeAllocatedSound(snd, i);
    }

    lemma LastFound(idle: set<Sound>, n: nat)
      requires AreIdle(idle) && n <= |list| && (n > 0 ==> list[n - 1].useCount == 0)
      requires if n == 0 then NoneIdle(list) else forall j | n <= j < |list| :: list[j].useCount > 0
      ensures n == IdleEnd(list, idle)
    {
      IdleEndIs(list, idle, n);
    }

    /**
      ReserveCacheSpace: idle sounds go until the new one fits or none is left.
     */
    method ReserveCacheSpace(len: nat, cachesize: int, ghost idle: set<Sound>)
      requires Valid() && AreIdle(idle)
      modifies this`head, this`tail, this`list, this`size, Nodes()`prev, Nodes()`next
      ensures Valid() && Evicted(old(list), list)
      ensures if cachesize <= 0 then list == old(list) else size + len <= cachesize || NoneIdle(list)
      ensures list == Reserved(old(list), idle, len, cachesize) && AreIdle(idle)
      ensures forall s | s in list :: s in old(list)
    {
      hide Cache.Valid, Evicted, NoneIdle, IdleEnd, RemoveAt, Total;
      EvictedNone(list);
      if cachesize <= 0 {
        return;
      }
      SizeIsTotal();
      while size + len > cachesize
        invariant Valid() && Evicted(old(list), list) && AreIdle(idle) && size == Total(list)
        invariant forall s | s in list :: s in old(list)
        invariant Reserved(list, idle, len, cachesize) == Reserved(old(list), idle, len, cachesize)
        decreases |list|
      {
        ghost var before := list;
        var freed, _ := FindAndFreeSound(idle);
        EvictedMembers(before, list);
        EvictedTwice(old(list), before, list);
        SizeIsTotal();
        if !freed {
          break;
        }
      }
    }

    lemma SizeIsTotal()
      requires Valid()
      ensures size == Total(list)
    {}

    /** AllocateSound: malloc says of each attempt whether there is memory. */
    method AllocateSound(sfx: nat, len: nat, cachesize: int, malloc: nat -> bool) returns (snd: Sound?)
      requires Valid()
      modifies this`head, this`tail, this`list, this`size, this`clock, Nodes()`prev, Nodes()`next
      ensures Valid()
      ensures snd == null ==> Evicted(old(list), list) && NoneIdle(list)
      ensures snd != null ==> fresh(snd) && list != [] && list[0] == snd && Evicted(old(list), list[1..])
      ensures snd != null ==>
        snd.sfx == sfx && snd.alen == len && snd.pitch == NORM_PITCH && snd.useCount == 0 && snd.held == 0
      ensures forall s | s in list && s != snd :: s in old(list)
      ensures snd != null ==> clock == old(clock) + 1 && snd.lastUse == old(clock)
      ensures var (left, room) := Prepared(old(list), old(Idle()), len, cachesize, malloc);
        (snd != null <==> room) && list == (if room then [snd] else []) + left
    {
      hide Cache.Valid, Evicted, NoneIdle, Prepared;
      var room := GetMemory(len, cachesize, malloc);
      if !room {
        return null;
      }
      snd := new Sound(sfx, len);
      ghost var rest := list;
      assert forall s | s in list :: allocated(s);
      AddSound(snd);
      assert list[1..] == rest;
    }

    /** The first half of AllocateSound: idle sounds go until there is room and memory. */
    method GetMemory(len: nat, cachesize: int, malloc: nat -> bool) returns (room: bool)
      requires Valid()
      modifies this`head, this`tail, this`list, this`size, Nodes()`prev, Nodes()`next
      ensures Valid() && Evicted(old(list), list) && (!room ==> NoneIdle(list))
      ensures forall s | s in list :: s in old(list)
      ensures (list, room) == Prepared(old(list), old(Idle()), len, cachesize, malloc)
    {
      hide Cache.Valid, Evicted, NoneIdle, IdleEnd, RemoveAt, Reserved;
      ghost var idle := Idle();
      ReserveCacheSpace(len, cachesize, idle);
      var n := 0;
      while !malloc(n)
        invariant Valid() && Evicted(old(list), list) && AreIdle(idle)
        invariant forall s | s in list :: s in old(list)
        invariant Attempted(list, idle, malloc, n) == Prepared(old(list), idle, len, cachesize, malloc)
        decreases |list|
      {
        ghost var before := list;
        var freed, _ := FindAndFreeSound(idle);
        EvictedMembers(before, list);
        EvictedTwice(old(list), before, list);
        if !freed {
          return false;
        }
        n := n + 1;
      }
      room := true;
    }

    /** The end of AllocateSound: a new sound enters the cache. */
    method AddSound(snd: Sound)
      requires Valid() && snd !in list && snd.useCount == 0 && snd.held == 0
      modifies this`head, this`tail, this`list, this`size, this`clock, Nodes()`prev, Nodes()`next, snd`prev, snd`next,
        snd`lastUse
      ensures Valid() && list == [snd] + old(list) && clock == old(clock) + 1 && snd.lastUse == old(clock)
    {
      hide Cache.Linked, Counted, Recent, Total;
      size := size + snd.alen;
      TotalAdd(snd, list);
      CountedWith(snd, list, channels[..]);
      Enlist(snd);
      assert channels[..] == old(channels[..]);
    }

    /** A sound becomes the first of the list, as the latest one used. */
    method Enlist(snd: Sound)
      requires Linked() && Recent(list, clock) && snd !in list
      modifies this`head, this`tail, this`list, this`clock, Nodes()`prev, snd`prev, snd`next, snd`lastUse
      ensures Linked() && Recent(list, clock) && list == [snd] + old(list)
      ensures clock == old(clock) + 1 && snd.lastUse == old(clock)
    {
      hide Cache.Linked;
      ghost var was := list;
      Link(snd);
      snd.lastUse := clock;
      RecentWith(snd, was, clock);
      clock := clock + 1;
    }

    /** LockAllocatedSound: the sound may not be freed, and is now the latest one used. */
    method LockAllocatedSound(snd: Sound)
      requires Valid() && snd in list
      modifies this`head, this`tail, this`list, this`clock, Nodes()`prev, Nodes()`next, snd`useCount, snd`held,
        snd`lastUse
      ensures Valid() && snd.useCount == old(snd.useCount) + 1 && snd.held == old(snd.held) + 1
      ensures list != [] && list[0] == snd && SameMembers(list, old(list))
    {
      hide Cache.Linked, Counted, Recent, Total, SameMembers;
      CountLock(snd);
      MoveToFront(snd);
      assert channels[..] == old(channels[..]);
    }

    /** The second half of LockAllocatedSound: unlink and link. */
    method MoveToFront(snd: Sound)
      requires Linked() && Counted(list, channels[..]) && Recent(list, clock) && snd in list
      modifies this`head, this`tail, this`list, this`clock, Nodes()`prev, Nodes()`next, snd`lastUse
      ensures Linked() && Counted(list, channels[..]) && Recent(list, clock)
      ensures list != [] && list[0] == snd && SameMembers(list, old(list)) && Total(list) == Total(old(list))
    {
      hide Cache.Linked, Counted, Recent, Total, SameMembers;
      LastIsTail();
      ghost var i :| 0 <= i < |list| && list[i] == snd;
      RecentWithout(list, clock, i);
      MovedToFront(list, i, channels[..]);
      Unlink(snd, i);
      Enlist(snd);
      assert channels[..] == old(channels[..]);
    }

    method CountLock(snd: Sound)
      requires snd in list && Counted(list, channels[..])
      modifies snd`useCount, snd`held
      ensures Counted(list, channels[..]) && snd.useCount == old(snd.useCount) + 1 && snd.held == old(snd.held) + 1
    {
      snd.useCount := snd.useCount + 1;
      snd.held := snd.held + 1;
      assert channels[..] == old(channels[..]);
    }

    /** UnlockAllocatedSound, for a lock that no channel stands for: the count is never too low for it. */
    method UnlockAllocatedSound(snd: Sound)
      requires Valid() && snd in list && snd.held > 0
      modifies snd`useCount, snd`held
      ensures Valid() && snd.useCount == old(snd.useCount) - 1 && snd.held == old(snd.held) - 1
    {
      hide Cache.Linked, Recent, Total, Playing;
      if snd.useCount <= 0 {
        assert false; // "Sound effect released more times than it was locked..." cannot happen
      }
      snd.useCount := snd.useCount - 1;
      snd.held := snd.held - 1;
      assert channels[..] == old(channels[..]);
    }

    /** GetAllocatedSoundBySfxInfoAndPitch: the first match. */
    method GetAllocatedSound(sfx: nat, pitch: int) returns (p: Sound?)
      requires Valid()
      ensures p == null ==> forall s | s in list :: !(s.sfx == sfx && s.pitch == pitch)
      ensures p != null ==> p in list && p.sfx == sfx && p.pitch == pitch
      ensures p != null ==> FirstMatch(list, p)
      ensures list != [] && list[0].sfx == sfx && list[0].pitch == pitch ==> p == list[0]
    {
      hide Cache.Linked, Recent, Counted, Total;
      p := head;
      ghost var i := 0;
      LastIsTail();
      while p != null
        invariant 0 <= i <= |list| && p == (if i == |list| then null else list[i])
        invariant forall j | 0 <= j < i :: !(list[j].sfx == sfx && list[j].pitch == pitch)
        decreases |list| - i
      {
        if p.sfx == sfx && p.pitch == pitch {
          assert NoMatchBefore(list, p, i);
          return;
        }
        Neighbours(i);
        p := p.next;
        i := i + 1;
      }
    }

    /** A channel starts to play a sound: one of its locks is now the channel's. */
    method Occupy(c: nat, snd: Sound)
      requires Valid() && c < NUM_CHANNELS && channels[c] == null && snd in list && snd.held > 0
      modifies channels, snd`held
      ensures Valid() && snd.held == old(snd.held) - 1 && channels[..] == old(channels[..])[c := snd]
    {
      hide Cache.Linked, Recent, Total;
      forall s: Sound
        ensures Playing(channels[..][c := snd], s) == Playing(channels[..], s) + if s == snd then 1 else 0 {
        PlayingUpdate(channels[..], c, snd, s);
      }
      channels[c] := snd;
      snd.held := snd.held - 1;
      assert channels[..] == old(channels[..])[c := snd];
    }

    /** A channel stops: its lock is nobody's until it is undone. */
    method Vacate(c: nat, snd: Sound)
      requires Valid() && c < NUM_CHANNELS && channels[c] == snd
      modifies channels, snd`held
      ensures Valid() && snd in list && snd.held == old(snd.held) + 1 && channels[..] == old(channels[..])[c := null]
    {
      hide Cache.Linked, Recent, Total;
      assert channels[c] == channels[..][c];
      forall s: Sound
        ensures Playing(channels[..][c := null], s) == Playing(channels[..], s) - if s == snd then 1 else 0 {
        PlayingUpdate(channels[..], c, null, s);
      }
      channels[c] := null;
      snd.held := snd.held + 1;
      assert channels[..] == old(channels[..])[c := null];
    }

    /** A shifted sound leaves when the channel was its last user. */
    ghost function AfterRelease(c: nat): seq<Sound>
      requires c < channels.Length
      reads this`list, list`pitch, list`useCount, channels, channels[c]
    {
      var was := channels[c];
      if was != null && was.pitch != NORM_PITCH && was.useCount == 1 then Without(list, was) else list
    }

    /** What is idle then: the channel's own lock does not count. */
    ghost function IdleAfterRelease(c: nat): set<Sound>
      requires c < channels.Length
      reads this`list, list`pitch, list`useCount, channels, channels[c]
    {
      set s | s in list && s in AfterRelease(c) && s.useCount == if channels[c] == s then 1 else 0
    }

    /** ReleaseSoundOnChannel: a pitch-shifted sound that is idle now goes at once. */
    method ReleaseSoundOnChannel(c: nat)
      requires Valid() && c < NUM_CHANNELS
      modifies this`head, this`tail, this`list, this`size, Nodes()`prev, Nodes()`next, Nodes()`useCount, Nodes()`held,
        channels
      ensures Valid() && |old(channels[..])| == NUM_CHANNELS && channels[..] == old(channels[..])[c := null]
      ensures forall s | s in old(list) :: s.held == old(s.held)
      ensures forall s | s in old(list) :: s.useCount == old(s.useCount) - if old(channels[c]) == s then 1 else 0
      ensures forall s | s in list :: s in old(list)
      ensures forall s | s in old(list) && s !in list ::
        s == old(channels[c]) && s.pitch != NORM_PITCH && s.useCount == 0
      ensures list == old(AfterRelease(c)) && Idle() == old(IdleAfterRelease(c))
      ensures var was := old(channels[c]); was != null && was.pitch != NORM_PITCH && was.useCount == 0 ==> was !in list
      ensures old(ShiftedPlay()) ==> ShiftedPlay()
      ensures forall s | s in old(list) && old(s.held) > 0 :: s in list
    {
      hide Cache.Linked, Counted, Recent, Total, Without;
      var snd := channels[c];
      if snd == null {
        assert channels[..] == old(channels[..])[c := null];
        return;
      }
      PlaysFromCache(c);
      Vacate(c, snd);
      UnlockAllocatedSound(snd);
      HeldIsUsed(snd);
      if snd.pitch != NORM_PITCH && snd.useCount <= 0 {
        ghost var was := list;
        ghost var i :| 0 <= i < |list| && list[i] == snd;
        LastIsTail();
        RemovedMembers(list, i);
        WithoutIs(list, i);
        FreeAllocatedSound(snd, i);
      }
    }

    lemma PlaysFromCache(c: nat)
      requires Valid() && c < NUM_CHANNELS && channels[c] != null
      ensures channels[c] in list
    {
      assert channels[..][c] == channels[c];
    }

    /** CacheSFX: an invalid sound or no memory is a failure. */
    method CacheSFX(sfx: nat, lump: Lump, cachesize: int, malloc: nat -> bool) returns (ok: bool)
      requires Valid()
      modifies this`head, this`tail, this`list, this`size, this`clock, Nodes()`prev, Nodes()`next
      ensures Valid()
      ensures ok ==>
        && list != [] && fresh(list[0]) && list[0].sfx == sfx && list[0].pitch == NORM_PITCH
        && list[0].useCount == 0 && list[0].held == 0 && Evicted(old(list), list[1..])
      ensures !ok ==> list == old(list) || Evicted(old(list), list)
      ensures !ok ==> lump.Invalid? || NoneIdle(list)
      ensures forall s | s in list && (list == [] || s != list[0]) :: s in old(list)
      ensures !ok ==> forall s | s in list :: s in old(list)
      ensures ok <==> lump.Loadable? && Prepared(old(list), old(Idle()), lump.length, cachesize, malloc).1
      ensures ok ==> list[0].alen == lump.length
      ensures old(ShiftedPlay()) ==> ShiftedPlay()
    {
      if lump.Invalid? {
        return false;
      }
      var snd := AllocateSound(sfx, lump.length, cachesize, malloc);
      ok := snd != null;
    }

    ghost predicate Cached(sfx: nat, pitch: int)
      reads this`list, list`pitch
    {
      exists s :: s in list && s.sfx == sfx && s.pitch == pitch
    }

    /** LockSound: the sound at its normal pitch is loaded if it has to be, and locked. */
    method LockSound(sfx: nat, lump: Lump, cachesize: int, malloc: nat -> bool) returns (ok: bool, ghost base: Sound?)
      requires Valid()
      modifies this`head, this`tail, this`list, this`size, this`clock
      modifies Nodes()`prev, Nodes()`next, Nodes()`useCount, Nodes()`held, Nodes()`lastUse
      ensures Valid()
      ensures ok ==>
        && base != null && list != [] && base == list[0] && base.sfx == sfx && base.pitch == NORM_PITCH
        && base.held == (if base in old(list) then old(base.held) else 0) + 1 && (base in old(list) || fresh(base))
      ensures !ok ==> base == null
      ensures ok <==> CanLock(old(Cached(sfx, NORM_PITCH)), old(list), old(Idle()), lump, cachesize, malloc)
      ensures old(Cached(sfx, NORM_PITCH)) ==>
        base in old(list) && old(FirstMatch(list, base)) && SameMembers(list, old(list))
      ensures ok && !old(Cached(sfx, NORM_PITCH)) ==> fresh(base) && base.alen == lump.length
      ensures forall s | s in old(list) && s != base :: s.held == old(s.held) && s.useCount == old(s.useCount)
      ensures forall s | s in list && s != base :: s in old(list)
      ensures forall s | s in old(list) && old(s.useCount) > 0 :: s in list
      ensures old(ShiftedPlay()) ==> ShiftedPlay()
    {
      hide Cache.Valid, Prepared;
      base := null;
      EvictedNone(list);
      var p := GetAllocatedSound(sfx, NORM_PITCH);
      if p == null {
        ok := CacheSFX(sfx, lump, cachesize, malloc);
        if !ok {
          return;
        }
        FrontOrRest(list);
      }
      p := GetAllocatedSound(sfx, NORM_PITCH);
      LockAllocatedSound(p);
      ok, base := true, p;
    }

    /** PitchShift: the source is locked, so that making room cannot free it. */
    method PitchShift(insnd: Sound, pitch: int, dstlen: nat, cachesize: int, malloc: nat -> bool)
      returns (outsnd: Sound?)
      requires Valid() && insnd in list && insnd.useCount > 0
      modifies this`head, this`tail, this`list, this`size, this`clock, Nodes()`prev, Nodes()`next
      ensures Valid() && insnd in list
      ensures outsnd == null ==> Evicted(old(list), list) && NoneIdle(list)
      ensures outsnd != null ==> fresh(outsnd) && list != [] && list[0] == outsnd && Evicted(old(list), list[1..])
      ensures outsnd != null ==> outsnd.sfx == insnd.sfx && outsnd.pitch == pitch && outsnd.alen == dstlen
      ensures outsnd != null ==> outsnd.useCount == 0 && outsnd.held == 0
      ensures outsnd != null <==> Prepared(old(list), old(Idle()), dstlen, cachesize, malloc).1
      ensures forall s | s in list && s != outsnd :: s in old(list)
      ensures forall s | s in old(list) && s.useCount > 0 :: s in list
    {
      hide Cache.Valid;
      outsnd := AllocateSound(insnd.sfx, dstlen, cachesize, malloc);
      if outsnd == null {
        return;
      }
      FrontOrRest(list);
      SetPitch(outsnd, pitch);
    }

    method SetPitch(snd: Sound, pitch: int)
      requires Valid()
      modifies snd`pitch
      ensures Valid() && snd.pitch == pitch
    {
      snd.pitch := pitch;
    }

    lemma FrontOrRest(list: seq<Sound>)
      requires list != []
      ensures forall s :: s in list <==> s == list[0] || s in list[1..]
    {
      assert list == [list[0]] + list[1..];
    }

    /**
      I_SDL_StartSound. A start at the normal pitch, or at a pitch at which another channel plays the
      sound already, leaves one lock too many on the unshifted sound: leaked says so. A sound
      with such a lock is never evicted again.
     */
    method StartSound(sfx: nat, channel: int, pitch: int, shift: bool, dstlen: nat, lump: Lump, cachesize: int,
                      malloc: nat -> bool, mallocShifted: nat -> bool)
      returns (handle: int, ghost base: Sound?, ghost leaked: bool)
      requires Valid() && ShiftedPlay()
      modifies this`head, this`tail, this`list, this`size, this`clock, channels
      modifies Nodes()`prev, Nodes()`next, Nodes()`useCount, Nodes()`held, Nodes()`lastUse
      ensures Valid() && ShiftedPlay() && |old(channels[..])| == NUM_CHANNELS && handle in {-1, channel}
      ensures !(0 <= channel < NUM_CHANNELS) ==> handle == -1 && channels[..] == old(channels[..]) && list == old(list)
      ensures 0 <= channel < NUM_CHANNELS && handle == -1 ==>
        channels[..] == old(channels[..])[channel := null] && !leaked
      ensures handle >= 0 ==> base != null && base in list && base.sfx == sfx && base.pitch == NORM_PITCH
      ensures handle >= 0 ==>
        && channels[..] == old(channels[..])[channel := channels[channel]]
        && channels[channel] != null && channels[channel].sfx == sfx && channels[channel].pitch in {pitch, NORM_PITCH}
      ensures handle >= 0 && pitch == NORM_PITCH ==> channels[channel] == base
      ensures 0 <= channel < NUM_CHANNELS ==>
        (handle == channel <==> old(CanLock(Cached(sfx, NORM_PITCH), AfterRelease(channel), IdleAfterRelease(channel),
                                            lump, cachesize, malloc)))
      ensures handle >= 0 && (leaked || (shift && mallocShifted(0))) ==> channels[channel].pitch == pitch
      ensures handle >= 0 && !leaked && !shift ==> channels[channel] == base
      ensures handle >= 0 ==> (leaked <==> pitch == NORM_PITCH || old(Shared(sfx, pitch, channel)))
      ensures leaked ==> base != null && Pinned(base)
      ensures forall s | s in old(list) && old(Pinned(s)) :: Pinned(s)
      ensures forall s | s in list :: s in old(list) || fresh(s)
      ensures forall s | s in list ::
        s.held == (if s in old(list) then old(s.held) else 0) + if leaked && s == base then 1 else 0
    {
      hide Cache.Valid, Evicted, NoneIdle, Cache.Cached, Cache.Shared, CanLock, Cache.AfterRelease,
        Cache.IdleAfterRelease;
      base, leaked := null, false;
      ChannelCount();
      if channel < 0 || channel >= NUM_CHANNELS {
        return -1, base, leaked;
      }
      FreeChannel(channel, sfx, pitch);
      ghost var idle := channels[..];
      var snd;
      snd, base, leaked := FetchSound(sfx, pitch, shift, dstlen, lump, cachesize, malloc, mallocShifted);
      if snd == null {
        return -1, base, leaked;
      }
      assert channels[..] == idle;
      assert idle[channel] == channels[channel];
      Occupy(channel, snd);
      handle := channel;
    }

    /** The first step of I_SDL_StartSound: what is left of a sound in the cache when its channel is free. */
    method FreeChannel(c: nat, sfx: nat, pitch: int)
      requires Valid() && ShiftedPlay() && c < NUM_CHANNELS
      modifies this`head, this`tail, this`list, this`size, Nodes()`prev, Nodes()`next, Nodes()`useCount, Nodes()`held,
        channels
      ensures Valid() && ShiftedPlay() && |old(channels[..])| == NUM_CHANNELS
      ensures channels[..] == old(channels[..])[c := null]
      ensures list == old(AfterRelease(c)) && Idle() == old(IdleAfterRelease(c))
      ensures Cached(sfx, NORM_PITCH) == old(Cached(sfx, NORM_PITCH))
      ensures pitch != NORM_PITCH ==> Cached(sfx, pitch) == old(Shared(sfx, pitch, c))
      ensures forall s | s in list :: s in old(list) && s.held == old(s.held)
      ensures forall s | s in old(list) && old(s.held) > 0 :: s in list
      ensures forall s | s in old(list) && s !in list :: old(s.held) == 0
    {
      hide Cache.Valid, Evicted, NoneIdle, Cache.AfterRelease, Cache.IdleAfterRelease;
      ReleaseSoundOnChannel(c);
    }

    /** I_SDL_StartSound with its channel free: the sound to play, with a lock for the channel, or none. */
    method FetchSound(sfx: nat, pitch: int, shift: bool, dstlen: nat, lump: Lump, cachesize: int,
                      malloc: nat -> bool, mallocShifted: nat -> bool)
      returns (snd: Sound?, ghost base: Sound?, ghost leaked: bool)
      requires Valid() && ShiftedPlay()
      modifies this`head, this`tail, this`list, this`size, this`clock
      modifies Nodes()`prev, Nodes()`next, Nodes()`useCount, Nodes()`held, Nodes()`lastUse
      ensures Valid() && ShiftedUsed() && (snd == null ==> !leaked)
      ensures snd != null ==>
        && base != null && base in list && base.sfx == sfx && base.pitch == NORM_PITCH
        && snd in list && snd.held > 0 && snd.sfx == sfx && (snd.pitch == pitch || snd == base)
      ensures snd != null && pitch == NORM_PITCH ==> snd == base
      ensures snd != null ==> (leaked <==> pitch == NORM_PITCH || old(Cached(sfx, pitch)))
      ensures snd != null <==> CanLock(old(Cached(sfx, NORM_PITCH)), old(list), old(Idle()), lump, cachesize, malloc)
      ensures snd != null && (leaked || (shift && mallocShifted(0))) ==> snd.pitch == pitch
      ensures snd != null && !leaked && !shift ==> snd == base
      ensures forall s | s in old(list) && old(s.useCount) > 0 :: s in list
      ensures forall s | s in old(list) && old(s.held) > 0 :: s in list
      ensures forall s | s in list :: s in old(list) || fresh(s)
      ensures forall s | s in list ::
        s.held ==
        (if s in old(list) then old(s.held) else 0) + (if leaked && s == base then 1 else 0) + if s == snd then 1 else 0
    {
      hide Cache.Valid, Evicted, NoneIdle, Prepared;
      snd, leaked := null, false;
      forall s | s in list ensures s.useCount >= s.held { HeldIsUsed(s); }
      var ok;
      ok, base := LockSound(sfx, lump, cachesize, malloc);
      if ok {
        GrantedAtOnce(list, Idle(), dstlen, cachesize, mallocShifted);
        snd, leaked := ChooseSound(sfx, pitch, shift, dstlen, cachesize, mallocShifted, base);
      }
    }

    /** A lock is held that no channel gives back. */
    ghost predicate Pinned(snd: Sound)
      reads this`list, snd`held
    {
      snd in list && snd.held > 0
    }

    /** Which sounds Shared is about, in terms of the channels: some other channel plays one. */
    lemma SharedMeans(sfx: nat, pitch: int, channel: nat)
      requires Valid() && ShiftedPlay() && pitch != NORM_PITCH && channel < NUM_CHANNELS
      ensures Shared(sfx, pitch, channel) <==>
        exists c :: 0 <= c < NUM_CHANNELS && c != channel && channels[c] != null
          && channels[c].sfx == sfx && channels[c].pitch == pitch
    {
      if Shared(sfx, pitch, channel) {
        var s :| s in list && s.sfx == sfx && s.pitch == pitch && s.useCount > if channels[channel] == s then 1 else 0;
        var c := OtherChannel(channels[..], channel, s);
        assert channels[c] == s;
      }
      forall c | 0 <= c < NUM_CHANNELS && c != channel && channels[c] != null
          && channels[c].sfx == sfx && channels[c].pitch == pitch
        ensures Shared(sfx, pitch, channel)
      {
        PlaysFromCache(c);
        OthersCount(channels[..], channel, c, channels[c]);
      }
    }

    lemma ChannelCount()
      requires Valid()
      ensures channels.Length == NUM_CHANNELS
    {}

    /** The middle of I_SDL_StartSound: the sound to play, with a lock for the channel. */
    method ChooseSound(sfx: nat, pitch: int, shift: bool, dstlen: nat, cachesize: int, malloc: nat -> bool,
      ghost base: Sound)
      returns (snd: Sound, ghost leaked: bool)
      requires Valid() && list != [] && base == list[0] && base.sfx == sfx && base.pitch == NORM_PITCH && base.held > 0
      modifies this`head, this`tail, this`list, this`size, this`clock
      modifies Nodes()`prev, Nodes()`next, Nodes()`useCount, Nodes()`held, Nodes()`lastUse
      ensures Valid() && snd in list && base in list && snd.held > 0
      ensures snd.sfx == sfx && (snd.pitch == pitch || snd == base)
      ensures pitch == NORM_PITCH ==> leaked && snd == base
      ensures leaked <==> old(Cached(sfx, pitch))
      ensures snd.pitch == pitch <==>
        leaked || (shift && Prepared(old(list), old(Idle()), dstlen, cachesize, malloc).1)
      ensures old(ShiftedUsed()) ==> ShiftedUsed()
      ensures forall s | s in old(list) && old(s.useCount) > 0 :: s in list
      ensures forall s | s in list :: s in old(list) || (s == snd && fresh(s))
      ensures forall s | s in list ::
        s.held + (if s == base && !leaked then 1 else 0) ==
        (if s in old(list) then old(s.held) else 0) + if s == snd then 1 else 0
    {
      hide Cache.Valid, Evicted, NoneIdle, Prepared;
      leaked := false;
      var p := GetAllocatedSound(sfx, pitch);
      if p != null {
        LockAllocatedSound(p);
        return p, true;
      }
      p := GetAllocatedSound(sfx, NORM_PITCH);
      if p == null {
        assert false;
      }
      snd := p;
      HeldIsUsed(snd);
      if shift {
        var newsnd := PitchShift(snd, pitch, dstlen, cachesize, malloc);
        if newsnd != null {
          LockAllocatedSound(newsnd);
          UnlockAllocatedSound(snd);
          snd := newsnd;
        }
      }
    }

    lemma HeldIsUsed(snd: Sound)
      requires Valid() && snd in list
      ensures snd.useCount >= snd.held
    {}

    /** What the cache is for: a sound that plays is in it, is counted as used, and is not evicted. */
    lemma PlayingIsSafe(c: nat)
      requires Valid() && c < NUM_CHANNELS && channels[c] != null
      ensures channels[c] in list && channels[c].useCount >= Playing(channels[..], channels[c]) >= 1
    {
      PlaysFromCache(c);
      assert channels[..][c] == channels[c];
      PlayingPositive(channels[..], c, channels[c]);
    }

    /** I_SDL_StopSound. */
    method StopSound(handle: int)
      requires Valid() && ShiftedPlay()
      modifies this`head, this`tail, this`list, this`size, Nodes()`prev, Nodes()`next, Nodes()`useCount, Nodes()`held,
        channels
      ensures Valid() && ShiftedPlay() && |old(channels[..])| == NUM_CHANNELS
      ensures forall s | s in old(list) && old(Pinned(s)) :: Pinned(s)
      ensures channels[..] == if 0 <= handle < NUM_CHANNELS then old(channels[..])[handle := null]
        else old(channels[..])
      ensures forall s | s in old(list) && s.pitch == NORM_PITCH :: s in list
      ensures forall s | s in list :: s in old(list) && s.held == old(s.held)
    {
      hide Cache.Valid;
      ChannelCount();
      if handle < 0 || handle >= NUM_CHANNELS {
        return;
      }
      ReleaseSoundOnChannel(handle);
    }

    /** I_SDL_UpdateSound: finished says of each channel whether the mixer has come to the end of its sound. */
    method UpdateSound(finished: seq<bool>)
      requires Valid() && ShiftedPlay() && |finished| == NUM_CHANNELS
      modifies this`head, this`tail, this`list, this`size, Nodes()`prev, Nodes()`next, Nodes()`useCount, Nodes()`held,
        channels
      ensures Valid() && ShiftedPlay() && |channels[..]| == NUM_CHANNELS
      ensures forall s | s in old(list) && old(Pinned(s)) :: Pinned(s)
      ensures forall c | 0 <= c < NUM_CHANNELS :: channels[c] == if finished[c] then null else old(channels[c])
      ensures forall s | s in old(list) && s.pitch == NORM_PITCH :: s in list
      ensures forall s | s in list :: s in old(list) && s.held == old(s.held)
    {
      hide Cache.Valid;
      ChannelCount();
      var i := 0;
      while i < NUM_CHANNELS
        invariant 0 <= i <= NUM_CHANNELS && Valid() && ShiftedPlay() && channels.Length == NUM_CHANNELS
        invariant forall s | s in old(list) && s.pitch == NORM_PITCH :: s in list
        invariant forall s | s in old(list) && old(Pinned(s)) :: Pinned(s)
        invariant forall c | 0 <= c < NUM_CHANNELS ::
          channels[c] == if c < i && finished[c] then null else old(channels[c])
        invariant forall s | s in list :: s in old(list) && s.held == old(s.held)
      {
        if channels[i] != null && finished[i] {
          ghost var before := channels[..];
          ReleaseSoundOnChannel(i);
          assert forall c | 0 <= c < NUM_CHANNELS ::
            channels[c] == channels[..][c] && (c != i ==> channels[c] == before[c]);
        }
        i := i + 1;
      }
    }

    lemma LastIsTail()
      requires Linked()
      ensures tail == (if list == [] then null else list[|list| - 1])
      ensures head == (if list == [] then null else list[0])
      ensures Distinct(list)
    {}

    lemma Neighbours(i: nat)
      requires Linked() && i < |list|
      ensures list[i].prev == PrevOf(list, i) && list[i].next == NextOf(list, i)
      ensures i > 0 ==> list[i - 1] in list && list[i].prev == list[i - 1] && list[i] != list[i - 1]
      ensures i < |list| - 1 ==> list[i + 1] in list && list[i].next == list[i + 1] && list[i] != list[i + 1]
      ensures list[i].prev == null <==> i == 0
      ensures list[i].next == null <==> i == |list| - 1
    {
      assert HookedAt(list, i);
    }
  }

  lemma AddedLinks(was: seq<Sound>, snd: Sound, i: nat)
    requires i <= |was|
    ensures var list := [snd] + was;
      && NextOf(list, i) == (if i == 0 then (if was == [] then null else was[0]) else NextOf(was, i - 1))
      && PrevOf(list, i) == (if i == 0 then null else if i == 1 then snd else PrevOf(was, i - 1))
  {}

  lemma RemovedEnds(was: seq<Sound>, i: nat)
    requires Distinct(was) && i < |was|
    ensures var list := RemoveAt(was, i);
      && Distinct(list)
      && (if list == [] then null else list[0]) == (if i == 0 then NextOf(was, 0) else was[0])
      && (if list == [] then null else list[|list| - 1]) == (if i == |was| - 1 then PrevOf(was, i) else was[|was| - 1])
  {}

  lemma RemovedLinks(was: seq<Sound>, i: nat, k: nat)
    requires Distinct(was) && i < |was| && k < |was| - 1
    ensures var list, j := RemoveAt(was, i), if k < i then k else k + 1;
      && list[k] == was[j] && was[j] != was[i]
      && NextOf(list, k) == (if k == i - 1 then NextOf(was, i) else NextOf(was, j))
      && PrevOf(list, k) == (if k == i then PrevOf(was, i) else PrevOf(was, j))
  {}

  // ------------------------------------------------------------------
  // Runs
  // ------------------------------------------------------------------

  /** What the game asks of the sound code, with what loading and memory have to say. */
  datatype Command =
    | Start(sfx: nat, channel: int, pitch: int, shift: bool, dstlen: nat, lump: Lump, cachesize: int,
            malloc: nat -> bool, mallocShifted: nat -> bool)
    | Stop(handle: int)
    | Update(finished: seq<bool>)

  predicate ValidCommand(c: Command) { c.Update? ==> |c.finished| == NUM_CHANNELS }

  /** What a command does to the channels. */
  ghost predicate Steps(c: Command, before: seq<Sound?>, after: seq<Sound?>) {
    && |before| == |after| == NUM_CHANNELS
    && match c
      case Start(sfx, channel, _, _, _, _, _, _, _) =>
        && (forall k | 0 <= k < NUM_CHANNELS && k != channel :: after[k] == before[k])
        && (0 <= channel < NUM_CHANNELS && after[channel] != null ==> after[channel].sfx == sfx)
      case Stop(handle) => after == if 0 <= handle < NUM_CHANNELS then before[handle := null] else before
      case Update(finished) =>
        |finished| == NUM_CHANNELS
        && forall k | 0 <= k < NUM_CHANNELS :: after[k] == if finished[k] then null else before[k]
  }

  /**
    Over any run each command changes its channels, and a sound with a lock that no channel gives back stays in the
    cache.
   */
  method Run(cache: Cache, commands: seq<Command>) returns (ghost states: seq<seq<Sound?>>)
    requires cache.Valid() && cache.ShiftedPlay() && forall i | 0 <= i < |commands| :: ValidCommand(commands[i])
    modifies cache, cache.channels, cache.Nodes()
    ensures cache.Valid() && cache.ShiftedPlay()
    ensures forall s | s in old(cache.list) && old(cache.Pinned(s)) :: cache.Pinned(s)
    ensures |states| == |commands| + 1
    ensures states[0] == old(cache.channels[..]) && states[|commands|] == cache.channels[..]
    ensures forall i | 0 <= i < |commands| :: Steps(commands[i], states[i], states[i + 1])
  {
    hide Cache.Valid, Cache.ShiftedPlay, Cache.Shared, CanLock, Cache.AfterRelease, Cache.IdleAfterRelease;
    states := [cache.channels[..]];
    var i := 0;
    while i < |commands|
      invariant 0 <= i <= |commands| && cache.Valid() && cache.ShiftedPlay()
      invariant forall s | s in cache.list :: s in old(cache.list) || fresh(s)
      invariant forall s | s in old(cache.list) && old(cache.Pinned(s)) :: cache.Pinned(s)
      invariant |states| == i + 1 && states[0] == old(cache.channels[..]) && states[i] == cache.channels[..]
      invariant forall j | 0 <= j < i :: Steps(commands[j], states[j], states[j + 1])
    {
      assert ValidCommand(commands[i]);
      cache.ChannelCount();
      ghost var before := cache.channels[..];
      match commands[i] {
        case Start(sfx, channel, pitch, shift, dstlen, lump, cachesize, malloc, mallocShifted) =>
          var _, _, _ := cache.StartSound(sfx, channel, pitch, shift, dstlen, lump, cachesize, malloc, mallocShifted);
        case Stop(handle) =>
          cache.StopSound(handle);
        case Update(finished) =>
          cache.UpdateSound(finished);
      }
      cache.ChannelCount();
      assert forall k | 0 <= k < NUM_CHANNELS :: cache.channels[..][k] == cache.channels[k];
      assert Steps(commands[i], before, cache.channels[..]);
      states := states + [cache.channels[..]];
      i := i + 1;
    }
  }
}
