/**
  src/i_oplmusic.c: the lists of free and of allocated voices, as values. What each driver
  version makes of them, and which voice gives way to a new note.
 */
module VoiceLists {
  import opened Collections

  // ------------------------------------------------------------------
  // Voices
  // ------------------------------------------------------------------

  /** The levels of opl_voice_t: of the note, and the register values of the carrier and of the modulator. */
  datatype Levels = Levels(note: nat, car: nat, mod: nat)

  /**
    opl_voice_t. The instrument is an index, -1 if none was loaded; the channel is an index, -1 if
    the voice is free.
   */
  datatype Voice = Voice(instr: int, instrVoice: nat, channel: int, key: nat, note: nat, freq: nat,
                         levels: Levels, regPan: nat, priority: int)

  /** The voices on a channel, or those that play one of its keys. */
  datatype Query = Query(channel: nat, key: int)

  predicate Matches(vs: seq<Voice>, q: Query, v: nat) {
    v < |vs| && vs[v].channel == q.channel && (q.key < 0 || vs[v].key == q.key)
  }

  predicate Second(vs: seq<Voice>, v: nat) { v < |vs| && vs[v].instrVoice != 0 }

  // ------------------------------------------------------------------
  // The two lists
  // ------------------------------------------------------------------

  /** voice_free_list and voice_alloced_list. */
  datatype Lists = Lists(free: seq<nat>, alloced: seq<nat>)

  /** What remains after the crash that older drivers emulate: both lists are empty. */
  const WIPED := Lists([], [])

  ghost predicate NoDup(s: seq<nat>) {
    forall i, j | 0 <= i < j < |s| :: s[i] != s[j]
  }

  /** Every voice is in one of the lists, once. */
  ghost predicate Partition(l: Lists, n: nat) {
    && NoDup(l.free) && NoDup(l.alloced) && |l.free| + |l.alloced| == n
    && (forall v | v in l.free :: v < n && v !in l.alloced)
    && (forall v | v in l.alloced :: v < n)
    && (forall v | 0 <= v < n :: v in l.free || v in l.alloced)
  }

  lemma FreeIsFree(l: Lists, n: nat)
    requires (l == WIPED || Partition(l, n)) && l.free != []
    ensures l.free[0] < n && l.free[0] !in l.alloced
  {
    assert l.free[0] in l.free;
  }

  lemma AllFree(s: seq<nat>, n: nat)
    requires |s| == n && forall i | 0 <= i < n :: s[i] == i
    ensures Partition(Lists(s, []), n)
  {
    forall v | 0 <= v < n ensures v in s {
      assert s[v] == v;
    }
  }

  lemma RemovedMembers(s: seq<nat>, i: nat)
    requires NoDup(s) && i < |s|
    ensures NoDup(RemoveAt(s, i)) && forall v :: v in RemoveAt(s, i) <==> v in s && v != s[i]
  {
    var r := RemoveAt(s, i);
    forall v | v in s && v != s[i] ensures v in r {
      var k :| 0 <= k < |s| && s[k] == v;
      assert r[if k < i then k else k - 1] == v;
    }
    forall v | v in r ensures v in s && v != s[i] {
      var k :| 0 <= k < |r| && r[k] == v;
    }
  }

  lemma AddedMembers(s: seq<nat>, v: nat)
    requires NoDup(s) && v !in s
    ensures NoDup(s + [v]) && forall w :: w in s + [v] <==> w in s || w == v
  {}

  /** GetFreeVoice: the first free voice. */
  function Taken(l: Lists): Lists
    requires l.free != []
  {
    Lists(l.free[1..], l.alloced + [l.free[0]])
  }

  lemma TakenKeeps(l: Lists, n: nat)
    requires Partition(l, n) && l.free != []
    ensures Partition(Taken(l), n)
  {
    RemovedMembers(l.free, 0);
    assert RemoveAt(l.free, 0) == l.free[1..];
    AddedMembers(l.alloced, l.free[0]);
  }

  function ReleasedOne(l: Lists, i: nat): Lists
    requires i < |l.alloced|
  {
    Lists(l.free + [l.alloced[i]], RemoveAt(l.alloced, i))
  }

  lemma ReleasedOneKeeps(l: Lists, i: nat, n: nat)
    requires Partition(l, n) && i < |l.alloced|
    ensures Partition(ReleasedOne(l, i), n)
  {
    RemovedMembers(l.alloced, i);
    assert l.alloced[i] in l.alloced;
    AddedMembers(l.free, l.alloced[i]);
  }

  /**
    ReleaseVoice: drivers before 1.9 release the voice that follows the second voice of an
    instrument too, and an index past the end wipes both lists.
   */
  function Released(l: Lists, i: nat, vs: seq<Voice>, chained: bool): (r: Lists)
    ensures |r.alloced| <= |l.alloced|
    ensures i < |l.alloced| ==> |r.alloced| < |l.alloced|
    decreases |l.alloced|
  {
    if i >= |l.alloced| then WIPED
    else
      var next := ReleasedOne(l, i);
      if chained && Second(vs, l.alloced[i]) then Released(next, i, vs, chained) else next
  }

  lemma {:induction false} ReleasedKeeps(l: Lists, i: nat, vs: seq<Voice>, chained: bool, n: nat)
    requires Partition(l, n)
    ensures var r := Released(l, i, vs, chained); r == WIPED || Partition(r, n)
    ensures !chained && i < |l.alloced| ==> Partition(Released(l, i, vs, chained), n)
    decreases |l.alloced|
  {
    hide Partition;
    if i < |l.alloced| {
      ReleasedOneKeeps(l, i, n);
      if chained && Second(vs, l.alloced[i]) {
        ReleasedKeeps(ReleasedOne(l, i), i, vs, chained, n);
      }
    }
  }

  /** Exactly when the older drivers wipe the lists: from the index on there are second voices only. */
  lemma {:induction false} WipedWhen(l: Lists, i: nat, vs: seq<Voice>)
    requires i < |l.alloced|
    ensures Released(l, i, vs, true) == WIPED <==> (forall j | i <= j < |l.alloced| :: Second(vs, l.alloced[j]))
    decreases |l.alloced|
  {
    var next := ReleasedOne(l, i);
    if Second(vs, l.alloced[i]) {
      assert forall j | i < j < |l.alloced| :: l.alloced[j] == next.alloced[j - 1];
      assert forall j | i <= j < |next.alloced| :: next.alloced[j] == l.alloced[j + 1];
      if i < |next.alloced| {
        WipedWhen(next, i, vs);
      }
    }
  }

  lemma {:induction false} SameReleases(l: Lists, i: nat, vs: seq<Voice>, ws: seq<Voice>, chained: bool)
    requires forall v: nat :: Second(vs, v) == Second(ws, v)
    ensures Released(l, i, vs, chained) == Released(l, i, ws, chained)
    decreases |l.alloced|
  {
    hide Second;
    if i < |l.alloced| {
      SameReleases(ReleasedOne(l, i), i, vs, ws, chained);
    }
  }

  lemma {:induction false} ReleasedMembers(l: Lists, i: nat, vs: seq<Voice>, chained: bool)
    ensures forall v | v in Released(l, i, vs, chained).alloced :: v in l.alloced
    decreases |l.alloced|
  {
    hide Second;
    if i < |l.alloced| {
      ReleasedMembers(ReleasedOne(l, i), i, vs, chained);
    }
  }

  /** Voices that are still allocated are untouched; others may have lost channel and note. */
  ghost predicate Settled(before: seq<Voice>, after: seq<Voice>, l: Lists) {
    |before| == |after| && forall v | 0 <= v < |after| ::
      && after[v].instrVoice == before[v].instrVoice
      && (v in l.alloced ==> after[v] == before[v])
      && (after[v] == before[v] || after[v] == before[v].(channel := -1, note := 0))
  }

  /** Voices that are allocated, but v and w, were so before and are untouched. */
  ghost predicate Kept(before: seq<Voice>, l: Lists, after: seq<Voice>, next: Lists, v: int, w: int) {
    |before| == |after| && forall x | x in next.alloced && x != v && x != w ::
      x in l.alloced && (x < |after| ==> after[x] == before[x])
  }

  lemma KeptTwice(a: seq<Voice>, k: Lists, b: seq<Voice>, l: Lists, c: seq<Voice>, m: Lists, v: int, w: int)
    requires Kept(a, k, b, l, v, -1) && Kept(b, l, c, m, w, -1)
    ensures Kept(a, k, c, m, v, w)
  {}

  lemma KeptThen(a: seq<Voice>, k: Lists, b: seq<Voice>, l: Lists, c: seq<Voice>, m: Lists, v: int, w: int)
    requires Kept(a, k, b, l, -1, -1) && Kept(b, l, c, m, v, w)
    ensures Kept(a, k, c, m, v, w)
  {}

  lemma KeptSwapped(a: seq<Voice>, k: Lists, b: seq<Voice>, l: Lists, v: int, w: int)
    requires Kept(a, k, b, l, v, w)
    ensures Kept(a, k, b, l, w, v)
  {}

  lemma KeptSettled(before: seq<Voice>, l: Lists, after: seq<Voice>, next: Lists)
    requires Settled(before, after, next) && forall v | v in next.alloced :: v in l.alloced
    ensures Kept(before, l, after, next, -1, -1)
  {}

  lemma KeptAll(vs: seq<Voice>, l: Lists)
    ensures Kept(vs, l, vs, l, -1, -1)
  {}

  lemma SettledTwice(a: seq<Voice>, b: seq<Voice>, c: seq<Voice>, first: Lists, second: Lists)
    requires Settled(a, b, first) && Settled(b, c, second) && forall v | v in second.alloced :: v in first.alloced
    ensures Settled(a, c, second)
  {}

  lemma SettledSeconds(a: seq<Voice>, b: seq<Voice>, l: Lists)
    requires Settled(a, b, l)
    ensures |a| == |b| && forall v: nat :: Second(a, v) == Second(b, v)
  {}

  lemma SettledMatches(a: seq<Voice>, b: seq<Voice>, l: Lists, q: Query, v: nat)
    requires Settled(a, b, l) && v in l.alloced
    ensures Matches(a, q, v) == Matches(b, q, v)
  {}

  lemma SettledAlready(vs: seq<Voice>, l: Lists)
    ensures Settled(vs, vs, l)
  {}

  lemma ReleasedSmaller(l: Lists, i: nat, vs: seq<Voice>, chained: bool)
    requires i < |l.alloced|
    ensures |Released(l, i, vs, chained).alloced| < |l.alloced|
  {}

  // ------------------------------------------------------------------
  // Key off, all notes off
  // ------------------------------------------------------------------

  /** The loops of KeyOffEvent and AllNotesOff from index i on. */
  function Swept(l: Lists, i: nat, vs: seq<Voice>, q: Query, chained: bool): (r: Lists)
    decreases |l.alloced|, |l.alloced| - i
  {
    if i >= |l.alloced| then l
    else if Matches(vs, q, l.alloced[i]) then Swept(Released(l, i, vs, chained), i, vs, q, chained)
    else Swept(l, i + 1, vs, q, chained)
  }

  /** Releases do not change what the rest of the loop finds. */
  lemma {:induction false} SameSweep(l: Lists, i: nat, vs: seq<Voice>, ws: seq<Voice>, q: Query, chained: bool)
    requires
      && (forall v: nat :: Second(vs, v) == Second(ws, v))
      && forall v | v in l.alloced :: Matches(vs, q, v) == Matches(ws, q, v)
    ensures Swept(l, i, vs, q, chained) == Swept(l, i, ws, q, chained)
    decreases |l.alloced|, |l.alloced| - i
  {
    hide Second, Matches;
    if i < |l.alloced| {
      SameReleases(l, i, vs, ws, chained);
      ReleasedMembers(l, i, ws, chained);
      if Matches(ws, q, l.alloced[i]) {
        SameSweep(Released(l, i, ws, chained), i, vs, ws, q, chained);
      } else {
        SameSweep(l, i + 1, vs, ws, q, chained);
      }
    }
  }

  function Matching(s: seq<nat>, vs: seq<Voice>, q: Query): seq<nat> {
    if s == [] then [] else (if Matches(vs, q, s[0]) then [s[0]] else []) + Matching(s[1..], vs, q)
  }

  function Others(s: seq<nat>, vs: seq<Voice>, q: Query): seq<nat> {
    if s == [] then [] else (if Matches(vs, q, s[0]) then [] else [s[0]]) + Others(s[1..], vs, q)
  }

  /** The 1.9 driver frees exactly the matching voices, in order, and the others keep theirs. */
  lemma {:induction false} SweptExactly(l: Lists, i: nat, vs: seq<Voice>, q: Query)
    requires i <= |l.alloced|
    ensures Swept(l, i, vs, q, false) ==
      Lists(l.free + Matching(l.alloced[i..], vs, q), l.alloced[..i] + Others(l.alloced[i..], vs, q))
    decreases |l.alloced| - i
  {
    hide Matches;
    var a := l.alloced;
    if i < |a| {
      var v, rest := a[i], a[i + 1..];
      assert a[i..][1..] == rest;
      if Matches(vs, q, v) {
        var next := ReleasedOne(l, i);
        assert next.alloced[i..] == rest && next.alloced[..i] == a[..i];
        SweptExactly(next, i, vs, q);
        assert l.free + [v] + Matching(rest, vs, q) == l.free + ([v] + Matching(rest, vs, q));
      } else {
        SweptExactly(l, i + 1, vs, q);
        assert a[..i + 1] + Others(rest, vs, q) == a[..i] + ([v] + Others(rest, vs, q));
      }
    } else {
      assert a[i..] == [] && a[..i] == a;
    }
  }

  lemma SweptAll(l: Lists, vs: seq<Voice>, q: Query)
    ensures Swept(l, 0, vs, q, false) == Lists(l.free + Matching(l.alloced, vs, q), Others(l.alloced, vs, q))
  {
    SweptExactly(l, 0, vs, q);
    assert l.alloced[0..] == l.alloced && l.alloced[..0] == [];
  }

  /** With every driver no matching voice stays allocated. */
  lemma {:induction false} SweptClean(l: Lists, i: nat, vs: seq<Voice>, q: Query, chained: bool)
    requires forall j | 0 <= j < i && j < |l.alloced| :: !Matches(vs, q, l.alloced[j])
    ensures forall v | v in Swept(l, i, vs, q, chained).alloced :: !Matches(vs, q, v)
    decreases |l.alloced|, |l.alloced| - i
  {
    if i < |l.alloced| {
      if Matches(vs, q, l.alloced[i]) {
        ReleasedPrefix(l, i, vs, chained);
        var r := Released(l, i, vs, chained).alloced;
        forall j | 0 <= j < i && j < |r| ensures !Matches(vs, q, r[j]) {
          assert r[j] == l.alloced[j];
        }
        SweptClean(Released(l, i, vs, chained), i, vs, q, chained);
      } else {
        SweptClean(l, i + 1, vs, q, chained);
      }
    }
  }

  /** A release does not touch the voices before its index, unless it wipes the lists. */
  lemma {:induction false} ReleasedPrefix(l: Lists, i: nat, vs: seq<Voice>, chained: bool)
    ensures var r := Released(l, i, vs, chained).alloced;
      forall j | 0 <= j < i && j < |r| :: j < |l.alloced| && r[j] == l.alloced[j]
    decreases |l.alloced|
  {
    if i < |l.alloced| {
      var next := ReleasedOne(l, i);
      if chained && Second(vs, l.alloced[i]) {
        ReleasedPrefix(next, i, vs, chained);
      }
    }
  }

  lemma {:induction false} SweptKeeps(l: Lists, i: nat, vs: seq<Voice>, q: Query, chained: bool, n: nat)
    requires Partition(l, n) || l == WIPED
    ensures var r := Swept(l, i, vs, q, chained); r == WIPED || Partition(r, n)
    ensures l == WIPED ==> Swept(l, i, vs, q, chained) == WIPED
    ensures !chained && Partition(l, n) ==> Partition(Swept(l, i, vs, q, chained), n)
    decreases |l.alloced|, |l.alloced| - i
  {
    hide Partition, Matches;
    if i < |l.alloced| {
      if Matches(vs, q, l.alloced[i]) {
        ReleasedKeeps(l, i, vs, chained, n);
        SweptKeeps(Released(l, i, vs, chained), i, vs, q, chained, n);
      } else {
        SweptKeeps(l, i + 1, vs, q, chained, n);
      }
    }
  }

  lemma {:induction false} SweptMembers(l: Lists, i: nat, vs: seq<Voice>, q: Query, chained: bool)
    ensures forall v | v in Swept(l, i, vs, q, chained).alloced :: v in l.alloced
    decreases |l.alloced|, |l.alloced| - i
  {
    hide Matches;
    if i < |l.alloced| {
      ReleasedMembers(l, i, vs, chained);
      if Matches(vs, q, l.alloced[i]) {
        SweptMembers(Released(l, i, vs, chained), i, vs, q, chained);
      } else {
        SweptMembers(l, i + 1, vs, q, chained);
      }
    }
  }

  // ------------------------------------------------------------------
  // Pitch bend
  // ------------------------------------------------------------------

  /** PitchBendEvent: the voices of the channel move behind the others. */
  function Bent(l: Lists, vs: seq<Voice>, q: Query): Lists {
    Lists(l.free, Others(l.alloced, vs, q) + Matching(l.alloced, vs, q))
  }

  lemma {:induction false} SplitMembers(s: seq<nat>, vs: seq<Voice>, q: Query)
    ensures |Others(s, vs, q)| + |Matching(s, vs, q)| == |s|
    ensures forall v :: v in Others(s, vs, q) <==> v in s && !Matches(vs, q, v)
    ensures forall v :: v in Matching(s, vs, q) <==> v in s && Matches(vs, q, v)
    ensures NoDup(s) ==> NoDup(Others(s, vs, q)) && NoDup(Matching(s, vs, q))
  {
    hide Matches;
    if s != [] {
      SplitMembers(s[1..], vs, q);
      assert s == [s[0]] + s[1..];
    }
  }

  lemma {:induction false} SplitMore(s: seq<nat>, v: nat, vs: seq<Voice>, q: Query)
    ensures Matching(s + [v], vs, q) == Matching(s, vs, q) + if Matches(vs, q, v) then [v] else []
    ensures Others(s + [v], vs, q) == Others(s, vs, q) + if Matches(vs, q, v) then [] else [v]
  {
    hide Matches;
    if s == [] {
      assert s + [v] == [v] && [v][1..] == [];
    } else {
      assert (s + [v])[1..] == s[1..] + [v];
      SplitMore(s[1..], v, vs, q);
    }
  }

  lemma MatchesChannel(vs: seq<Voice>, channel: nat, v: nat)
    ensures Matches(vs, Query(channel, -1), v) <==> v < |vs| && vs[v].channel == channel
  {}

  /** One more voice of the list falls to one of the two parts. */
  lemma SplitNext(a: seq<nat>, i: nat, vs: seq<Voice>, channel: nat)
    requires i < |a| && a[i] < |vs|
    ensures var q, mine := Query(channel, -1), vs[a[i]].channel == channel;
      && Matching(a[..i + 1], vs, q) == Matching(a[..i], vs, q) + (if mine then [a[i]] else [])
      && Others(a[..i + 1], vs, q) == Others(a[..i], vs, q) + if mine then [] else [a[i]]
  {
    hide Matching, Others, Matches;
    assert a[..i + 1] == a[..i] + [a[i]];
    SplitMore(a[..i], a[i], vs, Query(channel, -1));
    MatchesChannel(vs, channel, a[i]);
  }

  lemma MembersOfChannel(a: seq<nat>, vs: seq<Voice>, channel: nat)
    ensures forall v | v in a && v < |vs| && vs[v].channel == channel :: v in Matching(a, vs, Query(channel, -1))
  {
    hide Matching, Others, Matches;
    SplitMembers(a, vs, Query(channel, -1));
    forall v | v in a && v < |vs| && vs[v].channel == channel ensures v in Matching(a, vs, Query(channel, -1)) {
      MatchesChannel(vs, channel, v);
    }
  }

  /** The frequencies do not matter to a query. */
  lemma {:induction false} SameSplit(s: seq<nat>, vs: seq<Voice>, ws: seq<Voice>, q: Query)
    requires |vs| == |ws| && forall v | 0 <= v < |vs| :: ws[v].channel == vs[v].channel && ws[v].key == vs[v].key
    ensures Others(s, ws, q) == Others(s, vs, q) && Matching(s, ws, q) == Matching(s, vs, q)
  {
    if s != [] {
      SameSplit(s[1..], vs, ws, q);
    }
  }

  /** Pitch bend is a stable partition: it only reorders, and it keeps the lists a partition. */
  lemma BentKeeps(l: Lists, vs: seq<Voice>, q: Query, n: nat)
    requires Partition(l, n)
    ensures Partition(Bent(l, vs, q), n)
  {
    hide Matches;
    SplitMembers(l.alloced, vs, q);
    NoDupJoined(Others(l.alloced, vs, q), Matching(l.alloced, vs, q));
  }

  lemma NoDupJoined(s: seq<nat>, t: seq<nat>)
    requires NoDup(s) && NoDup(t) && forall v | v in s :: v !in t
    ensures NoDup(s + t) && forall v :: v in s + t <==> v in s || v in t
  {
    forall i, j | 0 <= i < |s| && 0 <= j < |t| ensures s[i] != t[j] {
      assert s[i] in s;
      assert t[j] in t;
    }
    forall i, j | 0 <= i < j < |s + t| ensures (s + t)[i] != (s + t)[j] {
      if i < |s| <= j { assert s[i] != t[j - |s|]; }
    }
  }

  // ------------------------------------------------------------------
  // The voice that gives way
  // ------------------------------------------------------------------

  function ChannelOf(vs: seq<Voice>, v: nat): int { if v < |vs| then vs[v].channel else -1 }

  function PriorityOf(vs: seq<Voice>, v: nat): int { if v < |vs| then vs[v].priority else 0 }

  /** The scan of ReplaceExistingVoice over the first n allocated voices. */
  function Victim19(a: seq<nat>, vs: seq<Voice>, n: nat): (r: nat)
    requires n <= |a|
    ensures n > 0 ==> r < n
    ensures n == 0 ==> r == 0
  {
    if n == 0 then 0
    else
      var r := Victim19(a, vs, n - 1);
      if Second(vs, a[n - 1]) || ChannelOf(vs, a[n - 1]) >= ChannelOf(vs, a[r]) then n - 1 else r
  }

  /** The last second voice among the first n, or 0 if there is none. */
  function LastSecond(a: seq<nat>, vs: seq<Voice>, n: nat): (r: nat)
    requires n <= |a|
    ensures n > 0 ==> r < n
    ensures forall j | r < j < n :: !Second(vs, a[j])
  {
    if n == 0 then 0 else if Second(vs, a[n - 1]) then n - 1 else LastSecond(a, vs, n - 1)
  }

  /** The victim is the last of the voices with the highest channel, from the last second voice on. */
  lemma {:induction false} Victim19Is(a: seq<nat>, vs: seq<Voice>, n: nat)
    requires 0 < n <= |a|
    ensures var r := Victim19(a, vs, n);
      && LastSecond(a, vs, n) <= r < n
      && (forall j | LastSecond(a, vs, n) <= j < n :: ChannelOf(vs, a[j]) <= ChannelOf(vs, a[r]))
      && (forall j | r < j < n :: ChannelOf(vs, a[j]) < ChannelOf(vs, a[r]))
  {
    if n > 1 {
      Victim19Is(a, vs, n - 1);
    }
  }

  /**
    The driver means to sacrifice a second voice if there is one. It does so just when every voice
    after the last second voice has a lower channel.
   */
  lemma SecondGivesWay(a: seq<nat>, vs: seq<Voice>)
    requires |a| > 0 && exists j :: 0 <= j < |a| && Second(vs, a[j])
    ensures var s := LastSecond(a, vs, |a|);
      Second(vs, a[Victim19(a, vs, |a|)]) <==> forall j | s < j < |a| :: ChannelOf(vs, a[j]) < ChannelOf(vs, a[s])
  {
    Victim19Is(a, vs, |a|);
    LastSecondIs(a, vs, |a|);
  }

  lemma {:induction false} LastSecondIs(a: seq<nat>, vs: seq<Voice>, n: nat)
    requires n <= |a| && exists j :: 0 <= j < n && Second(vs, a[j])
    ensures Second(vs, a[LastSecond(a, vs, n)])
  {
    if n > 0 && !Second(vs, a[n - 1]) {
      var j :| 0 <= j < n && Second(vs, a[j]);
      assert j < n - 1;
      LastSecondIs(a, vs, n - 1);
    }
  }

  /**
    The driver means to spare lower channels. It discards a voice below channel c just when there are only such voices
    left to choose.
   */
  lemma LowerGivesWay(a: seq<nat>, vs: seq<Voice>, c: int)
    requires |a| > 0
    ensures ChannelOf(vs, a[Victim19(a, vs, |a|)]) < c <==>
      forall j | LastSecond(a, vs, |a|) <= j < |a| :: ChannelOf(vs, a[j]) < c
  {
    Victim19Is(a, vs, |a|);
  }

  /** A voice of channel n, the second one of its instrument or not. */
  function VoiceOn(channel: int, second: bool): Voice {
    Voice(0, if second then 1 else 0, channel, 60, 60, 0, Levels(0, 0, 0), 0, 0)
  }

  /**
    With a second voice on channel 2 and a first voice on channel 3, the first voice goes, even for a note on channel
    9.
   */
  lemma VictimExample()
    ensures var vs := [VoiceOn(2, true), VoiceOn(3, false)];
      Victim19([0, 1], vs, 2) == 1 && Second(vs, 0) && !Second(vs, 1) && ChannelOf(vs, 1) < 9
  {
    var vs := [VoiceOn(2, true), VoiceOn(3, false)];
    assert Victim19([0, 1], vs, 1) == 0;
  }

  /** One second voice is left allocated; its release wipes the lists of an older driver, with all other voices. */
  lemma WipedExample()
    ensures Released(Lists([1, 2], [0]), 0, [VoiceOn(0, true)], true) == WIPED
  {
    WipedWhen(Lists([1, 2], [0]), 0, [VoiceOn(0, true)]);
  }

  /** The scan of ReplaceExistingVoiceDoom1. */
  function VictimDoom1(a: seq<nat>, vs: seq<Voice>, n: nat): (r: nat)
    requires n <= |a|
    ensures n > 0 ==> r < n
    ensures n == 0 ==> r == 0
  {
    if n == 0 then 0
    else
      var r := VictimDoom1(a, vs, n - 1);
      if ChannelOf(vs, a[n - 1]) > ChannelOf(vs, a[r]) then n - 1 else r
  }

  /** The first of the voices with the highest channel. */
  lemma {:induction false} VictimDoom1Is(a: seq<nat>, vs: seq<Voice>, n: nat)
    requires 0 < n <= |a|
    ensures var r := VictimDoom1(a, vs, n);
      && (forall j | 0 <= j < n :: ChannelOf(vs, a[j]) <= ChannelOf(vs, a[r]))
      && (forall j | 0 <= j < r :: ChannelOf(vs, a[j]) < ChannelOf(vs, a[r]))
  {
    if n > 1 {
      VictimDoom1Is(a, vs, n - 1);
    }
  }

  /** The scan of ReplaceExistingVoiceDoom2: the victim and its priority. */
  function VictimDoom2(a: seq<nat>, vs: seq<Voice>, channel: int, n: nat): (r: (nat, int))
    requires n <= |a|
    ensures r.0 == 0 || r.0 < n
  {
    if n == 0 then (0, 0x8000)
    else
      var (r, priority) := VictimDoom2(a, vs, channel, n - 1);
      if PriorityOf(vs, a[n - 1]) < priority && ChannelOf(vs, a[n - 1]) >= channel
        then (n - 1, PriorityOf(vs, a[n - 1]))
      else (r, priority)
  }

  predicate Eligible(a: seq<nat>, vs: seq<Voice>, channel: int, j: nat)
    requires j < |a|
  {
    ChannelOf(vs, a[j]) >= channel && PriorityOf(vs, a[j]) < 0x8000
  }

  /** The first of the voices with the lowest priority, among those that the channel may displace. */
  lemma {:induction false} VictimDoom2Is(a: seq<nat>, vs: seq<Voice>, channel: int, n: nat)
    requires n <= |a|
    ensures var (r, priority) := VictimDoom2(a, vs, channel, n);
      if exists j :: 0 <= j < n && Eligible(a, vs, channel, j) then
        && r < n && Eligible(a, vs, channel, r) && priority == PriorityOf(vs, a[r])
        && (forall j | 0 <= j < n && Eligible(a, vs, channel, j) :: priority <= PriorityOf(vs, a[j]))
        && (forall j | 0 <= j < r && Eligible(a, vs, channel, j) :: priority < PriorityOf(vs, a[j]))
      else r == 0 && priority == 0x8000
  {
    if n > 0 {
      VictimDoom2Is(a, vs, channel, n - 1);
      var (r, priority) := VictimDoom2(a, vs, channel, n - 1);
      assert Eligible(a, vs, channel, n - 1) <==>
        (ChannelOf(vs, a[n - 1]) >= channel && PriorityOf(vs, a[n - 1]) < 0x8000);
    }
  }

  // ------------------------------------------------------------------
  // Key on
  // ------------------------------------------------------------------

  /** ReplaceExistingVoiceDoom1. */
  function ReplacedDoom1(l: Lists, vs: seq<Voice>, chained: bool): (r: Lists)
    ensures l.alloced != [] ==> |r.alloced| < |l.alloced|
  {
    Released(l, VictimDoom1(l.alloced, vs, |l.alloced|), vs, chained)
  }

  /** The loop that makes room in the first driver: no more than limit voices stay allocated. */
  function MadeRoomDoom1(l: Lists, vs: seq<Voice>, limit: nat, chained: bool): (r: Lists)
    ensures |r.alloced| <= limit
    decreases |l.alloced|
  {
    if |l.alloced| > limit then MadeRoomDoom1(ReplacedDoom1(l, vs, chained), vs, limit, chained) else l
  }

  /** ReplaceExistingVoiceDoom2: the last three voices are out of reach. */
  function ReplacedDoom2(l: Lists, vs: seq<Voice>, channel: nat, chained: bool): Lists {
    var n := if |l.alloced| < 3 then 0 else |l.alloced| - 3;
    Released(l, VictimDoom2(l.alloced, vs, channel, n).0, vs, chained)
  }

  /** The room that the second driver makes: for one voice, and for another if it is needed. */
  function MadeRoomDoom2(l: Lists, vs: seq<Voice>, channel: nat, num: nat, double: bool, chained: bool): Lists {
    var first := if |l.alloced| == num then ReplacedDoom2(l, vs, channel, chained) else l;
    if |first.alloced| == num - 1 && double then ReplacedDoom2(first, vs, channel, chained) else first
  }

  /** A note takes a voice, or two. */
  function NotePlayed(l: Lists, double: bool): Lists {
    if double then TakenIfFree(TakenIfFree(l)) else TakenIfFree(l)
  }

  lemma {:induction false} SameVictimDoom1(a: seq<nat>, vs: seq<Voice>, ws: seq<Voice>, n: nat)
    requires n <= |a| && forall v | v in a :: ChannelOf(vs, v) == ChannelOf(ws, v)
    ensures VictimDoom1(a, vs, n) == VictimDoom1(a, ws, n)
  {
    hide ChannelOf;
    if n > 0 {
      SameVictimDoom1(a, vs, ws, n - 1);
      assert a[n - 1] in a && a[VictimDoom1(a, vs, n - 1)] in a;
    }
  }

  lemma {:induction false} SameVictimDoom2(a: seq<nat>, vs: seq<Voice>, ws: seq<Voice>, channel: nat, n: nat)
    requires n <= |a|
    requires forall v | v in a :: ChannelOf(vs, v) == ChannelOf(ws, v) && PriorityOf(vs, v) == PriorityOf(ws, v)
    ensures VictimDoom2(a, vs, channel, n) == VictimDoom2(a, ws, channel, n)
  {
    hide ChannelOf, PriorityOf;
    if n > 0 {
      SameVictimDoom2(a, vs, ws, channel, n - 1);
      assert a[n - 1] in a;
    }
  }

  /** What earlier releases did to the other voices does not matter to a replacement. */
  lemma SameReplaced(l: Lists, vs: seq<Voice>, ws: seq<Voice>, channel: nat, chained: bool)
    requires Settled(vs, ws, l)
    ensures ReplacedDoom1(l, vs, chained) == ReplacedDoom1(l, ws, chained)
    ensures ReplacedDoom2(l, vs, channel, chained) == ReplacedDoom2(l, ws, channel, chained)
  {
    SettledSeconds(vs, ws, l);
    assert forall v | v in l.alloced :: ChannelOf(vs, v) == ChannelOf(ws, v) && PriorityOf(vs, v) == PriorityOf(ws, v);
    hide Settled, Second, ChannelOf, PriorityOf;
    var n := if |l.alloced| < 3 then 0 else |l.alloced| - 3;
    SameVictimDoom1(l.alloced, vs, ws, |l.alloced|);
    SameVictimDoom2(l.alloced, vs, ws, channel, n);
    SameReleases(l, VictimDoom1(l.alloced, vs, |l.alloced|), vs, ws, chained);
    SameReleases(l, VictimDoom2(l.alloced, vs, channel, n).0, vs, ws, chained);
  }

  function TakenIfFree(l: Lists): Lists { if l.free == [] then l else Taken(l) }

  /** ReplaceExistingVoice, when no voice is free. */
  function MadeRoom19(l: Lists, vs: seq<Voice>): Lists {
    if l.free != [] then l else Released(l, Victim19(l.alloced, vs, |l.alloced|), vs, false)
  }

  /** KeyOnEvent of the 1.9 driver. */
  function PlayedOn19(l: Lists, vs: seq<Voice>, double: bool): Lists {
    var first := TakenIfFree(MadeRoom19(l, vs));
    if double then TakenIfFree(first) else first
  }

  /** The lists stay a partition, and the new note is the last one allocated. */
  lemma PlayedOn19Keeps(l: Lists, vs: seq<Voice>, double: bool, n: nat)
    requires Partition(l, n) && n > 0
    ensures Partition(PlayedOn19(l, vs, double), n)
    ensures |PlayedOn19(l, vs, double).alloced| >= |MadeRoom19(l, vs).alloced| + 1
  {
    hide Partition;
    assert |l.free| + |l.alloced| == n by { PartitionSize(l, n); }
    ReleasedKeeps(l, Victim19(l.alloced, vs, |l.alloced|), vs, false, n);
    var room := MadeRoom19(l, vs);
    TakenKeeps(room, n);
    if Taken(room).free != [] {
      TakenKeeps(Taken(room), n);
    }
  }

  lemma PartitionSize(l: Lists, n: nat)
    requires Partition(l, n)
    ensures |l.free| + |l.alloced| == n
  {}
}
