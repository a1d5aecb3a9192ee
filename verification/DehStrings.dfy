/**
  src/deh_str.c: the table of string replacements, an open-addressing hash table that
  doubles itself while it is being refilled.
 */
module DehStrings {
  import opened Arithmetic
  import opened Collections

  // ------------------------------------------------------------------
  // Hashing
  // ------------------------------------------------------------------

  /** The value of a (signed) char. */
  function SignedChar(c: char): int {
    var byte := c as int % 0x100;
    if byte < 0x80 then byte else byte - 0x100
  }

  /** h * 31 + c on unsigned int, written (h << 5) - h + c in the source. */
  function HashStep(h: nat, c: char): nat {
    (31 * h + SignedChar(c)) % UINT32_RANGE
  }

  /** The hash of all but the last character, with the last one folded in. */
  function StrHash(s: string): nat
    ensures StrHash(s) < UINT32_RANGE
  {
    if s == [] then 0
    else if |s| == 1 then SignedChar(s[0]) % UINT32_RANGE
    else HashStep(StrHash(s[..|s| - 1]), s[|s| - 1])
  }

  /** The loop of strhash; a string whose first char is NUL hashes to 0 at once. */
  method ComputeHash(s: string) returns (h: nat)
    ensures h == StrHash(s)
  {
    if s == [] {
      return 0;
    }
    h := SignedChar(s[0]) % UINT32_RANGE;
    assert s[..1] == [s[0]];
    var p := 1;
    while p < |s|
      invariant 1 <= p <= |s|
      invariant h == StrHash(s[..p])
    {
      assert s[..p + 1][..p] == s[..p];
      h := HashStep(h, s[p]);
      p := p + 1;
    }
    assert s[..p] == s;
  }

  // ------------------------------------------------------------------
  // Probing
  // ------------------------------------------------------------------

  /** Slot k comes before slot i on the probe path that starts at slot h. */
  predicate OnPath(h: nat, i: nat, k: nat) {
    if h <= i then h <= k < i else h <= k || k < i
  }

  /** Every slot that a probe for s passes before slot e is taken. */
  ghost predicate PathTaken(slots: Slots, s: string, e: nat) {
    |slots| > 0 && forall k | 0 <= k < |slots| && OnPath(Home(s, |slots|), e, k) :: slots[k] != null
  }

  /** ... and by another string. */
  ghost predicate PathWithout(slots: Slots, s: string, e: nat) {
    |slots| > 0 && forall k | 0 <= k < |slots| && OnPath(Home(s, |slots|), e, k) ::
      slots[k] != null && slots[k].fromText != s
  }

  lemma PathStarts(slots: Slots, s: string)
    requires |slots| > 0
    ensures PathTaken(slots, s, Home(s, |slots|)) && PathWithout(slots, s, Home(s, |slots|))
  {
    hide Home;
  }

  lemma PathGrows(slots: Slots, s: string, e: nat)
    requires PathTaken(slots, s, e) && e < |slots| && slots[e] != null
    ensures PathTaken(slots, s, Next(e, |slots|))
    ensures PathWithout(slots, s, e) && slots[e].fromText != s ==> PathWithout(slots, s, Next(e, |slots|))
  {
    hide Home;
  }

  lemma PathOrder(h: nat, e: nat, i: nat)
    ensures OnPath(h, e, i) || e == i || OnPath(h, i, e)
  {}

  /** Steps from slot e to slot f, going up and around. */
  function Distance(e: nat, f: nat, length: nat): nat
    requires e < length && f < length
  {
    if e <= f then f - e else length - e + f
  }

  function Home(s: string, length: nat): nat
    requires length > 0
    ensures Home(s, length) < length
  {
    StrHash(s) % length
  }

  function Next(e: nat, length: nat): nat
    requires e < length
    ensures Next(e, length) == if e + 1 == length then 0 else e + 1
  {
    (e + 1) % length
  }

  // ------------------------------------------------------------------
  // The table
  // ------------------------------------------------------------------

  /** deh_substitution_t. */
  class Substitution {
    const fromText: string
    var toText: string

    constructor (fromText: string, toText: string)
      ensures this.fromText == fromText && this.toText == toText
    {
      this.fromText := fromText;
      this.toText := toText;
    }
  }

  type Slots = seq<Substitution?>

  /** owner holds the entry of each stored string, and pos its slot: a bijection onto the filled slots. */
  ghost predicate Indexes(slots: Slots, pos: map<string, nat>, owner: map<string, Substitution>) {
    && pos.Keys == owner.Keys
    && (forall k | k in pos :: pos[k] < |slots| && slots[pos[k]] == owner[k] && owner[k].fromText == k)
    && (forall i | 0 <= i < |slots| && slots[i] != null :: slots[i].fromText in pos && pos[slots[i].fromText] == i)
  }

  /** No probe for a stored string meets an empty slot before it. */
  ghost predicate Reachable(slots: Slots) {
    forall i, k | 0 <= i < |slots| && slots[i] != null && 0 <= k < |slots|
      && OnPath(Home(slots[i].fromText, |slots|), i, k) ::
      slots[k] != null
  }

  ghost predicate Sound(slots: Slots, pos: map<string, nat>, owner: map<string, Substitution>) {
    Indexes(slots, pos, owner) && Reachable(slots)
  }

  /** The strings in the first n slots. */
  ghost function Keys(slots: Slots, n: nat): set<string>
    requires n <= |slots|
  {
    set i | 0 <= i < n && slots[i] != null :: slots[i].fromText
  }

  lemma KeysStart(slots: Slots)
    ensures Keys(slots, 0) == {}
  {}

  /** Re-insertion reaches slot i: its string is new, its entry is the owner, and fewer strings came before. */
  lemma KeysNext(slots: Slots, pos: map<string, nat>, owner: map<string, Substitution>, i: nat)
    requires Indexes(slots, pos, owner) && i < |slots|
    ensures slots[i] == null ==> Keys(slots, i + 1) == Keys(slots, i)
    ensures slots[i] != null ==>
      var k := slots[i].fromText;
      && k !in Keys(slots, i) && Keys(slots, i) < owner.Keys
      && Keys(slots, i + 1) == Keys(slots, i) + {k}
      && k in owner && owner[k] == slots[i]
  {
    if slots[i] != null {
      assert slots[i].fromText in pos;
    }
  }

  lemma SoundOwner(slots: Slots, pos: map<string, nat>, owner: map<string, Substitution>, i: nat)
    requires Sound(slots, pos, owner) && i < |slots| && slots[i] != null
    ensures slots[i].fromText in owner && owner[slots[i].fromText] == slots[i]
  {
    assert slots[i].fromText in pos;
  }

  lemma AllKeys(slots: Slots, pos: map<string, nat>, owner: map<string, Substitution>)
    requires Indexes(slots, pos, owner)
    ensures Keys(slots, |slots|) == owner.Keys
  {}

  lemma {:induction false} FullKeys(slots: Slots, pos: map<string, nat>, owner: map<string, Substitution>, n: nat)
    requires Indexes(slots, pos, owner) && n <= |slots|
    requires forall i | 0 <= i < n :: slots[i] != null
    ensures |Keys(slots, n)| == n
  {
    if n > 0 {
      FullKeys(slots, pos, owner, n - 1);
      KeysNext(slots, pos, owner, n - 1);
    } else {
      assert Keys(slots, 0) == {};
    }
  }

  /** Fewer strings than slots leave a slot empty, so that every probe stops. */
  lemma EmptySlotExists(slots: Slots, pos: map<string, nat>, owner: map<string, Substitution>)
    requires Indexes(slots, pos, owner) && |owner| < |slots|
    ensures exists f :: 0 <= f < |slots| && slots[f] == null
  {
    assert |owner| == |owner.Keys|;
    AllKeys(slots, pos, owner);
    if forall f | 0 <= f < |slots| :: slots[f] != null {
      FullKeys(slots, pos, owner, |slots|);
    }
  }

  /** A probe that has passed only other strings and stands at an empty slot has shown the string absent. */
  lemma ProbeDecides(slots: Slots, pos: map<string, nat>, owner: map<string, Substitution>, s: string, e: nat)
    requires Sound(slots, pos, owner) && e < |slots| && slots[e] == null
    requires PathWithout(slots, s, e)
    ensures s !in owner
  {
    if s in pos {
      PathOrder(Home(s, |slots|), e, pos[s]);
    }
  }

  /** Filling the empty slot where the probe stopped keeps the table sound. */
  lemma InsertKeepsSound(slots: Slots, pos: map<string, nat>, owner: map<string, Substitution>, sub: Substitution,
    e: nat)
    requires Sound(slots, pos, owner) && e < |slots| && slots[e] == null
    requires sub.fromText !in owner
    requires PathTaken(slots, sub.fromText, e)
    ensures Sound(slots[e := sub], pos[sub.fromText := e], owner[sub.fromText := sub])
  {}

  lemma EmptyIsSound(slots: Slots)
    requires forall i | 0 <= i < |slots| :: slots[i] == null
    ensures Sound(slots, map[], map[])
  {}

  // ------------------------------------------------------------------
  // The string table
  // ------------------------------------------------------------------

  /** hash_table, hash_table_entries and hash_table_length. */
  class StringTable {
    var table: array<Substitution?>
    var entries: nat
    var length: int

    ghost var pos: map<string, nat>
    ghost var owner: map<string, Substitution>

    constructor ()
      ensures Valid() && owner == map[] && fresh(table)
    {
      table := new Substitution?[0];
      entries := 0;
      length := -1;
      pos := map[];
      owner := map[];
    }

    ghost predicate Initialised()
      reads this, table
    {
      && 16 <= length == table.Length
      && Sound(table[..], pos, owner)
      && |owner| <= entries
      && |owner| < length
    }

    /** Before the first replacement the table does not exist; afterwards the counter never undercounts. */
    ghost predicate Valid()
      reads this, table
    {
      if length < 0 then table.Length == 0 && pos == map[] && owner == map[] else Initialised()
    }

    /** The replacement of each string that has one. */
    ghost function View(): map<string, string>
      reads this, owner.Values
    {
      map k | k in owner :: owner[k].toText
    }

    /** SubstitutionForString. */
    method SubstitutionForString(s: string) returns (sub: Substitution?)
      requires Valid()
      ensures sub == if s in owner then owner[s] else null
    {
      if length < 0 {
        return null;
      }
      hide Indexes, Reachable, PathTaken, PathWithout, Home, Next;
      ghost var slots := table[..];
      EmptySlotExists(slots, pos, owner);
      ghost var free :| 0 <= free < |slots| && slots[free] == null;
      var entry := HomeOf(s);
      PathStarts(slots, s);
      while table[entry] != null
        invariant 0 <= entry < length
        invariant PathTaken(slots, s, entry) && PathWithout(slots, s, entry)
        decreases Distance(entry, free, length)
      {
        assert slots[entry] == table[entry];
        if table[entry].fromText == s {
          SoundOwner(slots, pos, owner, entry);
          return table[entry];
        }
        PathGrows(slots, s, entry);
        entry := Next(entry, length);
      }
      ProbeDecides(slots, pos, owner, s, entry);
      return null;
    }

    /** Where the probe for a string begins. */
    method HomeOf(s: string) returns (entry: nat)
      requires length > 0
      ensures entry == Home(s, length) < length
    {
      var hash := ComputeHash(s);
      entry := hash % length;
    }

    /** DEH_String: the replacement if there is one, otherwise the string itself. */
    method DehString(s: string) returns (result: string)
      requires Valid()
      ensures result == if s in View() then View()[s] else s
    {
      var subst := SubstitutionForString(s);
      if subst != null {
        result := subst.toText;
      } else {
        result := s;
      }
    }

    /** InitHashTable. */
    method InitHashTable()
      requires Valid() && length < 0
      modifies this
      ensures Valid() && length == 16 && entries == 0 && owner == old(owner)
      ensures fresh(table)
    {
      entries := 0;
      length := 16;
      table := new Substitution?[16](_ => null);
      EmptyIsSound(table[..]);
    }

    /** The probing loop of DEH_AddToHashtable: the first empty slot on the path of s. */
    method EmptySlot(s: string) returns (entry: nat)
      requires Initialised()
      ensures entry < length && table[entry] == null
      ensures PathTaken(table[..], s, entry)
    {
      hide Indexes, Reachable, PathTaken, PathWithout, Home, Next;
      ghost var slots := table[..];
      EmptySlotExists(slots, pos, owner);
      ghost var free :| 0 <= free < length && slots[free] == null;
      entry := HomeOf(s);
      PathStarts(slots, s);
      while table[entry] != null
        invariant 0 <= entry < length
        invariant PathTaken(slots, s, entry)
        decreases Distance(entry, free, length)
      {
        PathGrows(slots, s, entry);
        entry := Next(entry, length);
      }
    }

    /** The end of DEH_AddToHashtable: the entry goes to the empty slot that probing finds. */
    method Place(sub: Substitution)
      requires Initialised() && |owner| + 1 < length && sub.fromText !in owner
      modifies this`entries, this`pos, this`owner, table
      ensures Initialised()
      ensures owner == old(owner)[sub.fromText := sub] && entries == old(entries) + 1
    {
      hide Sound, PathTaken;
      ghost var slots := table[..];
      var entry := EmptySlot(sub.fromText);
      InsertKeepsSound(slots, pos, owner, sub, entry);
      table[entry] := sub;
      entries := entries + 1;
      pos := pos[sub.fromText := entry];
      owner := owner[sub.fromText := sub];
      assert table[..] == slots[entry := sub];
    }

    /** At most 60% full leaves room for one more entry and an empty slot. */
    static lemma RoomLeft(entries: nat, length: nat)
      requires length >= 16 && entries * 10 / length <= 6
      ensures entries + 1 < length
    {
      if entries * 10 >= 7 * length {
        DivAtLeast(entries * 10, length);
      }
    }

    static lemma DivAtLeast(a: nat, b: nat)
      requires b > 0 && a >= 7 * b
      ensures a / b >= 7
    {
      assert a == b * (a / b) + a % b;
    }

    /** DEH_AddToHashtable. */
    method AddToHashtable(sub: Substitution)
      requires Initialised() && sub.fromText !in owner
      modifies this, table
      ensures Initialised()
      ensures table == old(table) || fresh(table)
      ensures if old(entries) * 10 / old(length) > 6 then length >= 2 * old(length)
        else length == old(length) && table == old(table) && entries == old(entries) + 1
      ensures owner == old(owner)[sub.fromText := sub]
      decreases owner.Keys, 2
    {
      hide Sound;
      // more than six tenths of the slots are taken
      if entries * 10 / length > 6 {
        IncreaseHashtable();
      } else {
        RoomLeft(entries, length);
      }
      Place(sub);
    }

    /**
      IncreaseHashtable: every entry is inserted again into a table twice the size, or larger when
      the counter, which is not reset, makes a re-insertion grow the table once more.
     */
    method IncreaseHashtable()
      requires Initialised()
      modifies this
      ensures Initialised()
      ensures fresh(table)
      ensures |owner| + 1 < length && length >= 2 * old(length)
      ensures owner == old(owner)
      decreases owner.Keys, 1
    {
      hide Sound, Indexes;
      var oldTable := table;
      ghost var oldPos, oldOwner := pos, owner;
      assert Indexes(oldTable[..], oldPos, oldOwner) by { SoundIndexes(oldTable[..], oldPos, oldOwner); }
      NewTable();
      ReinsertAll(oldTable, oldPos, oldOwner);
      assert |owner| == |oldOwner|;
    }

    static lemma SoundIndexes(slots: Slots, pos: map<string, nat>, owner: map<string, Substitution>)
      requires Sound(slots, pos, owner)
      ensures Indexes(slots, pos, owner)
    {}

    /** The loop of IncreaseHashtable. */
    method ReinsertAll(oldTable: array<Substitution?>, ghost oldPos: map<string, nat>,
      ghost oldOwner: map<string, Substitution>)
      requires Initialised() && owner == map[] && oldTable != table
      requires Indexes(oldTable[..], oldPos, oldOwner)
      modifies this, table
      ensures Initialised() && owner == oldOwner
      ensures table == old(table) || fresh(table)
      ensures length >= old(length)
      decreases oldOwner.Keys, 0
    {
      hide Initialised, Indexes, Keys, Sound;
      ghost var slots := oldTable[..];
      KeysStart(slots);
      var i := 0;
      while i < oldTable.Length
        invariant 0 <= i <= oldTable.Length
        invariant table == old(table) || fresh(table)
        invariant Initialised() && length >= old(length)
        invariant owner.Keys == Keys(slots, i)
        invariant forall k | k in owner :: k in oldOwner && owner[k] == oldOwner[k]
      {
        KeysNext(slots, oldPos, oldOwner, i);
        var sub := oldTable[i];
        if sub != null {
          AddToHashtable(sub);
        }
        i := i + 1;
      }
      AllKeys(slots, oldPos, oldOwner);
      assert owner == oldOwner;
    }

    /** The empty table of twice the length; the counter stays as it is. */
    method NewTable()
      requires Initialised()
      modifies this
      ensures Initialised() && fresh(table)
      ensures length == 2 * old(length) && owner == map[]
    {
      hide Sound;
      length := length * 2;
      table := new Substitution?[length](_ => null);
      EmptyIsSound(table[..]);
      pos := map[];
      owner := map[];
    }

    /** DEH_AddStringReplacement: one entry of the map changes, the others keep their replacement. */
    method AddStringReplacement(fromText: string, toText: string)
      requires Valid()
      modifies this, table, owner.Values
      ensures Valid()
      ensures table == old(table) || fresh(table)
      ensures fresh(owner.Values - old(owner.Values))
      ensures View() == old(View())[fromText := toText]
    {
      hide Sound;
      if length < 0 {
        InitHashTable();
      }
      var sub := SubstitutionForString(fromText);
      if sub != null {
        OwnersDiffer();
        sub.toText := toText;
      } else {
        sub := new Substitution(fromText, toText);
        AddToHashtable(sub);
      }
    }

    lemma OwnersDiffer()
      requires Valid()
      ensures forall k | k in owner :: owner[k].fromText == k
    {}
  }

  // ------------------------------------------------------------------
  // Sequences of replacements
  // ------------------------------------------------------------------

  /** The last replacement of s among the calls. */
  function LastReplacement(calls: seq<(string, string)>, s: string): Option<string> {
    if calls == [] then None
    else
      var (fromText, toText) := calls[|calls| - 1];
      if fromText == s then Some(toText) else LastReplacement(calls[..|calls| - 1], s)
  }

  /** After any sequence of calls on a new table, DEH_String answers with the last replacement, if any. */
  method ReplaceThenLookUp(calls: seq<(string, string)>, s: string) returns (result: string)
    ensures result == match LastReplacement(calls, s) case None => s case Some(toText) => toText
  {
    hide StringTable.Valid;
    var strings := new StringTable();
    var i := 0;
    while i < |calls|
      invariant 0 <= i <= |calls|
      invariant strings.Valid() && fresh(strings) && fresh(strings.table) && fresh(strings.owner.Values)
      invariant LastReplacement(calls[..i], s) == if s in strings.View() then Some(strings.View()[s]) else None
    {
      strings.AddStringReplacement(calls[i].0, calls[i].1);
      assert calls[..i + 1][..i] == calls[..i];
      i := i + 1;
    }
    assert calls[..i] == calls;
    result := strings.DehString(s);
  }
}
