/**
  src/deh_main.c: the parser of DeHackEd lumps. Sections are named; what their handlers do, which
  is to read on and perhaps to fail, is an input.
 */
module DehParser {
  import opened Collections
  import opened DehReader
  import opened DehSections

  // ------------------------------------------------------------------
  // Strings
  // ------------------------------------------------------------------

  function DropTrailing(s: seq<char>): (r: seq<char>)
    ensures r == [] || !IsSpace(r[|r| - 1])
  {
    if s != [] && IsSpace(s[|s| - 1]) then DropTrailing(s[..|s| - 1]) else s
  }

  function Trim(s: seq<char>): seq<char> { DropTrailing(SkipSpace(s)) }

  predicate AllSpace(s: seq<char>) { forall c | c in s :: IsSpace(c) }

  lemma {:induction false} SkipSplits(s: seq<char>)
    ensures exists lead :: AllSpace(lead) && s == lead + SkipSpace(s)
  {
    if s != [] && IsSpace(s[0]) {
      SkipSplits(s[1..]);
      var lead :| AllSpace(lead) && s[1..] == lead + SkipSpace(s[1..]);
      assert s == ([s[0]] + lead) + SkipSpace(s);
      assert AllSpace([s[0]] + lead);
    } else {
      assert s == [] + SkipSpace(s);
      assert AllSpace([]);
    }
  }

  lemma {:induction false} DropSplits(s: seq<char>)
    ensures exists trail :: AllSpace(trail) && s == DropTrailing(s) + trail
    ensures s != [] && !IsSpace(s[0]) ==> DropTrailing(s) != [] && DropTrailing(s)[0] == s[0]
  {
    if s != [] && IsSpace(s[|s| - 1]) {
      DropSplits(s[..|s| - 1]);
      var trail :| AllSpace(trail) && s[..|s| - 1] == DropTrailing(s[..|s| - 1]) + trail;
      assert s == DropTrailing(s) + (trail + [s[|s| - 1]]);
      assert AllSpace(trail + [s[|s| - 1]]);
    } else {
      assert s == DropTrailing(s) + [];
      assert AllSpace([]);
    }
  }

  /** Cleaning takes the blanks off both ends and nothing else. */
  lemma TrimIs(s: seq<char>)
    ensures exists lead, trail :: AllSpace(lead) && AllSpace(trail) && s == lead + Trim(s) + trail
    ensures Trim(s) != [] ==> !IsSpace(Trim(s)[0]) && !IsSpace(Trim(s)[|Trim(s)| - 1])
  {
    SkipSplits(s);
    var lead :| AllSpace(lead) && s == lead + SkipSpace(s);
    DropSplits(SkipSpace(s));
    var trail :| AllSpace(trail) && SkipSpace(s) == Trim(s) + trail;
    assert s == lead + Trim(s) + trail;
  }

  /** The C string that starts at place i of a buffer. */
  function CString(s: seq<char>, i: nat): seq<char>
    requires i <= |s|
    decreases |s| - i
  {
    if i == |s| || s[i] == '\0' then [] else [s[i]] + CString(s, i + 1)
  }

  lemma {:induction false} CStringEnds(s: seq<char>, i: nat)
    requires i <= |s|
    ensures var n := |CString(s, i)|;
      && i + n <= |s| && CString(s, i) == s[i..i + n] && (i + n < |s| ==> s[i + n] == '\0') && '\0' !in s[i..i + n]
    decreases |s| - i
  {
    if i < |s| && s[i] != '\0' {
      CStringEnds(s, i + 1);
      var n := |CString(s, i)|;
      assert s[i..i + n] == [s[i]] + s[i + 1..i + n];
    }
  }

  /** A string lies between places i and e, where its NUL is. */
  ghost predicate TextAt(s: seq<char>, i: nat, e: nat) {
    i <= e < |s| && s[e] == '\0' && forall k | i <= k < e :: s[k] != '\0'
  }

  lemma TextEnds(s: seq<char>, i: nat)
    requires i <= |s| && i + |CString(s, i)| < |s|
    ensures TextAt(s, i, i + |CString(s, i)|) && CString(s, i) == s[i..i + |CString(s, i)|]
  {
    CStringEnds(s, i);
    var t := s[i..i + |CString(s, i)|];
    forall k | i <= k < i + |t| ensures s[k] != '\0' {
      assert s[k] == t[k - i];
    }
  }

  lemma {:induction false} TextString(s: seq<char>, i: nat, e: nat)
    requires TextAt(s, i, e)
    ensures CString(s, i) == s[i..e]
    decreases e - i
  {
    if i < e {
      TextString(s, i + 1, e);
      assert s[i..e] == [s[i]] + s[i + 1..e];
    }
  }

  /** The first loop of CleanString. */
  method SkipBlanks(buffer: array<char>, s: nat, ghost e: nat) returns (r: nat)
    requires TextAt(buffer[..], s, e)
    ensures s <= r <= e && SkipSpace(buffer[s..e]) == buffer[r..e] && TextAt(buffer[..], r, e)
  {
    r := s;
    while buffer[r] != '\0' && IsSpace(buffer[r])
      invariant s <= r <= e && SkipSpace(buffer[r..e]) == SkipSpace(buffer[s..e])
      decreases e - r
    {
      assert buffer[..][r] == buffer[r];
      assert buffer[r..e][1..] == buffer[r + 1..e];
      r := r + 1;
    }
    assert r < e ==> buffer[..][r] == buffer[r];
  }

  /** strlen. */
  method StringEnd(buffer: array<char>, r: nat, ghost e: nat) returns (end: nat)
    requires TextAt(buffer[..], r, e)
    ensures end == e
  {
    end := r;
    while buffer[end] != '\0'
      invariant r <= end <= e
      decreases e - end
    {
      assert buffer[..][end] == buffer[end];
      end := end + 1;
    }
    assert buffer[..][end] == buffer[end];
  }

  /** The second loop of CleanString: the string is cut in place. */
  method CutBlanks(buffer: array<char>, r: nat, ghost e: nat) returns (ghost end: nat)
    requires TextAt(buffer[..], r, e)
    modifies buffer
    ensures r <= end <= e && TextAt(buffer[..], r, end) && buffer[r..end] == DropTrailing(old(buffer[r..e]))
    ensures forall k | 0 <= k < buffer.Length && !(r <= k < e) :: buffer[k] == old(buffer[k])
  {
    var stop := StringEnd(buffer, r, e);
    ghost var was := buffer[..];
    while stop > r && IsSpace(buffer[stop - 1])
      invariant r <= stop <= e && buffer[stop] == '\0'
      invariant forall k | 0 <= k < buffer.Length && (k < stop || k >= e) :: buffer[k] == was[k]
      invariant DropTrailing(was[r..stop]) == DropTrailing(was[r..e])
    {
      assert was[r..stop][..stop - 1 - r] == was[r..stop - 1];
      stop := stop - 1;
      buffer[stop] := '\0';
    }
    end := stop;
    assert buffer[r..end] == was[r..end];
  }

  /** CleanString, in place: the result starts at r. */
  method CleanString(buffer: array<char>, s: nat) returns (r: nat)
    requires s < buffer.Length && s + |CString(buffer[..], s)| < buffer.Length
    modifies buffer
    ensures s <= r <= s + |old(CString(buffer[..], s))| && r < buffer.Length
    ensures CString(buffer[..], r) == Trim(old(CString(buffer[..], s)))
    ensures forall k | 0 <= k < buffer.Length && !(s <= k < s + |old(CString(buffer[..], s))|) ::
      buffer[k] == old(buffer[k])
  {
    hide SkipSpace, DropTrailing;
    ghost var e := s + |CString(buffer[..], s)|;
    TextEnds(buffer[..], s);
    assert buffer[s..e] == buffer[..][s..e];
    r := SkipBlanks(buffer, s, e);
    ghost var end := CutBlanks(buffer, r, e);
    TextString(buffer[..], r, end);
    assert buffer[r..end] == buffer[..][r..end];
  }

  /** Where the first equals sign is. */
  method FindEquals(buffer: array<char>, line: nat, ghost e: nat) returns (p: nat)
    requires TextAt(buffer[..], line, e)
    ensures line <= p <= e && (p < e ==> buffer[p] == '=')
    ensures forall k | line <= k < p :: buffer[k] != '='
  {
    p := line;
    while buffer[p] != '\0' && buffer[p] != '='
      invariant line <= p <= e && forall k | line <= k < p :: buffer[k] != '='
      decreases e - p
    {
      assert buffer[..][p] == buffer[p];
      p := p + 1;
    }
    assert buffer[..][p] == buffer[p];
  }

  /** The first place of an equals sign, or the end. */
  function EqualsAt(s: seq<char>): (i: nat)
    ensures i <= |s| && '=' !in s[..i] && (i < |s| ==> s[i] == '=')
  {
    if s == [] || s[0] == '=' then 0
    else
      assert forall k: nat | k < EqualsAt(s[1..]) :: s[1 + k] == s[1..][k];
      1 + EqualsAt(s[1..])
  }

  lemma {:induction false} EqualsAtIs(s: seq<char>, i: nat)
    requires i <= |s| && (i < |s| ==> s[i] == '=') && forall k | 0 <= k < i :: s[k] != '='
    ensures EqualsAt(s) == i
  {
    if i > 0 {
      EqualsAtIs(s[1..], i - 1);
    }
  }

  /** DEH_ParseAssignment: the line is split at its first equals sign, and both sides are cleaned. */
  method ParseAssignment(buffer: array<char>, line: nat) returns (ok: bool, name: nat, value: nat)
    requires line < buffer.Length && line + |CString(buffer[..], line)| < buffer.Length
    modifies buffer
    ensures var text := old(CString(buffer[..], line));
      var i := EqualsAt(text);
      && (ok <==> i < |text|)
      && (!ok ==> buffer[..] == old(buffer[..]))
      && (ok ==> name < buffer.Length && value < buffer.Length)
      && (ok ==> CString(buffer[..], name) == Trim(text[..i]) && CString(buffer[..], value) == Trim(text[i + 1..]))
  {
    hide Trim, EqualsAt, CString;
    ghost var text := CString(buffer[..], line);
    ghost var e := line + |text|;
    TextEnds(buffer[..], line);
    var p := FindEquals(buffer, line, e);
    assert forall k | 0 <= k < |text| :: text[k] == buffer[line + k];
    assert buffer[..][e] == buffer[e];
    EqualsAtIs(text, p - line);
    assert p < e ==> buffer[..][p] == buffer[p];
    if buffer[p] == '\0' {
      return false, 0, 0;
    }
    name, value := SplitAt(buffer, line, p, e);
    ok := true;
  }

  /** The two halves become strings of their own, and are cleaned. */
  method SplitAt(buffer: array<char>, line: nat, p: nat, ghost e: nat) returns (name: nat, value: nat)
    requires TextAt(buffer[..], line, e) && line <= p < e
    modifies buffer
    ensures name < buffer.Length && value < buffer.Length
    ensures CString(buffer[..], name) == Trim(old(buffer[..])[line..e][..p - line])
    ensures CString(buffer[..], value) == Trim(old(buffer[..])[line..e][p - line + 1..])
  {
    hide Trim, CString;
    ghost var was := buffer[..];
    buffer[p] := '\0';
    SplitText(was, buffer[..], line, p, e);
    name := CleanString(buffer, line);
    ghost var named := buffer[..];
    AfterSplit(was, named, p, e);
    NameInFront(named, name, p);
    value := CleanString(buffer, p + 1);
    SameString(named, buffer[..], name, p);
    assert was[line..e][p - line + 1..] == was[p + 1..e];
  }

  /** After the cut the name is a string of its own. */
  lemma SplitText(s: seq<char>, t: seq<char>, line: nat, p: nat, e: nat)
    requires TextAt(s, line, e) && line <= p < e && t == s[p := '\0']
    ensures CString(t, line) == s[line..e][..p - line]
  {
    TextString(t, line, p);
    assert t[line..p] == s[line..e][..p - line];
  }

  /** And so is the value. */
  lemma AfterSplit(s: seq<char>, t: seq<char>, p: nat, e: nat)
    requires
      && p < e < |s| == |t|
      && s[e] == '\0'
      && (forall k | p < k < e :: s[k] != '\0')
      && forall k | p < k <= e :: t[k] == s[k]
    ensures CString(t, p + 1) == s[p + 1..e]
  {
    TextString(t, p + 1, e);
    assert t[p + 1..e] == s[p + 1..e];
  }

  /** A string in front of a NUL ends there at the latest. */
  lemma {:induction false} NameInFront(s: seq<char>, i: nat, p: nat)
    requires i <= p < |s| && s[p] == '\0'
    ensures i + |CString(s, i)| <= p
    decreases p - i
  {
    if i < p {
      NameInFront(s, i + 1, p);
    }
  }

  lemma {:induction false} SameString(s: seq<char>, t: seq<char>, i: nat, p: nat)
    requires i <= p < |s| == |t| && s[p] == '\0' && forall k | i <= k <= p :: s[k] == t[k]
    ensures CString(s, i) == CString(t, i)
    decreases p - i
  {
    if i < p {
      SameString(s, t, i + 1, p);
    }
  }

  // ------------------------------------------------------------------
  // Sections
  // ------------------------------------------------------------------

  /** A handler that was called: for which section, with which tag, and for which line, which started at this place. */
  datatype Call = Call(kind: Kind, section: nat, tag: int, at: nat, line: seq<char>)

  /** What the handlers got in these calls. */
  function Got(calls: seq<Call>): seq<Handed> {
    seq(|calls|, i requires 0 <= i < |calls| =>
      Handed(calls[i].kind, calls[i].section, calls[i].tag, calls[i].line))
  }

  lemma GotMore(calls: seq<Call>, c: Call)
    ensures Got(calls + [c]) == Got(calls) + [Handed(c.kind, c.section, c.tag, c.line)]
  {}

  /**
    The line is what the reader finds at that place, without the blanks in front, and is neither blank nor a comment.
   */
  ghost predicate HandedRight(input: seq<char>, sections: seq<Section>, c: Call) {
    && c.section < |sections| && c.at <= |input|
    && var r := Scan(NoCr(input[c.at..]), [], c.kind == Body && Strings(sections[c.section]), false);
    r.Line? && c.line == SkipSpace(r.text) && c.line != [] && c.line[0] != '#'
  }

  /** Every line was handed to one handler at most: the lines of the calls start further and further on. */
  ghost predicate HandedOnce(calls: seq<Call>, limit: nat) {
    && (forall i, j | 0 <= i < j < |calls| && calls[i].kind != End && calls[j].kind != End :: calls[i].at < calls[j].at)
    && (forall i | 0 <= i < |calls| && calls[i].kind != End :: calls[i].at < limit)
  }

  /** What holds of the calls while the reader is at place limit. */
  ghost predicate CallsOk(input: seq<char>, sections: seq<Section>, calls: seq<Call>, limit: nat) {
    HandedOnce(calls, limit) && forall i | 0 <= i < |calls| && calls[i].kind != End ::
      HandedRight(input, sections, calls[i])
  }

  lemma CallsMore(input: seq<char>, sections: seq<Section>, calls: seq<Call>, c: Call, before: nat, after: nat)
    requires CallsOk(input, sections, calls, before) && before <= after
    requires c.kind != End ==> before <= c.at < after && HandedRight(input, sections, c)
    ensures CallsOk(input, sections, calls + [c], after)
  {
    hide HandedRight;
  }

  lemma CallsLater(input: seq<char>, sections: seq<Section>, calls: seq<Call>, before: nat, after: nat)
    requires CallsOk(input, sections, calls, before) && before <= after
    ensures CallsOk(input, sections, calls, after)
  {
    hide HandedRight;
  }

  class Parser {
    const context: Context
    const sections: seq<Section>
    const handler: nat -> Handling
    var allowLongStrings: bool
    var allowLongCheats: bool
    var allowExtended: bool
    var calls: seq<Call>

    constructor (context: Context, sections: seq<Section>, handler: nat -> Handling, allowExtended: bool)
      ensures this.context == context && this.sections == sections && this.handler == handler && calls == []
      ensures this.allowExtended == allowExtended
    {
      this.context, this.sections, this.handler, this.allowExtended := context, sections, handler, allowExtended;
      allowLongStrings, allowLongCheats, calls := false, false, [];
    }

    /** GetSectionByName. */
    method GetSectionByName(name: seq<char>) returns (i: int)
      ensures -1 <= i < |sections|
      ensures !allowExtended && StartsWith(name, "[STRINGS]") ==> i == -1
      ensures allowExtended || !StartsWith(name, "[STRINGS]") ==>
        && (i >= 0 ==> SameText(sections[i].name, name))
        && forall j | 0 <= j < (if i >= 0 then i else |sections|) :: !SameText(sections[j].name, name)
      ensures i == if !allowExtended && StartsWith(name, "[STRINGS]") then -1 else Named(sections, name, 0)
    {
      hide SameText;
      if !allowExtended && StartsWith(name, "[STRINGS]") {
        return -1;
      }
      i := 0;
      while i < |sections|
        invariant 0 <= i <= |sections| && forall j | 0 <= j < i :: !SameText(sections[j].name, name)
        invariant Named(sections, name, i) == Named(sections, name, 0)
      {
        if SameText(sections[i].name, name) {
          return;
        }
        i := i + 1;
      }
      i := -1;
    }

    /** DEH_ParseComment: magic words turn restrictions off. */
    method ParseComment(comment: seq<char>)
      modifies this`allowLongStrings, this`allowLongCheats, this`allowExtended
      ensures allowLongStrings == (old(allowLongStrings) || Contains(comment, "*allow-long-strings*"))
      ensures allowLongCheats == (old(allowLongCheats) || Contains(comment, "*allow-long-cheats*"))
      ensures allowExtended == (old(allowExtended) || Contains(comment, "*allow-extended-strings*"))
    {
      if Contains(comment, "*allow-long-strings*") {
        allowLongStrings := true;
      }
      if Contains(comment, "*allow-long-cheats*") {
        allowLongCheats := true;
      }
      if Contains(comment, "*allow-extended-strings*") {
        allowExtended := true;
      }
    }

    /** CheckSignatures: a first line that is no signature is put back. */
    method CheckSignatures() returns (ok: bool)
      requires context.Valid()
      modifies context, context.readbuffer
      ensures context.Valid() && context.hadError == old(context.hadError)
      ensures context.readbuffer == old(context.readbuffer) || fresh(context.readbuffer)
      ensures match Scan(old(context.Left()), [], false, false)
        case EndOfFile => !ok && context.Left() == []
        case Line(text, rest) =>
          && (ok <==> text in SIGNATURES)
          && (ok ==> context.Left() == rest)
          && (!ok ==> context.pos == old(context.pos))
      ensures context.Left() == AfterSignature(old(context.Left()))
    {
      context.SaveLineStart();
      var line := context.ReadLine(false);
      if line == None {
        return false;
      }
      var i := 0;
      while i < |SIGNATURES|
        invariant 0 <= i <= |SIGNATURES| && forall j | 0 <= j < i :: SIGNATURES[j] != line.value
      {
        if SIGNATURES[i] == line.value {
          return true;
        }
        i := i + 1;
      }
      context.RestoreLineStart();
      return false;
    }

    /** What the parser knows between two lines. */
    ghost function Now(current: int, prev: int, tag: int): State
      requires context.Valid()
      reads this, context
    {
      State(context.Left(), current, prev, tag, allowExtended, context.hadError, Got(calls))
    }

    /** A handler is called; it may read on, but it puts nothing back. */
    method Handle(c: Call) returns (tag: int)
      requires context.Valid()
      modifies this`calls, context`pos, context`linenum, context`lastWasNewline, context`hadError
      ensures context.Valid() && old(context.pos) <= context.pos && calls == old(calls) + [c]
      ensures forall current, prev, t ::
        Now(current, prev, if c.kind == Start then tag else t) ==
        HandTo(handler, old(Now(current, prev, t)), Handed(c.kind, c.section, c.tag, c.line))
    {
      hide Context.Left;
      var handling := handler(|calls|);
      GotMore(calls, c);
      calls := calls + [c];
      var n := 0;
      while n < handling.consumed
        invariant context.Valid() && old(context.pos) <= context.pos && n <= handling.consumed
        invariant calls == old(calls) + [c] && context.hadError == old(context.hadError)
        invariant context.Left() == Drop(old(context.Left()), n)
      {
        var _ := context.GetChar();
        n := n + 1;
      }
      if handling.fails {
        context.hadError := true;
      }
      tag := handling.tag;
    }

    /**
      DEH_ParseContext. It comes to an end on every lump although lines are put back, because each
      line can be retried only once; and no line is handed to two handlers. What the handlers get is
      given by the text, and section by section if they read nothing on.
     */
    method ParseContext()
      requires context.Valid() && calls == []
      modifies this`allowLongStrings, this`allowLongCheats, this`allowExtended, this`calls, context, context.readbuffer
      ensures context.Valid() && (context.hadError || context.Left() == [])
      ensures CallsOk(context.input, sections, calls, context.pos)
      ensures var initial := Initial(old(context.Left()), old(allowExtended), old(context.hadError));
        var end := Run(sections, handler, initial);
        Got(calls) == end.handed && context.Left() == end.left && context.hadError == end.failed
      ensures Quiet(handler) && !old(context.hadError) ==>
        Got(calls) == Document(sections, handler, AfterSignature(old(context.Left())), -1, 0, old(allowExtended), 0)
    {
      hide CallsOk, HandedRight, Scan, Run, Round, Quiet, AfterSignature, Document, Context.Left;
      ghost var initial := Initial(context.Left(), allowExtended, context.hadError);
      if Quiet(handler) {
        QuietParse(sections, handler, context.Left(), allowExtended);
      }
      var _ := CheckSignatures();
      assert Got(calls) == [];
      assert CallsOk(context.input, sections, calls, context.pos) by { NoCalls(context.input, sections, context.pos); }
      var current: int, prev: int, tag := -1, -1, 0;
      var more := true;
      while more && !context.hadError
        invariant context.Valid() && (context.readbuffer == old(context.readbuffer) || fresh(context.readbuffer))
        invariant -1 <= current < |sections| && -1 <= prev < |sections|
        invariant CallsOk(context.input, sections, calls, context.pos)
        invariant Run(sections, handler, Now(current, prev, tag)) == Run(sections, handler, initial)
        invariant !more ==>
          context.Left() == [] && Run(sections, handler, Now(current, prev, tag)) == Now(current, prev, tag)
        decreases more, |context.input| - context.pos, if prev >= 0 then 1 else 0
      {
        RunOnce(sections, handler, Now(current, prev, tag));
        current, prev, tag, more := ParseLine(current, prev, tag);
      }
      RunOnce(sections, handler, Now(current, prev, tag));
    }

    /** A round of DEH_ParseContext. */
    method ParseLine(section: int, before: int, known: int) returns (current: int, prev: int, tag: int, more: bool)
      requires context.Valid() && -1 <= section < |sections| && -1 <= before < |sections|
      requires CallsOk(context.input, sections, calls, context.pos) && !context.hadError
      modifies this`allowLongStrings, this`allowLongCheats, this`allowExtended, this`calls, context, context.readbuffer
      ensures context.Valid() && (context.readbuffer == old(context.readbuffer) || fresh(context.readbuffer))
      ensures -1 <= current < |sections| && -1 <= prev < |sections|
      ensures CallsOk(context.input, sections, calls, context.pos)
      ensures more ==> Round(sections, handler, old(Now(section, before, known))) == Some(Now(current, prev, tag))
      ensures !more ==>
        && Round(sections, handler, old(Now(section, before, known))) == None
        && Now(current, prev, tag) == old(Now(section, before, known)).(left := [])
      ensures more ==> old(context.pos) < context.pos || (old(context.pos) == context.pos && prev < 0 <= before)
    {
      hide CallsOk, HandedRight, Scan, Context.Left, SkipSpace, FirstWord, Contains, Named, StartsWith;
      current, prev, tag, more := section, before, known, true;
      ghost var start := context.pos;
      var extended := current >= 0 && Strings(sections[current]);
      var line := NextLine(extended);
      CallsLater(context.input, sections, calls, start, context.pos);
      if line == None {
        more := false;
        return;
      }
      var text := SkipSpace(line.value);
      if text != [] && text[0] == '#' {
        ParseComment(text);
      } else if text == [] {
        if current >= 0 {
          current, prev := EndSection(current, prev, tag);
        }
      } else if current >= 0 {
        LineIsRight(Call(Body, current, tag, start, text), line.value);
        ghost var now := Now(current, prev, tag);
        var _ := HandLine(Call(Body, current, tag, context.linestart, text), start);
      } else {
        current := GetSectionByName(FirstWord(text, 19));
        if current >= 0 {
          LineIsRight(Call(Start, current, 0, start, text), line.value);
          ghost var now := Now(current, prev, tag);
          tag := HandLine(Call(Start, current, 0, context.linestart, text), start);
        } else if prev >= 0 {
          context.RestoreLineStart();
          current, prev := prev, -1;
        }
      }
    }

    lemma LineIsRight(c: Call, line: seq<char>)
      requires c.section < |sections| && c.at <= |context.input|
      requires var r := Scan(NoCr(context.input[c.at..]), [], c.kind == Body && Strings(sections[c.section]), false);
        r.Line? && r.text == line
      requires c.line == SkipSpace(line) && c.line != [] && c.line[0] != '#'
      ensures HandedRight(context.input, sections, c)
    {
      hide Scan;
    }

    /** The start of a round of DEH_ParseContext. */
    method NextLine(extended: bool) returns (line: Option<seq<char>>)
      requires context.Valid()
      modifies context, context.readbuffer
      ensures context.Valid() && context.linestart == old(context.pos) && context.hadError == old(context.hadError)
      ensures context.readbuffer == old(context.readbuffer) || fresh(context.readbuffer)
      ensures line == None ==> context.Left() == [] && old(context.pos) <= context.pos
      ensures line.Some? ==>
        var r := Scan(NoCr(context.input[old(context.pos)..]), [], extended, false);
        r.Line? && r.text == line.value && old(context.pos) < context.pos
      ensures match Scan(old(context.Left()), [], extended, false)
        case EndOfFile => line == None
        case Line(text, rest) => line == Some(text) && context.Left() == rest
    {
      context.SaveLineStart();
      line := context.ReadLine(extended);
    }

    /** A blank line ends a section; a section in brackets is remembered. */
    method EndSection(section: nat, before: int, tag: int) returns (current: int, prev: int)
      requires context.Valid() && section < |sections| && CallsOk(context.input, sections, calls, context.pos)
      requires -1 <= before < |sections|
      modifies this`calls, context`pos, context`linenum, context`lastWasNewline, context`hadError
      ensures context.Valid() && old(context.pos) <= context.pos && current == -1 && -1 <= prev < |sections|
      ensures Now(current, prev, tag) == Ended(sections, handler, old(Now(section, before, tag)))
      ensures CallsOk(context.input, sections, calls, context.pos)
    {
      hide CallsOk, Context.Left, HandTo;
      if sections[section].hasEnd {
        ghost var was, place := calls, context.pos;
        var c := Call(End, section, tag, context.pos, []);
        var _ := Handle(c);
        CallsMore(context.input, sections, was, c, place, context.pos);
      }
      prev := if sections[section].name != [] && sections[section].name[0] == '[' then section else -1;
      current := -1;
    }

    /** A line goes to a handler of its section. */
    method HandLine(c: Call, ghost before: nat) returns (tag: int)
      requires
        && context.Valid()
        && CallsOk(context.input, sections, calls, before)
        && c.kind != End
        && before <= c.at < context.pos
      requires HandedRight(context.input, sections, c)
      modifies this`calls, context`pos, context`linenum, context`lastWasNewline, context`hadError
      ensures context.Valid() && old(context.pos) <= context.pos && calls == old(calls) + [c]
      ensures CallsOk(context.input, sections, calls, context.pos)
      ensures forall current, prev, t ::
        Now(current, prev, if c.kind == Start then tag else t) ==
        HandTo(handler, old(Now(current, prev, t)), Handed(c.kind, c.section, c.tag, c.line))
    {
      hide HandedRight, CallsOk;
      tag := Handle(c);
      CallsMore(context.input, sections, old(calls), c, before, context.pos);
    }
  }

  lemma NoCalls(input: seq<char>, sections: seq<Section>, limit: nat)
    ensures CallsOk(input, sections, [], limit)
  {}
}
