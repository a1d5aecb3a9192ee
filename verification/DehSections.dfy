/**
  What src/deh_main.c makes of the text of a lump: which handler of which section gets which line.
 */
module DehSections {
  import opened Collections
  import opened DehReader

  // ------------------------------------------------------------------
  // Strings
  // ------------------------------------------------------------------

  function Lower(c: char): char { if 'A' <= c <= 'Z' then c + ('a' - 'A') else c }

  /** strcasecmp. */
  predicate SameText(a: seq<char>, b: seq<char>) {
    |a| == |b| && forall i | 0 <= i < |a| :: Lower(a[i]) == Lower(b[i])
  }

  /** Without the blanks at the beginning. */
  function SkipSpace(s: seq<char>): (r: seq<char>)
    ensures r == [] || !IsSpace(r[0])
  {
    if s != [] && IsSpace(s[0]) then SkipSpace(s[1..]) else s
  }

  /** The beginning of a string, without regard to case. */
  predicate StartsWith(s: seq<char>, t: seq<char>) { |t| <= |s| && SameText(s[..|t|], t) }

  predicate Contains(s: seq<char>, t: seq<char>) { (|t| <= |s| && s[..|t|] == t) || (s != [] && Contains(s[1..], t)) }

  /** sscanf with %19s, on a string that does not start with a blank. */
  function FirstWord(s: seq<char>, n: nat): seq<char> {
    if n == 0 || s == [] || IsSpace(s[0]) then [] else [s[0]] + FirstWord(s[1..], n - 1)
  }

  predicate StandsAt(s: seq<char>, t: seq<char>, i: int) { 0 <= i <= |s| - |t| && s[i..i + |t|] == t }

  /** The text is somewhere in the string. */
  lemma {:induction false} ContainsMeans(s: seq<char>, t: seq<char>)
    ensures Contains(s, t) <==> exists i :: StandsAt(s, t, i)
  {
    if |t| <= |s| && s[..|t|] == t {
      assert StandsAt(s, t, 0);
    } else if s != [] {
      ContainsMeans(s[1..], t);
      if Contains(s[1..], t) {
        var i :| StandsAt(s[1..], t, i);
        assert StandsAt(s, t, i + 1);
      }
      if i :| StandsAt(s, t, i) {
        assert i > 0 && StandsAt(s[1..], t, i - 1);
      }
    } else if i :| StandsAt(s, t, i) {
      assert false;
    }
  }

  /** The first word goes as far as the next blank, the end, or so many characters. */
  lemma {:induction false} FirstWordIs(s: seq<char>, n: nat)
    ensures var w := FirstWord(s, n);
      && |w| <= |s| && |w| <= n && w == s[..|w|] && (forall c | c in w :: !IsSpace(c))
      && (|w| < n && |w| < |s| ==> IsSpace(s[|w|]))
  {
    hide IsSpace;
    if n > 0 && s != [] && !IsSpace(s[0]) {
      FirstWordIs(s[1..], n - 1);
      var w := FirstWord(s[1..], n - 1);
      assert s[..1 + |w|] == [s[0]] + s[1..][..|w|];
    }
  }

  // ------------------------------------------------------------------
  // Sections and handlers
  // ------------------------------------------------------------------

  const SIGNATURES: seq<seq<char>> := ["Patch File for DeHackEd v2.3", "Patch File for DeHackEd v3.0"]

  /** deh_section_t: a name, and whether the section has an end handler. */
  datatype Section = Section(name: seq<char>, hasEnd: bool)

  predicate Strings(s: Section) { SameText(s.name, "[STRINGS]") }

  /** Lines after such a section may belong to it although they do not follow its name. */
  predicate Bracketed(s: Section) { s.name != [] && s.name[0] == '[' }

  /** The first section of that name, or -1. */
  function Named(sections: seq<Section>, name: seq<char>, from: nat): (i: int)
    requires from <= |sections|
    ensures -1 <= i < |sections|
    decreases |sections| - from
  {
    if from == |sections| then -1
    else if SameText(sections[from].name, name) then from
    else Named(sections, name, from + 1)
  }

  /** The section whose name is the first word of a line. */
  function SectionOf(sections: seq<Section>, allowed: bool, line: seq<char>): (i: int)
    ensures -1 <= i < |sections|
  {
    var name := FirstWord(line, 19);
    if !allowed && StartsWith(name, "[STRINGS]") then -1 else Named(sections, name, 0)
  }

  datatype Kind = Start | Body | End

  /** What a handler gets: the tag is what the start handler of the section returned. */
  datatype Handed = Handed(kind: Kind, section: nat, tag: int, line: seq<char>)

  /** What a handler does: it reads so many characters on, may report an error, and returns a tag. */
  datatype Handling = Handling(consumed: nat, fails: bool, tag: int)

  predicate IsComment(text: seq<char>) { text != [] && text[0] == '#' }

  /** A comment can allow the section of strings. */
  predicate Allows(allowed: bool, text: seq<char>) {
    allowed || (IsComment(text) && Contains(text, "*allow-extended-strings*"))
  }

  // ------------------------------------------------------------------
  // Line by line
  // ------------------------------------------------------------------

  /** What DEH_ParseContext knows between two lines. */
  datatype State = State(left: seq<char>, current: int, prev: int, tag: int, allowed: bool, failed: bool,
    handed: seq<Handed>)

  predicate ValidState(sections: seq<Section>, st: State) {
    -1 <= st.current < |sections| && -1 <= st.prev < |sections|
  }

  function Drop(s: seq<char>, n: nat): seq<char> { if n <= |s| then s[n..] else [] }

  function HandTo(handler: nat -> Handling, st: State, h: Handed): State {
    var handling := handler(|st.handed|);
    st.(handed := st.handed + [h], left := Drop(st.left, handling.consumed), failed := st.failed || handling.fails,
        tag := if h.kind == Start then handling.tag else st.tag)
  }

  /** A blank line ends a section. */
  function Ended(sections: seq<Section>, handler: nat -> Handling, st: State): State
    requires ValidState(sections, st) && st.current >= 0
  {
    var section := sections[st.current];
    var after := if section.hasEnd then HandTo(handler, st, Handed(End, st.current, st.tag, [])) else st;
    after.(current := -1, prev := if Bracketed(section) then st.current else -1)
  }

  /** A round of DEH_ParseContext. */
  function Round(sections: seq<Section>, handler: nat -> Handling, st: State): (r: Option<State>)
    requires ValidState(sections, st)
    ensures r.Some? ==>
      && ValidState(sections, r.value)
      && (|r.value.left| < |st.left| || (r.value.left == st.left && st.prev >= 0 && r.value.prev < 0))
  {
    match Scan(st.left, [], st.current >= 0 && Strings(sections[st.current]), false)
    case EndOfFile => None
    case Line(line, rest) =>
      var text, now := SkipSpace(line), st.(left := rest);
      if IsComment(text) then Some(now.(allowed := Allows(st.allowed, text)))
      else if text == [] then (if st.current >= 0 then Some(Ended(sections, handler, now)) else Some(now))
      else if st.current >= 0 then Some(HandTo(handler, now, Handed(Body, st.current, st.tag, text)))
      else
        var i := SectionOf(sections, st.allowed, text);
        if i >= 0 then Some(HandTo(handler, now.(current := i), Handed(Start, i, 0, text)))
        else if st.prev >= 0 then Some(st.(current := st.prev, prev := -1))
        else Some(now)
  }

  function Run(sections: seq<Section>, handler: nat -> Handling, st: State): State
    requires ValidState(sections, st)
    decreases |st.left|, if st.prev >= 0 then 1 else 0
  {
    if st.failed then st
    else
      match Round(sections, handler, st)
      case None => st.(left := [])
      case Some(next) => Run(sections, handler, next)
  }

  lemma RunOnce(sections: seq<Section>, handler: nat -> Handling, st: State)
    requires ValidState(sections, st)
    ensures st.failed ==> Run(sections, handler, st) == st
    ensures !st.failed ==> match Round(sections, handler, st)
      case None => Run(sections, handler, st) == st.(left := []) == Run(sections, handler, st.(left := []))
      case Some(next) => Run(sections, handler, st) == Run(sections, handler, next)
  {}

  /** CheckSignatures: a first line that is a signature is used up. */
  function AfterSignature(s: seq<char>): seq<char> {
    match Scan(s, [], false, false)
    case EndOfFile => []
    case Line(text, rest) => if text in SIGNATURES then rest else s
  }

  function Initial(s: seq<char>, allowed: bool, failed: bool): State {
    State(AfterSignature(s), -1, -1, 0, allowed, failed, [])
  }

  // ------------------------------------------------------------------
  // Section by section
  // ------------------------------------------------------------------

  /** Handlers that read nothing on and do not fail. */
  ghost predicate Quiet(handler: nat -> Handling) {
    forall n :: handler(n).consumed == 0 && !handler(n).fails
  }

  /**
    The lines up to the next blank one, without comments: what is left after that line, whether there
    was one, and whether strings are allowed then.
   */
  datatype Block = Block(lines: seq<seq<char>>, rest: seq<char>, closed: bool, allowed: bool)

  function BlockOf(s: seq<char>, extended: bool, allowed: bool): (b: Block)
    ensures b.closed ==> |b.rest| < |s|
    ensures !b.closed ==> b.rest == []
    decreases |s|
  {
    match Scan(s, [], extended, false)
    case EndOfFile => Block([], [], false, allowed)
    case Line(line, rest) =>
      var text := SkipSpace(line);
      if text == [] then Block([], rest, true, allowed)
      else
        var more := BlockOf(rest, extended, Allows(allowed, text));
        if IsComment(text) then more else more.(lines := [text] + more.lines)
  }

  /** These lines for the line parser of a section. */
  function Bodies(section: nat, tag: int, lines: seq<seq<char>>): seq<Handed> {
    seq(|lines|, i requires 0 <= i < |lines| => Handed(Body, section, tag, lines[i]))
  }

  /** The lines of a block for a section, and its end. */
  function BlockHanded(sections: seq<Section>, section: nat, tag: int, b: Block): seq<Handed>
    requires section < |sections|
  {
    Bodies(section, tag, b.lines) +
    if b.closed && sections[section].hasEnd then [Handed(End, section, tag, [])] else []
  }

  function PrevAfter(sections: seq<Section>, section: nat): int
    requires section < |sections|
  {
    if Bracketed(sections[section]) then section else -1
  }

  /**
    All that the handlers get of a lump, section by section; n calls came before. A line that names a section
    goes to its start handler, the block after it to its line parser. A block that no name precedes
    goes to the section before it, if that one was in brackets.
   */
  function Document(sections: seq<Section>, handler: nat -> Handling, s: seq<char>, prev: int, tag: int, allowed: bool,
    n: nat): seq<Handed>
    requires -1 <= prev < |sections|
    decreases |s|
  {
    match Scan(s, [], false, false)
    case EndOfFile => []
    case Line(line, rest) =>
      var text := SkipSpace(line);
      if text == [] || IsComment(text) then Document(sections, handler, rest, prev, tag, Allows(allowed, text), n)
      else
        var i := SectionOf(sections, allowed, text);
        if i >= 0 then
          var b := BlockOf(rest, Strings(sections[i]), allowed);
          var first := [Handed(Start, i, 0, text)] + BlockHanded(sections, i, handler(n).tag, b);
          first + if b.closed
            then Document(sections, handler, b.rest, PrevAfter(sections, i), handler(n).tag, b.allowed, n + |first|)
            else []
        else if prev >= 0 then
          var b := BlockOf(s, Strings(sections[prev]), allowed);
          var first := BlockHanded(sections, prev, tag, b);
          first + if b.closed
            then Document(sections, handler, b.rest, PrevAfter(sections, prev), tag, b.allowed, n + |first|)
            else []
        else Document(sections, handler, rest, prev, tag, allowed, n)
  }

  lemma OneMoreLine(sections: seq<Section>, section: nat, tag: int, text: seq<char>, b: Block, handed: seq<Handed>)
    requires section < |sections|
    ensures handed + [Handed(Body, section, tag, text)] + BlockHanded(sections, section, tag, b) ==
      handed + BlockHanded(sections, section, tag, b.(lines := [text] + b.lines))
  {
    assert Bodies(section, tag, [text] + b.lines) == [Handed(Body, section, tag, text)] + Bodies(section, tag, b.lines);
    var ends := if b.closed && sections[section].hasEnd then [Handed(End, section, tag, [])] else [];
    assert handed + [Handed(Body, section, tag, text)] + (Bodies(section, tag, b.lines) + ends) ==
      handed + ([Handed(Body, section, tag, text)] + Bodies(section, tag, b.lines) + ends);
  }

  lemma EndRuns(sections: seq<Section>, handler: nat -> Handling, st: State)
    requires ValidState(sections, st) && st.current >= 0 && !st.failed && Quiet(handler)
    ensures Ended(sections, handler, st) ==
      State(st.left, -1, PrevAfter(sections, st.current), st.tag, st.allowed, false,
            st.handed + BlockHanded(sections, st.current, st.tag, Block([], st.left, true, st.allowed)))
  {
    assert Bodies(st.current, st.tag, []) == [];
    assert Drop(st.left, 0) == st.left;
    assert st.handed + [] == st.handed;
  }

  /** Within a section the lines go to its line parser up to the next blank line. */
  lemma {:induction false} BlockRuns(sections: seq<Section>, handler: nat -> Handling, st: State)
    requires ValidState(sections, st) && st.current >= 0 && !st.failed && Quiet(handler)
    ensures var b := BlockOf(st.left, Strings(sections[st.current]), st.allowed);
      var after := State(b.rest, -1, PrevAfter(sections, st.current), st.tag, b.allowed, false,
                         st.handed + BlockHanded(sections, st.current, st.tag, b));
      && (b.closed ==> Run(sections, handler, st) == Run(sections, handler, after))
      && (!b.closed ==> Run(sections, handler, st).handed == after.handed)
    decreases |st.left|
  {
    hide Scan, SkipSpace, Contains, SectionOf, Strings, Bracketed;
    match Scan(st.left, [], Strings(sections[st.current]), false)
    case EndOfFile =>
      assert Bodies(st.current, st.tag, []) == [];
    case Line(line, rest) =>
      var text := SkipSpace(line);
      var next := Round(sections, handler, st).value;
      if text == [] {
        var b := Block([], rest, true, st.allowed);
        EndRuns(sections, handler, st.(left := rest));
        assert next == State(rest, -1, PrevAfter(sections, st.current), st.tag, st.allowed, false,
                             st.handed + BlockHanded(sections, st.current, st.tag, b));
      } else {
        BlockRuns(sections, handler, next);
        if !IsComment(text) {
          assert Drop(rest, 0) == rest;
          OneMoreLine(sections, st.current, st.tag, text, BlockOf(rest, Strings(sections[st.current]), st.allowed),
                      st.handed);
        }
      }
  }

  /** Line by line and section by section the handlers get the same. */
  lemma {:induction false} RunIsDocument(sections: seq<Section>, handler: nat -> Handling, st: State)
    requires ValidState(sections, st) && st.current < 0 && !st.failed && Quiet(handler)
    ensures Run(sections, handler, st).handed ==
      st.handed + Document(sections, handler, st.left, st.prev, st.tag, st.allowed, |st.handed|)
    decreases |st.left|
  {
    hide Scan, SkipSpace, Contains, SectionOf, Strings, Bracketed, BlockOf, BlockHanded;
    match Scan(st.left, [], false, false)
    case EndOfFile =>
    case Line(line, rest) =>
      var text := SkipSpace(line);
      var next := Round(sections, handler, st).value;
      if next.current < 0 {
        RunIsDocument(sections, handler, next);
      } else {
        SectionIsDocument(sections, handler, st, next, next.handed[|st.handed|..]);
      }
  }

  /** ... where a section begins, or goes on. */
  lemma {:induction false} SectionIsDocument(sections: seq<Section>, handler: nat -> Handling, st: State, next: State,
    start: seq<Handed>)
    requires ValidState(sections, st) && st.current < 0 && !st.failed && Quiet(handler)
    requires Round(sections, handler, st) == Some(next) && next.current >= 0 && next.handed == st.handed + start
    ensures Run(sections, handler, st).handed ==
      st.handed + Document(sections, handler, st.left, st.prev, st.tag, st.allowed, |st.handed|)
    decreases |st.left|, 0
  {
    hide Scan, SkipSpace, Contains, SectionOf, Strings, Bracketed, BlockOf, BlockHanded, Document, Quiet;
    var b := BlockOf(next.left, Strings(sections[next.current]), next.allowed);
    var first := start + BlockHanded(sections, next.current, next.tag, b);
    SectionStarts(sections, handler, st, next, start);
    assert Run(sections, handler, st) == Run(sections, handler, next);
    assert next.handed + BlockHanded(sections, next.current, next.tag, b) == st.handed + first;
    hide Run, Round;
    BlockRuns(sections, handler, next);
    if b.closed {
      var after := State(b.rest, -1, PrevAfter(sections, next.current), next.tag, b.allowed, false, st.handed + first);
      RunIsDocument(sections, handler, after);
      var more := Document(sections, handler, b.rest, after.prev, next.tag, b.allowed, |st.handed| + |first|);
      assert st.handed + first + more == st.handed + (first + more);
    } else {
      assert first + [] == first;
    }
  }

  lemma SectionStarts(sections: seq<Section>, handler: nat -> Handling, st: State, next: State, start: seq<Handed>)
    requires ValidState(sections, st) && st.current < 0 && !st.failed && Quiet(handler)
    requires Round(sections, handler, st) == Some(next) && next.current >= 0 && next.handed == st.handed + start
    ensures !next.failed && (next.left == st.left || |next.left| < |st.left|)
    ensures var b := BlockOf(next.left, Strings(sections[next.current]), next.allowed);
      var first := start + BlockHanded(sections, next.current, next.tag, b);
      Document(sections, handler, st.left, st.prev, st.tag, st.allowed, |st.handed|) ==
        first + if b.closed then Document(sections, handler, b.rest, PrevAfter(sections, next.current), next.tag,
                                          b.allowed, |st.handed| + |first|)
                else []
  {
    hide Scan, SkipSpace, Contains, SectionOf, Strings, Bracketed, BlockOf, BlockHanded, PrevAfter, Document, Drop;
    match Scan(st.left, [], false, false)
    case Line(line, rest) =>
      var text := SkipSpace(line);
      var i := SectionOf(sections, st.allowed, text);
      var b := BlockOf(next.left, Strings(sections[next.current]), next.allowed);
      var gets := BlockHanded(sections, next.current, next.tag, b);
      assert text != [] && !IsComment(text);
      HeaderDocument(sections, handler, st.left, st.prev, st.tag, st.allowed, |st.handed|);
      assert start == next.handed[|st.handed|..];
      if i >= 0 {
        DropNothing(rest);
        assert next.left == rest && start == [Handed(Start, i, 0, text)];
      } else {
        assert next == st.(current := st.prev, prev := -1) && start == [];
        assert start + gets == gets;
      }
  }

  lemma DropNothing(s: seq<char>)
    ensures Drop(s, 0) == s
  {}

  /** A document whose first line is neither blank nor a comment. */
  lemma HeaderDocument(sections: seq<Section>, handler: nat -> Handling, s: seq<char>, prev: int, tag: int,
    allowed: bool, n: nat)
    requires -1 <= prev < |sections|
    ensures match Scan(s, [], false, false)
      case EndOfFile => true
      case Line(line, rest) =>
        var text := SkipSpace(line);
        var i := SectionOf(sections, allowed, text);
        text != [] && !IsComment(text) && (i >= 0 || prev >= 0) ==>
          var b := if i >= 0 then BlockOf(rest, Strings(sections[i]), allowed)
            else BlockOf(s, Strings(sections[prev]), allowed);
          var section, t := if i >= 0 then i else prev, if i >= 0 then handler(n).tag else tag;
          var gets := BlockHanded(sections, section, t, b);
          var first := if i >= 0 then [Handed(Start, i, 0, text)] + gets else gets;
          Document(sections, handler, s, prev, tag, allowed, n) ==
            first + if b.closed
              then Document(sections, handler, b.rest, PrevAfter(sections, section), t, b.allowed, n + |first|)
              else []
  {
    hide Scan, SkipSpace, Contains, SectionOf, Strings, Bracketed, BlockOf, BlockHanded, PrevAfter;
  }

  /** What the handlers get of a lump if they read nothing on. */
  lemma QuietParse(sections: seq<Section>, handler: nat -> Handling, s: seq<char>, allowed: bool)
    requires Quiet(handler)
    ensures Run(sections, handler, Initial(s, allowed, false)).handed ==
      Document(sections, handler, AfterSignature(s), -1, 0, allowed, 0)
  {
    hide Document, Run, AfterSignature;
    RunIsDocument(sections, handler, Initial(s, allowed, false));
  }
}
