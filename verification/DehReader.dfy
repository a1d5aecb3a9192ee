/**
  src/deh_io.c: the reader of DeHackEd lumps, with its lines of any length, its escapes, and the
  push-back of a line.
 */
module DehReader {
  import opened Collections

  /** isspace in the C locale. */
  predicate IsSpace(c: char) {
    c == ' ' || c == '\t' || c == '\n' || c == '\r' || c == '\U{B}' || c == '\U{C}'
  }

  /** The input as the reader sees it: without carriage returns. */
  function NoCr(s: seq<char>): seq<char> {
    if s == [] then [] else (if s[0] == '\r' then [] else [s[0]]) + NoCr(s[1..])
  }

  lemma NoCrNext(s: seq<char>, pos: nat)
    requires pos < |s|
    ensures NoCr(s[pos..]) == (if s[pos] == '\r' then [] else [s[pos]]) + NoCr(s[pos + 1..])
  {
    assert s[pos..][1..] == s[pos + 1..];
  }

  lemma NoCrEnd(s: seq<char>)
    ensures NoCr(s[|s|..]) == []
  {}

  // ------------------------------------------------------------------
  // Lines
  // ------------------------------------------------------------------

  datatype ReadResult = EndOfFile | Line(text: seq<char>, rest: seq<char>)

  /** DEH_ReadLine: the line that starts with text and goes on with s; escaped is set after a continuation. */
  function Scan(s: seq<char>, text: seq<char>, extended: bool, escaped: bool): (r: ReadResult)
    ensures r.Line? && s == [] ==> text != []
    ensures r.Line? && s != [] ==> |r.rest| < |s|
    decreases |s|, 0
  {
    if s == [] then (if text == [] then EndOfFile else Line(text, []))
    else if extended && s[0] == '\\' then
      if |s| == 1 then Line(text, [])
      else if s[1] == 'n' then Scan(s[2..], text + ['\n'], extended, escaped)
      else if s[1] == '\n' then Scan(s[2..], text, extended, true)
      else ScanChar(s[1], s[2..], text, extended, escaped)
    else ScanChar(s[0], s[1..], text, extended, escaped)
  }

  function ScanChar(c: char, s: seq<char>, text: seq<char>, extended: bool, escaped: bool): (r: ReadResult)
    ensures r.Line? ==> |r.rest| <= |s|
    decreases |s|, 1
  {
    if escaped && IsSpace(c) && c != '\n' then Scan(s, text, extended, true)
    else if c == '\n' then Line(text, s)
    else Scan(s, if c == '\0' then text else text + [c], extended, false)
  }

  /** One step of the reader: a character, the end of the input, perhaps after a backslash, or an escape. */
  datatype Token = NoMore | Cut | LineFeed | Continuation | Char(c: char)

  function TokenOf(s: seq<char>, extended: bool): (Token, seq<char>) {
    if s == [] then (NoMore, [])
    else if extended && s[0] == '\\' then
      if |s| == 1 then (Cut, [])
      else if s[1] == 'n' then (LineFeed, s[2..])
      else if s[1] == '\n' then (Continuation, s[2..])
      else (Char(s[1]), s[2..])
    else (Char(s[0]), s[1..])
  }

  /** The token ends the line. */
  predicate Ends(token: Token) { token == NoMore || token == Cut || token == Char('\n') }

  /** The line after a token that does not end it, and whether indentation is still skipped. */
  function TextAfter(token: Token, text: seq<char>, escaped: bool): seq<char> {
    match token
    case LineFeed => text + ['\n']
    case Char(c) => if (escaped && IsSpace(c)) || c == '\0' then text else text + [c]
    case _ => text
  }

  function EscapedAfter(token: Token, escaped: bool): bool {
    match token
    case Continuation => true
    case Char(c) => escaped && IsSpace(c)
    case _ => escaped
  }

  lemma ScanToken(s: seq<char>, text: seq<char>, extended: bool, escaped: bool)
    ensures var (token, rest) := TokenOf(s, extended);
      Scan(s, text, extended, escaped) ==
        if token == NoMore && text == [] then EndOfFile
        else if Ends(token) then Line(text, rest)
        else Scan(rest, TextAfter(token, text, escaped), extended, EscapedAfter(token, escaped))
  {
    hide IsSpace;
  }

  /** Without escapes a step is a character, and the line feed is found where it is. */
  lemma PlainToken(s: seq<char>)
    ensures TokenOf(s, false) == if s == [] then (NoMore, []) else (Char(s[0]), s[1..])
    ensures s != [] ==> ('\n' in s <==> s[0] == '\n' || '\n' in s[1..])
  {}

  function DropNul(s: seq<char>): seq<char> {
    if s == [] then [] else (if s[0] == '\0' then [] else [s[0]]) + DropNul(s[1..])
  }

  /** The place of the first line feed, or the end. */
  function LineEnd(s: seq<char>): (n: nat)
    ensures n <= |s| && '\n' !in s[..n] && (n < |s| ==> s[n] == '\n')
  {
    if s == [] || s[0] == '\n' then 0
    else
      assert forall k: nat | k < LineEnd(s[1..]) :: s[1 + k] == s[1..][k];
      1 + LineEnd(s[1..])
  }

  lemma DropNulStep(s: seq<char>, n: nat, text: seq<char>)
    requires 0 < n <= |s|
    ensures DropNul(s[..n]) == (if s[0] == '\0' then [] else [s[0]]) + DropNul(s[1..][..n - 1])
    ensures text + DropNul(s[..n]) == (if s[0] == '\0' then text else text + [s[0]]) + DropNul(s[1..][..n - 1])
  {
    assert s[..n][1..] == s[1..][..n - 1];
  }

  /** Without escapes a line is what comes before the line feed, less the NULs. */
  lemma {:induction false} PlainLine(s: seq<char>, text: seq<char>)
    ensures var n := LineEnd(s);
      var all := text + DropNul(s[..n]);
      Scan(s, text, false, false) == if n < |s| then Line(all, s[n + 1..]) else if all == [] then EndOfFile
        else Line(all, [])
    decreases |s|
  {
    hide Scan, ScanChar;
    var n := LineEnd(s);
    ScanToken(s, text, false, false);
    if s == [] {
      assert text + [] == text;
    } else if s[0] == '\n' {
      assert s[..0] == [] && text + [] == text;
    } else {
      var next := if s[0] == '\0' then text else text + [s[0]];
      PlainLine(s[1..], next);
      DropNulStep(s, n, text);
    }
  }

  // ------------------------------------------------------------------
  // Extended lines
  // ------------------------------------------------------------------

  /**
    What a writer of an extended line may put: a character, a line feed, an escaped character, a continuation with its
    indentation.
   */
  datatype Piece = Plain(c: char) | Feed | Escaped(c: char) | Join(indent: seq<char>)

  function Written(p: Piece): seq<char> {
    match p
    case Plain(c) => [c]
    case Feed => ['\\', 'n']
    case Escaped(c) => ['\\', c]
    case Join(indent) => ['\\', '\n'] + indent
  }

  function Meaning(p: Piece): seq<char> {
    match p
    case Plain(c) => [c]
    case Feed => ['\n']
    case Escaped(c) => [c]
    case Join(_) => []
  }

  function WrittenAll(ps: seq<Piece>): seq<char> { if ps == [] then [] else Written(ps[0]) + WrittenAll(ps[1..]) }

  function MeaningAll(ps: seq<Piece>): seq<char> { if ps == [] then [] else Meaning(ps[0]) + MeaningAll(ps[1..]) }

  predicate Blank(s: seq<char>) { forall c | c in s :: IsSpace(c) && c != '\n' }

  /** What one piece may be, and what it leaves the reader in. */
  predicate LegalPiece(p: Piece, escaped: bool) {
    match p
    case Plain(c) => c !in {'\\', '\n', '\0'} && !(escaped && IsSpace(c))
    case Feed => true
    case Escaped(c) => c !in {'n', '\n', '\0'} && !(escaped && IsSpace(c))
    case Join(indent) => Blank(indent)
  }

  function After(p: Piece, escaped: bool): bool {
    match p
    case Plain(_) => false
    case Feed => escaped
    case Escaped(_) => false
    case Join(_) => true
  }

  /** The indentation after a continuation is not part of the line, so that no blank can follow it. */
  predicate Legal(ps: seq<Piece>, escaped: bool) {
    ps != [] ==> LegalPiece(ps[0], escaped) && Legal(ps[1..], After(ps[0], escaped))
  }

  lemma PieceRead(p: Piece, tail: seq<char>, text: seq<char>, escaped: bool)
    requires LegalPiece(p, escaped)
    ensures Scan(Written(p) + tail, text, true, escaped) == Scan(tail, text + Meaning(p), true, After(p, escaped))
  {
    var s := Written(p) + tail;
    match p
    case Plain(c) => assert s[1..] == tail;
    case Feed => assert s[2..] == tail;
    case Escaped(c) => assert s[2..] == tail;
    case Join(indent) =>
      assert s[2..] == indent + tail && text + [] == text;
      IndentSkipped(indent, tail, text);
  }

  /** An extended line reads back: line feeds, escaped characters, and pieces joined over several lines. */
  lemma {:induction false} ExtendedLine(ps: seq<Piece>, text: seq<char>, escaped: bool, rest: seq<char>)
    requires Legal(ps, escaped)
    ensures Scan(WrittenAll(ps) + ['\n'] + rest, text, true, escaped) == Line(text + MeaningAll(ps), rest)
    decreases |ps|
  {
    if ps == [] {
      var s := WrittenAll(ps) + ['\n'] + rest;
      assert s[0] == '\n' && s[1..] == rest && text + [] == text;
    } else {
      hide Scan, Written, Meaning, LegalPiece, After;
      var p, tail := ps[0], WrittenAll(ps[1..]) + ['\n'] + rest;
      assert WrittenAll(ps) + ['\n'] + rest == Written(p) + tail;
      assert text + Meaning(p) + MeaningAll(ps[1..]) == text + MeaningAll(ps);
      PieceRead(p, tail, text, escaped);
      ExtendedLine(ps[1..], text + Meaning(p), After(p, escaped), rest);
    }
  }

  lemma {:induction false} IndentSkipped(indent: seq<char>, s: seq<char>, text: seq<char>)
    requires Blank(indent)
    ensures Scan(indent + s, text, true, true) == Scan(s, text, true, true)
    decreases |indent|
  {
    if indent == [] {
      assert indent + s == s;
    } else {
      assert indent[0] in indent;
      assert (indent + s)[1..] == indent[1..] + s;
      IndentSkipped(indent[1..], s, text);
    }
  }

  // ------------------------------------------------------------------
  // Line numbers
  // ------------------------------------------------------------------

  function Newlines(s: seq<char>): nat {
    if s == [] then 0 else Newlines(s[..|s| - 1]) + if s[|s| - 1] == '\n' then 1 else 0
  }

  lemma NewlinesNext(s: seq<char>, pos: nat)
    requires pos < |s|
    ensures Newlines(s[..pos + 1]) == Newlines(s[..pos]) + if s[pos] == '\n' then 1 else 0
  {
    assert s[..pos + 1][..pos] == s[..pos];
  }

  // ------------------------------------------------------------------
  // The context
  // ------------------------------------------------------------------

  /** deh_context_t for a lump. */
  class Context {
    const input: seq<char>
    var pos: nat
    var linenum: int
    var lastWasNewline: bool
    var readbuffer: array<char>
    var linestart: int
    var hadError: bool

    ghost predicate Valid()
      reads this
    {
      pos <= |input| && readbuffer.Length > 0 && linestart <= |input|
    }

    /** The line number is that of the last character read. */
    ghost predicate Counted()
      requires pos <= |input|
      reads this`pos, this`linenum, this`lastWasNewline
    {
      linenum == Feeds() + if lastWasNewline then 0 else 1
    }

    /** The line feeds read so far. */
    ghost function Feeds(): nat
      requires pos <= |input|
      reads this`pos
    {
      Newlines(input[..pos])
    }

    ghost function Left(): seq<char>
      requires pos <= |input|
      reads this`pos
    {
      NoCr(input[pos..])
    }

    /** DEH_OpenLump. */
    constructor (lump: seq<char>)
      ensures Valid() && Counted() && fresh(readbuffer) && readbuffer.Length == 128
      ensures input == lump && pos == 0 && linestart == -1 && !hadError
    {
      input, pos, linenum, lastWasNewline, linestart, hadError := lump, 0, 0, true, -1, false;
      readbuffer := new char[128];
    }

    /** DEH_GetChar. */
    method GetChar() returns (c: Option<char>)
      requires Valid()
      modifies this`pos, this`linenum, this`lastWasNewline
      ensures Valid() && old(pos) <= pos
      ensures if old(Left()) == [] then c == None && Left() == [] && pos == |input|
              else c == Some(old(Left())[0]) && Left() == old(Left())[1..] && old(pos) < pos
      ensures old(Counted()) ==> Counted()
      ensures lastWasNewline <==> c == Some('\n')
      ensures Feeds() == old(Feeds()) + if c == Some('\n') then 1 else 0
      ensures linenum == old(linenum) + if old(lastWasNewline) then 1 else 0
    {
      hide NoCr, Newlines;
      if pos == |input| { NoCrEnd(input); }
      c := None;
      var cr := true;
      while cr
        invariant Valid() && old(pos) <= pos && lastWasNewline == old(lastWasNewline) && linenum == old(linenum)
        invariant cr ==> c == None && Left() == old(Left()) && Newlines(input[..pos]) == Newlines(input[..old(pos)])
        invariant !cr && c == None ==>
          old(Left()) == [] && Left() == [] && pos == |input| && Newlines(input[..pos]) == Newlines(input[..old(pos)])
        invariant !cr && c.Some? ==> old(Left()) == [c.value] + Left() && old(pos) < pos
        invariant !cr && c.Some? ==>
          Newlines(input[..pos]) == Newlines(input[..old(pos)]) + if c.value == '\n' then 1 else 0
        decreases cr, |input| - pos
      {
        if pos >= |input| {
          NoCrEnd(input);
          cr := false;
        } else {
          NewlinesNext(input, pos);
          NoCrNext(input, pos);
          var ch := input[pos];
          pos := pos + 1;
          if ch != '\r' {
            c := Some(ch);
            cr := false;
          }
        }
      }
      assert c.Some? ==> old(Left())[1..] == Left();
      if lastWasNewline {
        linenum := linenum + 1;
      }
      lastWasNewline := c == Some('\n');
    }

    /** IncreaseReadBuffer. */
    method IncreaseReadBuffer()
      requires Valid()
      modifies this`readbuffer
      ensures Valid() && fresh(readbuffer) && readbuffer.Length == 2 * old(readbuffer.Length)
      ensures readbuffer[..old(readbuffer.Length)] == old(readbuffer[..])
    {
      var newbuffer := new char[readbuffer.Length * 2];
      var i := 0;
      while i < readbuffer.Length
        invariant
          && 0 <= i <= readbuffer.Length
          && readbuffer == old(readbuffer)
          && newbuffer.Length == 2 * readbuffer.Length
        invariant readbuffer[..] == old(readbuffer[..]) && newbuffer[..i] == readbuffer[..i]
      {
        newbuffer[i] := readbuffer[i];
        i := i + 1;
      }
      readbuffer := newbuffer;
    }

    /** One character goes into the buffer, which grows if it is full. */
    method Store(n: nat, c: char)
      requires Valid() && n <= readbuffer.Length
      modifies this`readbuffer, readbuffer
      ensures Valid() && n < readbuffer.Length && (readbuffer == old(readbuffer) || fresh(readbuffer))
      ensures readbuffer[n] == c && readbuffer[..n] == old(readbuffer[..n])
      ensures readbuffer.Length == if n < old(readbuffer.Length) then old(readbuffer.Length) else 2 * n
    {
      if n >= readbuffer.Length {
        IncreaseReadBuffer();
      }
      readbuffer[n] := c;
    }

    /**
      DEH_ReadLine: exactly the next line, with a NUL after it in the buffer. The buffer never
      overflows, and is at most twice as long as the line or as before.
     */
    method ReadLine(extended: bool) returns (line: Option<seq<char>>)
      requires Valid()
      modifies this`pos, this`linenum, this`lastWasNewline, this`readbuffer, readbuffer
      ensures Valid() && (readbuffer == old(readbuffer) || fresh(readbuffer))
      ensures match Scan(old(Left()), [], extended, false)
        case EndOfFile => line == None && Left() == []
        case Line(text, rest) =>
          && line == Some(text) && Left() == rest && old(pos) < pos
          && |text| < readbuffer.Length && readbuffer[..|text|] == text && readbuffer[|text|] == '\0'
      ensures old(pos) <= pos && (old(Counted()) ==> Counted())
      ensures readbuffer.Length == old(readbuffer.Length) || (line.Some? && readbuffer.Length <= 2 * |line.value|)
      ensures !extended ==> Feeds() == old(Feeds()) + if lastWasNewline then 1 else 0
      ensures !extended ==> (lastWasNewline <==> '\n' in old(Left()))
    {
      hide Context.Left, Context.Counted, Context.Feeds, Scan, TokenOf, TextAfter, EscapedAfter;
      var n := 0;
      var escaped := false;
      ghost var text: seq<char> := [];
      while true
        invariant Valid() && (readbuffer == old(readbuffer) || fresh(readbuffer)) && old(pos) <= pos
        invariant n == |text| <= readbuffer.Length && readbuffer[..n] == text && (text != [] ==> old(pos) < pos)
        invariant Scan(old(Left()), [], extended, false) == Scan(Left(), text, extended, escaped)
        invariant old(Counted()) ==> Counted()
        invariant !extended ==> Feeds() == old(Feeds()) && ('\n' in Left() <==> '\n' in old(Left()))
        invariant readbuffer.Length == old(readbuffer.Length) || readbuffer.Length <= 2 * n
        decreases |input| - pos
      {
        ScanToken(Left(), text, extended, escaped);
        PlainToken(Left());
        var token := NextToken(extended);
        if token == NoMore && n == 0 {
          return None;
        }
        if Ends(token) {
          line := Finish(n, text);
          return;
        }
        ghost var more := TextAfter(token, text, escaped);
        n, escaped := Take(token, n, escaped, text);
        text := more;
      }
    }

    /** The rest of a round of DEH_ReadLine: what a token adds to the line. */
    method Take(token: Token, n: nat, escaped: bool, ghost text: seq<char>) returns (m: nat, still: bool)
      requires Valid() && n == |text| <= readbuffer.Length && readbuffer[..n] == text && !Ends(token)
      modifies this`readbuffer, readbuffer
      ensures Valid() && (readbuffer == old(readbuffer) || fresh(readbuffer))
      ensures still == EscapedAfter(token, escaped) && n <= m
      ensures
        && m == |TextAfter(token, text, escaped)| <= readbuffer.Length
        && readbuffer[..m] == TextAfter(token, text, escaped)
      ensures readbuffer.Length == old(readbuffer.Length) || readbuffer.Length <= 2 * m
    {
      m, still := n, escaped;
      if token == Continuation {
        still := true;
      } else if token == LineFeed {
        m := Append(n, '\n', text);
      } else if !(escaped && IsSpace(token.c)) {
        still := false;
        if token.c != '\0' {
          m := Append(n, token.c, text);
        }
      }
    }

    /** The line goes on. */
    method Append(n: nat, c: char, ghost text: seq<char>) returns (m: nat)
      requires Valid() && n == |text| <= readbuffer.Length && readbuffer[..n] == text
      modifies this`readbuffer, readbuffer
      ensures Valid() && m == n + 1 <= readbuffer.Length && readbuffer[..m] == text + [c]
      ensures readbuffer == old(readbuffer) || fresh(readbuffer)
      ensures readbuffer.Length == old(readbuffer.Length) || readbuffer.Length <= 2 * n
    {
      Store(n, c);
      m := n + 1;
    }

    /** The line is complete. */
    method Finish(n: nat, ghost text: seq<char>) returns (line: Option<seq<char>>)
      requires Valid() && n == |text| <= readbuffer.Length && readbuffer[..n] == text
      modifies this`readbuffer, readbuffer
      ensures Valid() && line == Some(text) && n < readbuffer.Length && readbuffer[..n] == text && readbuffer[n] == '\0'
      ensures readbuffer == old(readbuffer) || fresh(readbuffer)
      ensures readbuffer.Length == old(readbuffer.Length) || readbuffer.Length <= 2 * n
    {
      Store(n, '\0');
      line := Some(readbuffer[..n]);
    }

    /** The reading of one character in DEH_ReadLine, or of an escape. */
    method NextToken(extended: bool) returns (token: Token)
      requires Valid()
      modifies this`pos, this`linenum, this`lastWasNewline
      ensures Valid() && (old(Counted()) ==> Counted())
      ensures (token, Left()) == TokenOf(old(Left()), extended)
      ensures old(pos) <= pos && (token != NoMore ==> old(pos) < pos) && (token == NoMore ==> Left() == [])
      ensures !extended ==> (lastWasNewline <==> token == Char('\n'))
      ensures !extended ==> Feeds() == old(Feeds()) + if token == Char('\n') then 1 else 0
    {
      hide Context.Left, Context.Counted, Context.Feeds;
      ghost var s := Left();
      var c := GetChar();
      if extended && c == Some('\\') {
        assert s[1..] == Left();
        c := GetChar();
        if c == Some('n') {
          return LineFeed;
        }
        if c == Some('\n') {
          return Continuation;
        }
        if c == None {
          return Cut;
        }
      }
      token := if c == None then NoMore else Char(c.value);
    }

    /** DEH_SaveLineStart. */
    method SaveLineStart()
      requires Valid()
      modifies this`linestart
      ensures Valid() && linestart == pos
    {
      linestart := pos;
    }

    /** DEH_RestoreLineStart. */
    method RestoreLineStart()
      requires Valid()
      modifies this`pos, this`linenum
      ensures Valid()
      ensures linestart < 0 ==> pos == old(pos) && linenum == old(linenum)
      ensures linestart >= 0 ==> pos == linestart && linenum == old(linenum) - 1
    {
      if linestart < 0 {
        return;
      }
      pos := linestart;
      linenum := linenum - 1;
    }
  }

  /**
    Reading a line and putting it back: the line number is right again just when a line feed ends the line. Otherwise,
    at the end of the lump, it is one too low.
   */
  method ReadAndPutBack(context: Context) returns (line: Option<seq<char>>)
    requires context.Valid() && context.Counted()
    modifies context, context.readbuffer
    ensures context.Valid()
    ensures line.Some? ==> context.pos == old(context.pos) && (context.Counted() <==> '\n' in old(context.Left()))
    ensures line.Some? && '\n' !in old(context.Left()) ==> context.linenum == context.Feeds() && !context.lastWasNewline
    ensures line.Some? <==> Scan(old(context.Left()), [], false, false).Line?
  {
    hide Context.Left, Context.Feeds;
    context.SaveLineStart();
    line := context.ReadLine(false);
    if line.Some? {
      context.RestoreLineStart();
    }
  }

  /** The only line of a lump, without a line feed, is counted as line 0 when it is read again. */
  method UnterminatedLine() returns (linenum: int)
    ensures linenum == 0
  {
    var context := new Context("x");
    assert context.Left() == ['x'] by { OneCharacter(); }
    PlainLine("x", []);
    var _ := ReadAndPutBack(context);
    var _ := context.GetChar();
    linenum := context.linenum;
  }

  lemma OneCharacter()
    ensures NoCr(['x']) == ['x'] && "x"[0..] == ['x']
  {
    assert ['x'][1..] == [];
  }
}
