/**
  The format that src/midifile.c reads, Standard MIDI Files 1.0: what a writer may write, what
  the reader makes of bytes, and that the two fit together.
 */
module MidiFormat {
  import opened Arithmetic

  newtype byte = x: int | 0 <= x < 0x100

  datatype Parsed<T> = Fail | Got(value: T, rest: seq<byte>)

  // ------------------------------------------------------------------
  // Variable-length quantities
  // ------------------------------------------------------------------

  /** What ReadVariableLength makes of the bytes, with acc read so far and at most left bytes to go. */
  function ParseVlq(s: seq<byte>, acc: nat, left: nat): (r: Parsed<nat>)
    ensures r.Got? ==> |r.rest| < |s|
  {
    if left == 0 || s == [] then Fail
    else
      var next := acc * 128 + (s[0] as int) % 128;
      if s[0] < 0x80 then Got(next, s[1..]) else ParseVlq(s[1..], next, left - 1)
  }

  function Power(n: nat): (p: nat)
    ensures p > 0
  {
    if n == 0 then 1 else 128 * Power(n - 1)
  }

  /** The first of n digits, and what follows it. */
  function Lead(v: nat, n: nat): nat
    requires n >= 1
  {
    Ratio(v, Power(n - 1))
  }

  function Ratio(v: nat, p: nat): nat
    requires p > 0
  {
    v / p
  }

  function Low(v: nat, n: nat): nat
    requires n >= 1
  {
    v % Power(n - 1)
  }

  /** A quantity in n bytes: seven bits in each, the top bit set in all but the last. */
  function Vlq(v: nat, n: nat): (s: seq<byte>)
    requires n >= 1 && v < Power(n)
    ensures |s| == n
    decreases n
  {
    if n == 1 then [v as byte]
    else
      LeadDigit(v, n);
      [(0x80 + Lead(v, n)) as byte] + Vlq(Low(v, n), n - 1)
  }

  lemma LeadDigit(v: nat, n: nat)
    requires n >= 1 && v < Power(n)
    ensures Lead(v, n) < 128 && Low(v, n) < Power(n - 1)
  {
    DivBelow(v, Power(n - 1), 128);
  }

  lemma DivBelow(v: nat, p: nat, k: nat)
    requires p > 0 && v < k * p
    ensures v / p < k
  {
    if v / p >= k { MulMonotone(k, v / p, p); }
  }

  /** The number with the digits of v, n of them, after those of acc. */
  function Value(acc: nat, n: nat, v: nat): nat { acc * Power(n) + v }

  lemma ValueStep(acc: nat, n: nat, v: nat)
    requires n >= 1
    ensures Value(acc * 128 + Lead(v, n), n - 1, Low(v, n)) == Value(acc, n, v)
  {
    Reassemble(acc, v, Power(n - 1));
  }

  /** Whoever reads a quantity written in n bytes gets it back, and reads these n bytes. */
  lemma VlqRead(v: nat, n: nat, left: nat, rest: seq<byte>)
    requires 1 <= n <= left && v < Power(n)
    ensures ParseVlq(Vlq(v, n) + rest, 0, left) == Got(v, rest)
  {
    hide ParseVlq, Vlq;
    VlqReadOn(v, n, 0, left, rest);
    assert Value(0, n, v) == v;
  }

  lemma {:induction false} VlqReadOn(v: nat, n: nat, acc: nat, left: nat, rest: seq<byte>)
    requires 1 <= n <= left && v < Power(n)
    ensures ParseVlq(Vlq(v, n) + rest, acc, left) == Got(Value(acc, n, v), rest)
    decreases n
  {
    hide ParseVlq, Vlq, Power, Value, Lead, Low;
    if n == 1 {
      LastByteRead(v, acc, left, rest);
    } else {
      VlqSplit(v, n);
      var low := Vlq(Low(v, n), n - 1);
      VlqReadOn(Low(v, n), n - 1, acc * 128 + Lead(v, n), left - 1, rest);
      assert Vlq(v, n) + rest == [(0x80 + Lead(v, n)) as byte] + (low + rest);
      VlqStep(Lead(v, n), low + rest, acc, left);
      ValueStep(acc, n, v);
    }
  }

  lemma LastByteRead(v: nat, acc: nat, left: nat, rest: seq<byte>)
    requires left > 0 && v < Power(1)
    ensures ParseVlq(Vlq(v, 1) + rest, acc, left) == Got(Value(acc, 1, v), rest)
  {
    assert Power(1) == 128 && ([v as byte] + rest)[1..] == rest;
  }

  lemma VlqSplit(v: nat, n: nat)
    requires n >= 2 && v < Power(n)
    ensures Lead(v, n) < 128 && Low(v, n) < Power(n - 1)
    ensures Vlq(v, n) == [(0x80 + Lead(v, n)) as byte] + Vlq(Low(v, n), n - 1)
  {
    LeadDigit(v, n);
  }

  lemma VlqStep(d: nat, s: seq<byte>, acc: nat, left: nat)
    requires d < 128 && left > 0
    ensures ParseVlq([(0x80 + d) as byte] + s, acc, left) == ParseVlq(s, acc * 128 + d, left - 1)
  {
    TopBit(d);
    assert ([(0x80 + d) as byte] + s)[1..] == s;
  }

  lemma TopBit(d: nat)
    requires d < 128
    ensures (0x80 + d) % 128 == d
  {}

  lemma Reassemble(acc: nat, v: nat, p: nat)
    requires p > 0
    ensures (acc * 128 + v / p) * p + v % p == acc * (128 * p) + v
  {
    Regroup(acc, v / p, p, v % p);
  }

  lemma Regroup(acc: nat, d: nat, p: nat, low: nat)
    ensures (acc * 128 + d) * p + low == acc * (128 * p) + (d * p + low)
  {}

  /** Whatever is read as a quantity is written that way, in at most four bytes. */
  lemma {:induction false} VlqWritten(s: seq<byte>, acc: nat, left: nat) returns (v: nat, n: nat)
    requires ParseVlq(s, acc, left).Got?
    ensures 1 <= n <= left && v < Power(n)
    ensures ParseVlq(s, acc, left).value == acc * Power(n) + v
    ensures s == Vlq(v, n) + ParseVlq(s, acc, left).rest
    decreases left
  {
    hide Vlq, Power;
    var d := (s[0] as int) % 128;
    assert s == [s[0]] + s[1..];
    if s[0] < 0x80 {
      v, n := d, 1;
      OneByte(d);
    } else {
      var low, m := VlqWritten(s[1..], acc * 128 + d, left - 1);
      n := m + 1;
      v := d * Power(m) + low;
      VlqJoin(d, low, m);
      Regroup(acc, d, Power(m), low);
    }
  }

  lemma OneByte(d: nat)
    requires d < 128
    ensures Power(1) == 128 && Vlq(d, 1) == [d as byte]
  {
    assert Power(1) == 128;
  }

  lemma VlqJoin(d: nat, low: nat, m: nat)
    requires d < 128 && m >= 1 && low < Power(m)
    ensures var v := d * Power(m) + low;
      Power(m + 1) == 128 * Power(m) && v < Power(m + 1) && Vlq(v, m + 1) == [(0x80 + d) as byte] + Vlq(low, m)
  {
    hide Vlq;
    var v := d * Power(m) + low;
    MulMonotone(d, 127, Power(m));
    DivModUnique(v, Power(m), d, low);
    VlqSplit(v, m + 1);
  }

  /** Four bytes hold every quantity below 2^28. */
  lemma FourBytes()
    ensures Power(4) == 0x1000_0000
  {
    assert Power(1) == 128 && Power(2) == 0x4000 && Power(3) == 0x20_0000;
  }

  /** The fewest bytes for a quantity. */
  function Shortest(v: nat): (n: nat)
    requires v < 0x1000_0000
    ensures 1 <= n <= 4 && v < Power(n)
  {
    FourBytes();
    if v < 0x80 then 1 else if v < 0x4000 then 2 else if v < 0x20_0000 then 3 else 4
  }

  /** No shorter encoding exists. */
  lemma ShortestIsShortest(v: nat, n: nat)
    requires v < 0x1000_0000 && n >= 1 && v < Power(n)
    ensures Shortest(v) <= n
  {
    FourBytes();
    if n == 1 {} else if n == 2 {} else if n == 3 {}
  }

  // ------------------------------------------------------------------
  // Events
  // ------------------------------------------------------------------

  const MIDI_EVENT_SYSEX: nat := 0xf0
  const MIDI_EVENT_SYSEX_SPLIT: nat := 0xf7
  const MIDI_EVENT_META: nat := 0xff
  const MIDI_META_END_OF_TRACK: nat := 0x2f

  /** What follows the time of an event; the second parameter exists for some event types only. */
  datatype Body =
    OneParam(eventType: nat, channel: nat, param1: byte)
    | TwoParams(eventType: nat, channel: nat, param1: byte, param2: byte)
    | SysEx(eventType: nat, data: seq<byte>)
    | Meta(metaType: byte, data: seq<byte>)

  /** midi_event_t. */
  datatype Event = Event(deltaTime: nat, body: Body)

  predicate TwoParamType(eventType: nat) {
    eventType in {0x80, 0x90, 0xa0, 0xb0, 0xe0}
  }

  predicate OneParamType(eventType: nat) {
    eventType == 0xc0 || eventType == 0xd0
  }

  /** The event types that the reader can tell apart, and lengths that a quantity can hold. */
  predicate ValidBody(b: Body) {
    match b
    case OneParam(eventType, channel, _) => OneParamType(eventType) && channel < 16
    case TwoParams(eventType, channel, _, _) => TwoParamType(eventType) && channel < 16
    case SysEx(eventType, data) => (eventType == MIDI_EVENT_SYSEX || eventType == MIDI_EVENT_SYSEX_SPLIT)
      && |data| < 0x1000_0000
    case Meta(_, data) => |data| < 0x1000_0000
  }

  predicate ValidEvent(e: Event) { e.deltaTime < 0x1000_0000 && ValidBody(e.body) }

  /** The status byte of an event. */
  function Status(b: Body): (s: byte)
    requires ValidBody(b)
    ensures s >= 0x80
  {
    match b
    case OneParam(eventType, channel, _) => (eventType + channel) as byte
    case TwoParams(eventType, channel, _, _) => (eventType + channel) as byte
    case SysEx(eventType, _) => eventType as byte
    case Meta(_, _) => 0xff
  }

  /** The choices a writer has: the lengths of the quantities, and whether the status byte is left out. */
  datatype Choice = Choice(timeBytes: nat, lengthBytes: nat, running: bool)

  /** The bytes after the status byte. */
  function Payload(b: Body, lengthBytes: nat): seq<byte>
    requires b.SysEx? || b.Meta? ==> 1 <= lengthBytes <= 4 && |b.data| < Power(lengthBytes)
  {
    match b
    case OneParam(_, _, param1) => [param1]
    case TwoParams(_, _, param1, param2) => [param1, param2]
    case SysEx(_, data) => Vlq(|data|, lengthBytes) + data
    case Meta(metaType, data) => [metaType] + (Vlq(|data|, lengthBytes) + data)
  }

  /** A status byte can be left out when it is the last one and what follows does not look like one. */
  predicate Legal(e: Event, last: byte, c: Choice)
    requires ValidEvent(e)
  {
    && 1 <= c.timeBytes <= 4 && e.deltaTime < Power(c.timeBytes)
    && (e.body.SysEx? || e.body.Meta? ==> 1 <= c.lengthBytes <= 4 && |e.body.data| < Power(c.lengthBytes))
    && (c.running ==> Status(e.body) == last && Payload(e.body, c.lengthBytes)[0] < 0x80)
  }

  function Encode(e: Event, last: byte, c: Choice): seq<byte>
    requires ValidEvent(e) && Legal(e, last, c)
  {
    Vlq(e.deltaTime, c.timeBytes) + ((if c.running then [] else [Status(e.body)]) + Payload(e.body, c.lengthBytes))
  }

  /** ReadByteSequence. */
  function ParseBytes(s: seq<byte>, n: nat): Parsed<seq<byte>> {
    if n <= |s| then Got(s[..n], s[n..]) else Fail
  }

  function ParseChannel(s: seq<byte>, status: byte, two: bool): Parsed<Body> {
    var eventType, channel := (status as int) / 16 * 16, (status as int) % 16;
    if two then (if |s| >= 2 then Got(TwoParams(eventType, channel, s[0], s[1]), s[2..]) else Fail)
    else if |s| >= 1 then Got(OneParam(eventType, channel, s[0]), s[1..])
    else Fail
  }

  /** The length and the bytes of a SysEx or meta event. */
  function ParseData(s: seq<byte>): Parsed<seq<byte>> {
    match ParseVlq(s, 0, 4)
    case Fail => Fail
    case Got(length, rest) => ParseBytes(rest, length)
  }

  function ParseBody(s: seq<byte>, status: byte): Parsed<Body> {
    var high := (status as int) / 16 * 16;
    if TwoParamType(high) then ParseChannel(s, status, true)
    else if OneParamType(high) then ParseChannel(s, status, false)
    else if status == 0xf0 || status == 0xf7 then
      match ParseData(s)
      case Fail => Fail
      case Got(data, rest) => Got(SysEx(status as int, data), rest)
    else if status == 0xff then
      if s == [] then Fail
      else
        match ParseData(s[1..])
        case Fail => Fail
        case Got(data, rest) => Got(Meta(s[0], data), rest)
    else Fail
  }

  /**
    The status bytes of the standard: 8n to Bn and En are followed by two bytes, Cn and Dn by one, F0 and F7 by a length
    and data, FF by a type, a length and data; no other byte begins an event.
   */
  lemma StatusBytes(s: seq<byte>, status: byte)
    ensures ParseBody(s, status) ==
      if 0x80 <= status < 0xc0 || 0xe0 <= status < 0xf0 then
        if |s| < 2 then Fail
        else Got(TwoParams(status as int - status as int % 16, status as int % 16, s[0], s[1]), s[2..])
      else if 0xc0 <= status < 0xe0 then
        if |s| < 1 then Fail
        else Got(OneParam(status as int - status as int % 16, status as int % 16, s[0]), s[1..])
      else if status == 0xf0 || status == 0xf7 then
        match ParseData(s) case Fail => Fail case Got(data, rest) => Got(SysEx(status as int, data), rest)
      else if status == 0xff && s != [] then
        match ParseData(s[1..]) case Fail => Fail case Got(data, rest) => Got(Meta(s[0], data), rest)
      else Fail
  {
    hide ParseData;
    HighDigit(status);
  }

  lemma HighDigit(status: byte)
    ensures (status as int) / 16 * 16 == status as int - status as int % 16
    ensures TwoParamType((status as int) / 16 * 16) <==> 0x80 <= status < 0xc0 || 0xe0 <= status < 0xf0
    ensures OneParamType((status as int) / 16 * 16) <==> 0xc0 <= status < 0xe0
  {
    var h := (status as int) / 16;
    assert status as int == 16 * h + status as int % 16;
    assert h * 16 == 0x80 <==> h == 8;
    assert h * 16 == 0x90 <==> h == 9;
    assert h * 16 == 0xa0 <==> h == 10;
    assert h * 16 == 0xb0 <==> h == 11;
    assert h * 16 == 0xc0 <==> h == 12;
    assert h * 16 == 0xd0 <==> h == 13;
    assert h * 16 == 0xe0 <==> h == 14;
  }

  /** Three bytes end a track: FF 2F 00. */
  lemma TrackEnd(rest: seq<byte>)
    ensures ParseEvents([0x00, 0xff, 0x2f, 0x00] + rest, 0) == Got([Event(0, Meta(0x2f, []))], rest)
  {
    var s: seq<byte> := [0x00, 0xff, 0x2f, 0x00] + rest;
    assert s[1..] == [0xff, 0x2f, 0x00] + rest;
    assert ParseVlq(s, 0, 4) == Got(0, s[1..]);
    assert s[1..][1..] == [0x2f, 0x00] + rest && s[1..][1..][1..] == [0x00] + rest;
    var data: seq<byte> := [0x00] + rest;
    assert ParseVlq(data, 0, 4) == Got(0, data[1..]) && data[1..] == rest;
    assert ParseBytes(rest, 0) == Got([], rest) by { assert rest[..0] == [] && rest[0..] == rest; }
    assert ParseData(data) == Got([], rest);
    StatusBytes(s[1..][1..], 0xff);
    assert ParseEvent(s, 0) == Got((Event(0, Meta(0x2f, [])), 0xff), rest);
  }

  /** ReadEvent: an event and the status byte to remember. */
  function ParseEvent(s: seq<byte>, last: byte): Parsed<(Event, byte)> {
    match ParseVlq(s, 0, 4)
    case Fail => Fail
    case Got(deltaTime, tail) =>
      if tail == [] then Fail
      else
        var running := tail[0] < 0x80;
        var status := if running then last else tail[0];
        match ParseBody(if running then tail else tail[1..], status)
        case Fail => Fail
        case Got(body, rest) => Got((Event(deltaTime, body), status), rest)
  }

  lemma DataRead(data: seq<byte>, n: nat, rest: seq<byte>)
    requires 1 <= n <= 4 && |data| < Power(n)
    ensures ParseData(Vlq(|data|, n) + data + rest) == Got(data, rest)
  {
    VlqRead(|data|, n, 4, data + rest);
    assert Vlq(|data|, n) + data + rest == Vlq(|data|, n) + (data + rest);
    assert (data + rest)[..|data|] == data && (data + rest)[|data|..] == rest;
  }

  /** The reader of a status finds the body that was written under it. */
  lemma BodyRead(b: Body, n: nat, rest: seq<byte>)
    requires ValidBody(b) && (b.SysEx? || b.Meta? ==> 1 <= n <= 4 && |b.data| < Power(n))
    ensures ParseBody(Payload(b, n) + rest, Status(b)) == Got(b, rest)
  {
    hide ParseData, Vlq;
    match b
    case OneParam(eventType, channel, p) =>
      StatusParts(eventType, channel);
      assert ([p] + rest)[1..] == rest;
    case TwoParams(eventType, channel, p, q) =>
      StatusParts(eventType, channel);
      assert ([p, q] + rest)[2..] == rest;
    case SysEx(_, data) =>
      DataRead(data, n, rest);
    case Meta(metaType, data) =>
      DataRead(data, n, rest);
      assert ([metaType] + (Vlq(|data|, n) + data) + rest)[1..] == Vlq(|data|, n) + data + rest;
  }

  lemma StatusParts(eventType: nat, channel: nat)
    requires TwoParamType(eventType) || OneParamType(eventType)
    requires channel < 16
    ensures (eventType + channel) / 16 * 16 == eventType && (eventType + channel) % 16 == channel
  {
    DivModUnique(eventType + channel, 16, eventType / 16, channel);
  }

  lemma PayloadNotEmpty(b: Body, n: nat)
    requires b.SysEx? || b.Meta? ==> 1 <= n <= 4 && |b.data| < Power(n)
    ensures |Payload(b, n)| > 0
  {}

  /** An event reads back under every legal choice of its writer. */
  lemma EventRead(e: Event, last: byte, c: Choice, rest: seq<byte>)
    requires ValidEvent(e) && Legal(e, last, c)
    ensures ParseEvent(Encode(e, last, c) + rest, last) == Got((e, Status(e.body)), rest)
  {
    hide ParseBody, ParseVlq, Vlq, Power, Payload, Status;
    PayloadNotEmpty(e.body, c.lengthBytes);
    var payload := Payload(e.body, c.lengthBytes);
    var tail := (if c.running then [] else [Status(e.body)]) + payload + rest;
    assert Encode(e, last, c) + rest == Vlq(e.deltaTime, c.timeBytes) + tail;
    VlqRead(e.deltaTime, c.timeBytes, 4, tail);
    BodyRead(e.body, c.lengthBytes, rest);
    assert c.running ==> tail == payload + rest && tail[0] == payload[0];
    assert !c.running ==> tail[0] == Status(e.body) && tail[1..] == payload + rest;
  }

  lemma DataWritten(s: seq<byte>) returns (n: nat)
    requires ParseData(s).Got?
    ensures var data := ParseData(s).value;
      1 <= n <= 4 && |data| < Power(n) && |data| < 0x1000_0000 && s == Vlq(|data|, n) + data + ParseData(s).rest
  {
    hide Power, Vlq;
    var v, m := VlqWritten(s, 0, 4);
    n := m;
    PowerGrows(n);
    var tail := ParseVlq(s, 0, 4).rest;
    assert tail == tail[..v] + tail[v..];
  }

  lemma PowerGrows(n: nat)
    requires n <= 4
    ensures Power(n) <= 0x1000_0000
  {
    FourBytes();
    if n == 0 {} else if n == 1 {} else if n == 2 {} else if n == 3 {} else {}
  }

  lemma BodyWritten(s: seq<byte>, status: byte) returns (n: nat)
    requires ParseBody(s, status).Got?
    ensures var b := ParseBody(s, status).value;
      && ValidBody(b) && Status(b) == status && (b.SysEx? || b.Meta? ==> 1 <= n <= 4 && |b.data| < Power(n))
      && s == Payload(b, n) + ParseBody(s, status).rest
  {
    hide ParseData, Vlq, Power;
    var b := ParseBody(s, status).value;
    n := 1;
    match b
    case OneParam(_, _, _) =>
    case TwoParams(_, _, _, _) =>
    case SysEx(_, data) => n := DataWritten(s);
    case Meta(_, data) =>
      n := DataWritten(s[1..]);
      assert s == [s[0]] + s[1..];
  }

  /** No event has a status below 0x80; so the first event of a track has one of its own. */
  lemma StatusNeeded(s: seq<byte>, status: byte)
    ensures ParseBody(s, status).Got? ==> status >= 0x80
  {
    hide ParseData, ParseChannel;
    var high := (status as int) / 16 * 16;
    assert status < 0x80 ==> high < 0x80;
  }

  /** Whatever the reader takes for an event is a legal writing of that event: it accepts nothing else. */
  lemma EventWritten(s: seq<byte>, last: byte) returns (c: Choice)
    requires ParseEvent(s, last).Got?
    ensures var (e, status) := ParseEvent(s, last).value;
      ValidEvent(e) && status == Status(e.body) && Legal(e, last, c) && s == Encode(e, last, c)
        + ParseEvent(s, last).rest
  {
    hide ParseBody, ParseVlq, Vlq, Power, Payload, Status;
    var v, m := VlqWritten(s, 0, 4);
    PowerGrows(m);
    var tail := ParseVlq(s, 0, 4).rest;
    var running := tail[0] < 0x80;
    var status := if running then last else tail[0];
    var after := if running then tail else tail[1..];
    StatusNeeded(after, status);
    var n := BodyWritten(after, status);
    c := Choice(m, n, running);
    var e := ParseEvent(s, last).value.0;
    var rest := ParseEvent(s, last).rest;
    assert !running ==> tail == [tail[0]] + after;
    assert tail == (if running then [] else [status]) + Payload(e.body, n) + rest;
    PayloadNotEmpty(e.body, n);
    assert after[0] == Payload(e.body, n)[0];
  }

  // ------------------------------------------------------------------
  // Tracks
  // ------------------------------------------------------------------

  predicate EndOfTrack(e: Event) {
    e.body.Meta? && e.body.metaType as int == MIDI_META_END_OF_TRACK
  }

  /** The events of a track up to the end of track. */
  function ParseEvents(s: seq<byte>, last: byte): (r: Parsed<seq<Event>>)
    decreases |s|
  {
    match ParseEvent(s, last)
    case Fail => Fail
    case Got((e, status), rest) =>
      if EndOfTrack(e) then Got([e], rest)
      else if |rest| >= |s| then Fail // every event has a byte
      else Prepend([e], ParseEvents(rest, status))
  }

  function Prepend(events: seq<Event>, r: Parsed<seq<Event>>): Parsed<seq<Event>> {
    match r
    case Fail => Fail
    case Got(more, rest) => Got(events + more, rest)
  }

  lemma PrependMore(events: seq<Event>, e: Event, r: Parsed<seq<Event>>)
    ensures Prepend(events, Prepend([e], r)) == Prepend(events + [e], r)
  {
    if r.Got? {
      assert events + ([e] + r.value) == events + [e] + r.value;
    }
  }

  lemma PrependNothing(r: Parsed<seq<Event>>)
    ensures Prepend([], r) == r
  {
    if r.Got? {
      assert [] + r.value == r.value;
    }
  }

  lemma Slice(s: seq<byte>, n: nat, i: nat, j: nat)
    requires i <= j <= n <= |s|
    ensures s[..n][i..j] == s[i..j]
  {}

  lemma EventHasByte(s: seq<byte>, last: byte)
    ensures ParseEvent(s, last).Got? ==> |ParseEvent(s, last).rest| < |s|
  {}

  /** A well-formed list of events: the last one, and only that, is the end of the track. */
  predicate ValidTrack(events: seq<Event>) {
    && |events| > 0
    && (forall i | 0 <= i < |events| :: ValidEvent(events[i]))
    && (forall i | 0 <= i < |events| :: EndOfTrack(events[i]) <==> i == |events| - 1)
  }

  predicate LegalAll(events: seq<Event>, last: byte, choices: seq<Choice>)
    requires |choices| == |events| && forall i | 0 <= i < |events| :: ValidEvent(events[i])
    decreases |events|
  {
    events != [] ==> Legal(events[0], last, choices[0]) && LegalAll(events[1..], Status(events[0].body), choices[1..])
  }

  function EncodeAll(events: seq<Event>, last: byte, choices: seq<Choice>): seq<byte>
    requires |choices| == |events| && forall i | 0 <= i < |events| :: ValidEvent(events[i])
    requires LegalAll(events, last, choices)
    decreases |events|
  {
    if events == [] then []
    else Encode(events[0], last, choices[0]) + EncodeAll(events[1..], Status(events[0].body), choices[1..])
  }

  /** A track reads back under every legal use of running status, and exactly its bytes are read. */
  lemma {:induction false} EventsRead(events: seq<Event>, last: byte, choices: seq<Choice>, rest: seq<byte>)
    requires ValidTrack(events) && |choices| == |events| && LegalAll(events, last, choices)
    ensures ParseEvents(EncodeAll(events, last, choices) + rest, last) == Got(events, rest)
    decreases |events|
  {
    hide ParseEvent, Encode, ValidBody, Legal, Status;
    var e, status := events[0], Status(events[0].body);
    var more := EncodeAll(events[1..], status, choices[1..]);
    var s := EncodeAll(events, last, choices) + rest;
    assert s == Encode(e, last, choices[0]) + (more + rest);
    EventRead(e, last, choices[0], more + rest);
    EventHasByte(s, last);
    if |events| == 1 {
      assert events == [e];
    } else {
      EventsRead(events[1..], status, choices[1..], rest);
      assert events == [e] + events[1..];
    }
  }

  /** Whatever the reader takes for the events of a track is a legal writing of them. */
  lemma {:induction false} EventsWritten(s: seq<byte>, last: byte) returns (choices: seq<Choice>)
    requires ParseEvents(s, last).Got?
    ensures var events := ParseEvents(s, last).value;
      && ValidTrack(events) && |choices| == |events| && LegalAll(events, last, choices)
      && s == EncodeAll(events, last, choices) + ParseEvents(s, last).rest
    decreases |s|
  {
    hide ParseEvent, Encode, Legal, EndOfTrack, ValidBody, Status;
    EventHasByte(s, last);
    var c := EventWritten(s, last);
    var (e, status) := ParseEvent(s, last).value;
    var tail := ParseEvent(s, last).rest;
    if EndOfTrack(e) {
      choices := [c];
      assert [c][1..] == [] && [e][1..] == [];
      assert EncodeAll([e], last, [c]) == Encode(e, last, c) + [];
    } else {
      var more := EventsWritten(tail, status);
      var others := ParseEvents(tail, status).value;
      choices := [c] + more;
      var events := [e] + others;
      assert events[1..] == others && choices[1..] == more;
      TrackGrows(e, others);
      assert s == Encode(e, last, c) + (EncodeAll(others, status, more) + ParseEvents(tail, status).rest);
    }
  }

  lemma TrackGrows(e: Event, others: seq<Event>)
    requires ValidEvent(e) && !EndOfTrack(e) && ValidTrack(others)
    ensures ValidTrack([e] + others)
  {
    hide ValidEvent, EndOfTrack;
    var events := [e] + others;
    forall i | 0 <= i < |events| ensures ValidEvent(events[i]) && (EndOfTrack(events[i]) <==> i == |events| - 1) {
      if i > 0 { assert events[i] == others[i - 1]; }
    }
  }

  const TRACK_CHUNK_ID: seq<byte> := [0x4d, 0x54, 0x72, 0x6b]
  const HEADER_CHUNK_ID: seq<byte> := [0x4d, 0x54, 0x68, 0x64]

  datatype Track = Track(dataLen: nat, events: seq<Event>)

  function BigEndian(s: seq<byte>): nat {
    if s == [] then 0 else BigEndian(s[..|s| - 1]) * 0x100 + s[|s| - 1] as int
  }

  /** ReadTrack. */
  function ParseTrack(s: seq<byte>): Parsed<Track> {
    if |s| < 8 || s[..4] != TRACK_CHUNK_ID then Fail
    else
      match ParseEvents(s[8..], 0)
      case Fail => Fail
      case Got(events, rest) => Got(Track(BigEndian(s[4..8]), events), rest)
  }

  function EncodeTrack(size: seq<byte>, events: seq<Event>, choices: seq<Choice>): seq<byte>
    requires ValidTrack(events) && |choices| == |events| && LegalAll(events, 0, choices)
  {
    TRACK_CHUNK_ID + size + EncodeAll(events, 0, choices)
  }

  lemma ChunkParts(id: seq<byte>, size: seq<byte>, all: seq<byte>, rest: seq<byte>)
    requires |id| == 4 && |size| == 4
    ensures var s := id + size + all + rest; |s| >= 8 && s[..4] == id && s[4..8] == size && s[8..] == all + rest
  {}

  /** Reading a written track gives back its events. */
  lemma TrackRead(size: seq<byte>, events: seq<Event>, choices: seq<Choice>, rest: seq<byte>)
    requires |size| == 4 && ValidTrack(events) && |choices| == |events| && LegalAll(events, 0, choices)
    ensures ParseTrack(EncodeTrack(size, events, choices) + rest) == Got(Track(BigEndian(size), events), rest)
  {
    hide ParseEvents, EncodeAll, LegalAll, ValidEvent, EndOfTrack, BigEndian;
    var all := EncodeAll(events, 0, choices);
    ChunkParts(TRACK_CHUNK_ID, size, all, rest);
    EventsRead(events, 0, choices, rest);
  }

  /** Whatever is read as a track is a written track. */
  lemma TrackWritten(s: seq<byte>) returns (size: seq<byte>, choices: seq<Choice>)
    requires ParseTrack(s).Got?
    ensures var track := ParseTrack(s).value;
      && |size| == 4 && track.dataLen == BigEndian(size)
      && ValidTrack(track.events) && |choices| == |track.events| && LegalAll(track.events, 0, choices)
      && s == EncodeTrack(size, track.events, choices) + ParseTrack(s).rest
  {
    hide ParseEvents, EncodeAll, LegalAll, ValidEvent, EndOfTrack, BigEndian;
    size := s[4..8];
    choices := EventsWritten(s[8..], 0);
    var all := EncodeAll(ParseTrack(s).value.events, 0, choices);
    assert s == s[..4] + s[4..8] + s[8..];
    assert s == TRACK_CHUNK_ID + size + all + ParseTrack(s).rest;
  }

  // ------------------------------------------------------------------
  // Files
  // ------------------------------------------------------------------

  datatype File = File(numTracks: nat, timeDivision: nat, tracks: seq<Track>)

  function ParseTracks(s: seq<byte>, n: nat): Parsed<seq<Track>>
    decreases n
  {
    if n == 0 then Got([], s)
    else
      match ParseTrack(s)
      case Fail => Fail
      case Got(track, rest) =>
        match ParseTracks(rest, n - 1)
        case Fail => Fail
        case Got(tracks, last) => Got([track] + tracks, last)
  }

  /** ReadFileHeader: the number of tracks and the time division. */
  function ParseHeader(s: seq<byte>): Parsed<(nat, nat)> {
    if |s| < 14 || s[..4] != HEADER_CHUNK_ID || BigEndian(s[4..8]) != 6 then Fail
    else if BigEndian(s[8..10]) > 1 || BigEndian(s[10..12]) < 1 then Fail
    else Got((BigEndian(s[10..12]), BigEndian(s[12..14])), s[14..])
  }

  /** MIDI_LoadFile. */
  function ParseFile(s: seq<byte>): Parsed<File> {
    match ParseHeader(s)
    case Fail => Fail
    case Got((numTracks, timeDivision), rest) =>
      match ParseTracks(rest, numTracks)
      case Fail => Fail
      case Got(tracks, last) => Got(File(numTracks, timeDivision, tracks), last)
  }

  /** A track with the choices its writer made. */
  datatype Written = Written(size: seq<byte>, events: seq<Event>, choices: seq<Choice>)

  predicate ValidWritten(w: Written) {
    |w.size| == 4 && ValidTrack(w.events) && |w.choices| == |w.events| && LegalAll(w.events, 0, w.choices)
  }

  function EncodeTracks(ws: seq<Written>): seq<byte>
    requires forall i | 0 <= i < |ws| :: ValidWritten(ws[i])
  {
    if ws == [] then []
    else
      assert ValidWritten(ws[0]);
      EncodeTrack(ws[0].size, ws[0].events, ws[0].choices) + EncodeTracks(ws[1..])
  }

  function TracksOf(ws: seq<Written>): seq<Track> {
    if ws == [] then [] else [Track(BigEndian(ws[0].size), ws[0].events)] + TracksOf(ws[1..])
  }

  lemma {:induction false} TracksRead(ws: seq<Written>, rest: seq<byte>)
    requires forall i | 0 <= i < |ws| :: ValidWritten(ws[i])
    ensures ParseTracks(EncodeTracks(ws) + rest, |ws|) == Got(TracksOf(ws), rest)
  {
    hide ParseTrack, EncodeTrack, BigEndian;
    if ws == [] {
      assert EncodeTracks(ws) + rest == rest;
    } else {
      var first := EncodeTrack(ws[0].size, ws[0].events, ws[0].choices);
      assert ValidWritten(ws[0]);
      assert EncodeTracks(ws) + rest == first + (EncodeTracks(ws[1..]) + rest);
      TrackRead(ws[0].size, ws[0].events, ws[0].choices, EncodeTracks(ws[1..]) + rest);
      TracksRead(ws[1..], rest);
    }
  }

  /** Two bytes, the high one first. */
  function Word(x: nat): seq<byte>
    requires x < 0x1_0000
  {
    [(x / 0x100) as byte, (x % 0x100) as byte]
  }

  function EncodeHeader(format: nat, numTracks: nat, timeDivision: nat): seq<byte>
    requires format <= 1 && numTracks < 0x1_0000 && timeDivision < 0x1_0000
  {
    HEADER_CHUNK_ID + [0, 0, 0, 6] + Word(format) + Word(numTracks) + Word(timeDivision)
  }

  lemma WordRead(x: nat)
    requires x < 0x1_0000
    ensures BigEndian(Word(x)) == x
  {
    var w := Word(x);
    assert w[..1] == [w[0]] && [w[0]][..0] == [];
    assert BigEndian([w[0]]) == w[0] as int;
  }

  lemma HeaderRead(format: nat, numTracks: nat, timeDivision: nat, rest: seq<byte>)
    requires format <= 1 && 1 <= numTracks < 0x1_0000 && timeDivision < 0x1_0000
    ensures ParseHeader(EncodeHeader(format, numTracks, timeDivision) + rest) == Got((numTracks, timeDivision), rest)
  {
    hide BigEndian, Word;
    WordRead(format);
    WordRead(numTracks);
    WordRead(timeDivision);
    SixRead();
    WordLength(format);
    WordLength(numTracks);
    WordLength(timeDivision);
    HeaderParts(HEADER_CHUNK_ID, [0, 0, 0, 6], Word(format), Word(numTracks), Word(timeDivision), rest);
  }

  lemma WordLength(x: nat)
    requires x < 0x1_0000
    ensures |Word(x)| == 2
  {}

  lemma SixRead()
    ensures BigEndian([0, 0, 0, 6]) == 6
  {
    var s: seq<byte> := [0, 0, 0, 6];
    assert s[..3] == [0, 0, 0] && s[..3][..2] == [0, 0] && [0 as byte, 0][..1] == [0] && [0 as byte][..0] == [];
    assert BigEndian([0]) == 0 && BigEndian([0, 0]) == 0 && BigEndian([0, 0, 0]) == 0;
  }

  lemma HeaderParts(id: seq<byte>, six: seq<byte>, f: seq<byte>, n: seq<byte>, t: seq<byte>, rest: seq<byte>)
    requires |id| == |six| == 4 && |f| == |n| == |t| == 2
    ensures var s := id + six + f + n + t + rest;
      && |s| >= 14 && s[..4] == id && s[4..8] == six && s[8..10] == f && s[10..12] == n && s[12..14] == t
      && s[14..] == rest
  {}

  /** A whole file reads back: its time division, and the events of all its tracks. */
  lemma FileRead(format: nat, timeDivision: nat, ws: seq<Written>, rest: seq<byte>)
    requires format <= 1 && timeDivision < 0x1_0000 && 1 <= |ws| < 0x1_0000
    requires forall i | 0 <= i < |ws| :: ValidWritten(ws[i])
    ensures ParseFile(EncodeHeader(format, |ws|, timeDivision) + EncodeTracks(ws) + rest)
      == Got(File(|ws|, timeDivision, TracksOf(ws)), rest)
  {
    hide ParseHeader, EncodeHeader, ParseTracks, EncodeTracks;
    var header := EncodeHeader(format, |ws|, timeDivision);
    assert header + EncodeTracks(ws) + rest == header + (EncodeTracks(ws) + rest);
    HeaderRead(format, |ws|, timeDivision, EncodeTracks(ws) + rest);
    TracksRead(ws, rest);
  }

  lemma {:induction false} TracksWritten(s: seq<byte>, n: nat) returns (ws: seq<Written>)
    requires ParseTracks(s, n).Got?
    ensures |ws| == n && (forall i | 0 <= i < n :: ValidWritten(ws[i]))
    ensures TracksOf(ws) == ParseTracks(s, n).value && s == EncodeTracks(ws) + ParseTracks(s, n).rest
    decreases n
  {
    hide ParseTrack, EncodeTrack, BigEndian, LegalAll, ValidTrack;
    ws := [];
    if n > 0 {
      var size, choices := TrackWritten(s);
      var track, tail := ParseTrack(s).value, ParseTrack(s).rest;
      var more := TracksWritten(tail, n - 1);
      var w := Written(size, track.events, choices);
      assert ValidWritten(w);
      ws := [w] + more;
      assert ws[1..] == more;
      assert s == EncodeTrack(size, track.events, choices) + (EncodeTracks(more) + ParseTracks(tail, n - 1).rest);
    }
  }

  lemma TwoBytes(s: seq<byte>)
    requires |s| == 2
    ensures BigEndian(s) == s[0] as int * 0x100 + s[1] as int < 0x1_0000 && Word(BigEndian(s)) == s
  {
    assert s[..1] == [s[0]] && [s[0]][..0] == [];
    assert BigEndian([s[0]]) == s[0] as int;
    DivModUnique(BigEndian(s), 0x100, s[0] as int, s[1] as int);
  }

  lemma SixBytes(s: seq<byte>)
    requires |s| == 4 && BigEndian(s) == 6
    ensures s == [0, 0, 0, 6]
  {
    assert s[..3][..2] == s[..2] && s[..2][..1] == s[..1] && s[..1][..0] == [];
    assert BigEndian(s[..1]) == s[0] as int;
    assert BigEndian(s[..2]) == BigEndian(s[..1]) * 0x100 + s[1] as int;
    assert BigEndian(s[..3]) == BigEndian(s[..2]) * 0x100 + s[2] as int;
  }

  /** Whatever is read as a file is a written file: the reader accepts nothing else. */
  lemma FileWritten(s: seq<byte>) returns (format: nat, ws: seq<Written>)
    requires ParseFile(s).Got?
    ensures var file := ParseFile(s).value;
      && format <= 1 && 1 <= file.numTracks == |ws| < 0x1_0000 && file.timeDivision < 0x1_0000
      && (forall i | 0 <= i < |ws| :: ValidWritten(ws[i])) && TracksOf(ws) == file.tracks
      && s == EncodeHeader(format, |ws|, file.timeDivision) + EncodeTracks(ws) + ParseFile(s).rest
  {
    hide ParseTracks, EncodeTracks, TracksOf, ValidWritten, BigEndian, Word;
    format := BigEndian(s[8..10]);
    TwoBytes(s[8..10]);
    TwoBytes(s[10..12]);
    TwoBytes(s[12..14]);
    SixBytes(s[4..8]);
    ws := TracksWritten(s[14..], BigEndian(s[10..12]));
    assert s == s[..4] + s[4..8] + s[8..10] + s[10..12] + s[12..14] + s[14..];
    var header := EncodeHeader(format, |ws|, ParseFile(s).value.timeDivision);
    assert header == s[..4] + s[4..8] + s[8..10] + s[10..12] + s[12..14];
    assert s == header + (EncodeTracks(ws) + ParseFile(s).rest);
  }

  // ------------------------------------------------------------------
  // The time division
  // ------------------------------------------------------------------

  /** MIDI_GetFileTimeDivision on the header's 16 bits. */
  function TimeDivision(word: nat): int
    requires word < 0x1_0000
  {
    var result := if word < 0x8000 then word else word - 0x1_0000;
    if result < 0 then -Quotient(result, 256) * (word % 0x100) else result
  }

  /** What the format says: ticks in a quarter note, or minus the frames in a second and the ticks in a frame. */
  function FormatDivision(word: nat): int
    requires word < 0x1_0000
  {
    if word < 0x8000 then word else (0x100 - word / 0x100) * (word % 0x100)
  }

  /**
    The division towards zero loses a frame: the result is right just when the time is not in frames, or has no ticks.
   */
  lemma TimeDivisionRight(word: nat)
    requires word < 0x1_0000
    ensures TimeDivision(word) == FormatDivision(word) <==> word < 0x8000 || word % 0x100 == 0
  {
    if word >= 0x8000 && word % 0x100 != 0 {
      var frames, ticks := 0x100 - word / 0x100, word % 0x100;
      FrameLost(word);
      MulSmaller(frames, ticks);
    }
  }

  lemma FrameLost(word: nat)
    requires 0x8000 <= word < 0x1_0000 && word % 0x100 != 0
    ensures -Quotient(word - 0x1_0000, 256) == 0x100 - word / 0x100 - 1
  {
    var frames, ticks := 0x100 - word / 0x100, word % 0x100;
    assert 0x1_0000 - word == frames * 0x100 - ticks;
    DivModUnique(0x1_0000 - word, 0x100, frames - 1, 0x100 - ticks);
  }

  lemma MulSmaller(frames: int, ticks: int)
    requires ticks > 0
    ensures (frames - 1) * ticks < frames * ticks
  {}

  /** 25 frames of 40 ticks in a second are taken for 24. */
  lemma FramesExample()
    ensures TimeDivision(0xe728) == 960 && FormatDivision(0xe728) == 1000
  {}

  function PrependTracks(tracks: seq<Track>, r: Parsed<seq<Track>>): Parsed<seq<Track>> {
    match r
    case Fail => Fail
    case Got(more, rest) => Got(tracks + more, rest)
  }

  lemma TracksPrependMore(tracks: seq<Track>, track: Track, r: Parsed<seq<Track>>)
    ensures PrependTracks(tracks, PrependTracks([track], r)) == PrependTracks(tracks + [track], r)
  {
    if r.Got? {
      assert tracks + ([track] + r.value) == tracks + [track] + r.value;
    }
  }

  lemma TracksPrependNothing(r: Parsed<seq<Track>>)
    ensures PrependTracks([], r) == r
  {
    if r.Got? {
      assert [] + r.value == r.value;
    }
  }
}
