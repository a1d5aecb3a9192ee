/**
  src/midifile.c: the reader of MIDI files. The stream is a sequence of bytes with a position;
  each read is proved against a parsing function of the bytes that are left.
 */
module MidiFile {
  import opened MidiFormat

  class Reader {
    const stream: seq<byte>
    var pos: nat

    ghost predicate Valid()
      reads this
    {
      pos <= |stream|
    }

    /** The bytes that are left. */
    ghost function Left(): seq<byte>
      requires Valid()
      reads this
    {
      stream[pos..]
    }

    constructor (stream: seq<byte>)
      ensures Valid() && this.stream == stream && Left() == stream
    {
      this.stream, pos := stream, 0;
    }

    method ReadByte() returns (ok: bool, b: byte)
      requires Valid()
      modifies this
      ensures Valid() && ok == (old(Left()) != [])
      ensures ok ==> b == old(Left())[0] && Left() == old(Left())[1..]
      ensures !ok ==> Left() == old(Left())
    {
      if pos == |stream| {
        return false, 0;
      }
      b := stream[pos];
      pos := pos + 1;
      ok := true;
    }

    method ReadVariableLength() returns (ok: bool, result: nat)
      requires Valid()
      modifies this
      ensures Valid()
      ensures ok == ParseVlq(old(Left()), 0, 4).Got?
      ensures ok ==> Got(result, Left()) == ParseVlq(old(Left()), 0, 4)
    {
      result := 0;
      var i := 0;
      while i < 4
        invariant 0 <= i <= 4 && Valid()
        invariant ParseVlq(old(Left()), 0, 4) == ParseVlq(Left(), result, 4 - i)
      {
        var b;
        ok, b := ReadByte();
        if !ok {
          return;
        }
        result := result * 128 + (b as int) % 128;
        if b < 0x80 {
          return;
        }
        i := i + 1;
      }
      ok := false;
    }

    method ReadByteSequence(n: nat) returns (ok: bool, result: seq<byte>)
      requires Valid()
      modifies this
      ensures Valid()
      ensures ok == ParseBytes(old(Left()), n).Got?
      ensures ok ==> Got(result, Left()) == ParseBytes(old(Left()), n)
    {
      result := [];
      var i := 0;
      while i < n
        invariant 0 <= i <= n && Valid() && i <= |old(Left())|
        invariant result == old(Left())[..i] && Left() == old(Left())[i..]
      {
        var b;
        ok, b := ReadByte();
        if !ok {
          return;
        }
        result := result + [b];
        i := i + 1;
      }
      ok := true;
    }

    method ReadChannelEvent(status: byte, two: bool) returns (ok: bool, body: Body)
      requires Valid()
      modifies this
      ensures Valid()
      ensures ok == ParseChannel(old(Left()), status, two).Got?
      ensures ok ==> Got(body, Left()) == ParseChannel(old(Left()), status, two)
    {
      var eventType, channel := (status as int) / 16 * 16, (status as int) % 16;
      var b;
      ok, b := ReadByte();
      body := OneParam(eventType, channel, b);
      if !ok {
        return;
      }
      if two {
        var c;
        ok, c := ReadByte();
        body := TwoParams(eventType, channel, b, c);
      }
    }

    method ReadSysExEvent(status: byte) returns (ok: bool, body: Body)
      requires Valid()
      modifies this
      ensures Valid()
      ensures ok == ParseData(old(Left())).Got?
      ensures ok ==> body == SysEx(status as int, ParseData(old(Left())).value) && Left() == ParseData(old(Left())).rest
    {
      hide ParseVlq;
      body := SysEx(status as int, []);
      var length, data;
      ok, length := ReadVariableLength();
      if !ok {
        return;
      }
      ok, data := ReadByteSequence(length);
      body := SysEx(status as int, data);
    }

    method ReadMetaEvent() returns (ok: bool, body: Body)
      requires Valid()
      modifies this
      ensures Valid()
      ensures ok == (old(Left()) != [] && ParseData(old(Left())[1..]).Got?)
      ensures ok ==> var r := ParseData(old(Left())[1..]); body == Meta(old(Left())[0], r.value) && Left() == r.rest
    {
      hide ParseVlq;
      body := Meta(0, []);
      var metaType, length, data;
      ok, metaType := ReadByte();
      if !ok {
        return;
      }
      ok, length := ReadVariableLength();
      if !ok {
        return;
      }
      ok, data := ReadByteSequence(length);
      body := Meta(metaType, data);
    }

    /** The switch of ReadEvent. */
    method ReadBody(status: byte) returns (ok: bool, body: Body)
      requires Valid()
      modifies this
      ensures Valid()
      ensures ok == ParseBody(old(Left()), status).Got?
      ensures ok ==> Got(body, Left()) == ParseBody(old(Left()), status)
    {
      hide ParseData, ParseChannel;
      var high := (status as int) / 16 * 16;
      if TwoParamType(high) {
        ok, body := ReadChannelEvent(status, true);
      } else if OneParamType(high) {
        ok, body := ReadChannelEvent(status, false);
      } else if status == 0xf0 || status == 0xf7 {
        ok, body := ReadSysExEvent(status);
      } else if status == 0xff {
        ok, body := ReadMetaEvent();
      } else {
        ok, body := false, Meta(0, []);
      }
    }

    /** ReadEvent: a byte without the top bit is put back, and the last status is used again. */
    method ReadEvent(last: byte) returns (ok: bool, event: Event, newLast: byte)
      requires Valid()
      modifies this
      ensures Valid()
      ensures ok == ParseEvent(old(Left()), last).Got?
      ensures ok ==> Got((event, newLast), Left()) == ParseEvent(old(Left()), last)
    {
      hide ParseBody, ParseVlq;
      event, newLast := Event(0, Meta(0, [])), last;
      var deltaTime, status, body;
      ok, deltaTime := ReadVariableLength();
      if !ok {
        return;
      }
      ghost var tail := Left();
      ok, status := ReadByte();
      if !ok {
        return;
      }
      if status < 0x80 {
        status := last;
        pos := pos - 1;
        assert Left() == tail;
      } else {
        newLast := status;
      }
      ok, body := ReadBody(status);
      event := Event(deltaTime, body);
    }

    /** ReadTrack: the events are collected one by one until the end of the track. */
    method ReadTrack() returns (ok: bool, track: Track)
      requires Valid()
      modifies this
      ensures Valid()
      ensures ok == ParseTrack(old(Left())).Got?
      ensures ok ==> Got(track, Left()) == ParseTrack(old(Left()))
    {
      hide ParseEvent, BigEndian;
      track := Track(0, []);
      if |stream| - pos < 8 || stream[pos..pos + 4] != TRACK_CHUNK_ID {
        assert |stream| - pos >= 8 ==> Left()[..4] == stream[pos..pos + 4];
        return false, track;
      }
      var size := stream[pos + 4..pos + 8];
      assert Left()[..4] == stream[pos..pos + 4] && Left()[4..8] == size && Left()[8..] == stream[pos + 8..];
      pos := pos + 8;
      var events;
      ok, events := ReadEvents();
      track := Track(BigEndian(size), events);
    }

    /** The loop of ReadTrack. */
    method ReadEvents() returns (ok: bool, events: seq<Event>)
      requires Valid()
      modifies this
      ensures Valid()
      ensures ok == ParseEvents(old(Left()), 0).Got?
      ensures ok ==> Got(events, Left()) == ParseEvents(old(Left()), 0)
    {
      hide ParseEvent, EndOfTrack;
      events := [];
      var last: byte := 0;
      PrependNothing(ParseEvents(Left(), last));
      while true
        invariant Valid()
        invariant ParseEvents(old(Left()), 0) == Prepend(events, ParseEvents(Left(), last))
        decreases |stream| - pos
      {
        ghost var before := Left();
        EventHasByte(before, last);
        var event;
        ok, event, last := ReadEvent(last);
        if !ok {
          return;
        }
        PrependMore(events, event, if EndOfTrack(event) then Got([], Left()) else ParseEvents(Left(), last));
        events := events + [event];
        if EndOfTrack(event) {
          return;
        }
      }
    }

    /** MIDI_LoadFile, once the file is open. */
    method LoadFile() returns (ok: bool, file: File)
      requires Valid()
      modifies this
      ensures Valid()
      ensures ok == ParseFile(old(Left())).Got?
      ensures ok ==> Got(file, Left()) == ParseFile(old(Left()))
    {
      hide ParseTracks, ParseHeader;
      var numTracks, timeDivision, tracks;
      ok, numTracks, timeDivision := ReadFileHeader();
      file := File(numTracks, timeDivision, []);
      if !ok {
        return;
      }
      ok, tracks := ReadAllTracks(numTracks);
      file := File(numTracks, timeDivision, tracks);
    }

    method ReadFileHeader() returns (ok: bool, numTracks: nat, timeDivision: nat)
      requires Valid()
      modifies this
      ensures Valid()
      ensures ok == ParseHeader(old(Left())).Got?
      ensures ok ==> Got((numTracks, timeDivision), Left()) == ParseHeader(old(Left()))
    {
      hide BigEndian;
      if |stream| - pos < 14 {
        return false, 0, 0;
      }
      var header := stream[pos..pos + 14];
      var s := stream[pos..];
      assert header == s[..14] && stream[pos + 14..] == s[14..];
      Slice(s, 14, 0, 4);
      Slice(s, 14, 4, 8);
      Slice(s, 14, 8, 10);
      Slice(s, 14, 10, 12);
      Slice(s, 14, 12, 14);
      pos := pos + 14;
      if header[..4] != HEADER_CHUNK_ID || BigEndian(header[4..8]) != 6 {
        return false, 0, 0;
      }
      var format := BigEndian(header[8..10]);
      numTracks, timeDivision := BigEndian(header[10..12]), BigEndian(header[12..14]);
      ok := (format == 0 || format == 1) && numTracks >= 1;
    }

    method ReadAllTracks(numTracks: nat) returns (ok: bool, tracks: seq<Track>)
      requires Valid()
      modifies this
      ensures Valid()
      ensures ok == ParseTracks(old(Left()), numTracks).Got?
      ensures ok ==> Got(tracks, Left()) == ParseTracks(old(Left()), numTracks)
    {
      hide ParseTrack;
      tracks := [];
      var i := 0;
      TracksPrependNothing(ParseTracks(Left(), numTracks));
      while i < numTracks
        invariant 0 <= i <= numTracks && Valid()
        invariant ParseTracks(old(Left()), numTracks) == PrependTracks(tracks, ParseTracks(Left(), numTracks - i))
      {
        ghost var before := tracks;
        var track;
        ok, track := ReadTrack();
        if !ok {
          return;
        }
        TracksPrependMore(before, track, ParseTracks(Left(), numTracks - i - 1));
        tracks := tracks + [track];
        i := i + 1;
      }
      assert tracks + [] == tracks;
      ok := true;
    }
  }
}
