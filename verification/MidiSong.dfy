/**
  What the player of src/i_oplmusic.c makes of a file that was read: the song whose events the
  callbacks deliver.
 */
module MidiSong {
  import opened Arithmetic
  import F = MidiFormat
  import S = OplScheduler
  import Q = OplQueue

  const MIDI_META_SET_TEMPO: nat := 0x51

  /** The tempo that MetaEvent takes from three bytes: microseconds in a beat. */
  function Tempo(data: seq<F.byte>): nat
    requires |data| == 3
  {
    data[0] as nat * 0x1_0000 + data[1] as nat * 0x100 + data[2] as nat
  }

  /** Three bytes, the high one first; half a second for a beat is written 07 A1 20. */
  lemma TempoRead(t: nat)
    requires t < 0x100_0000
    ensures Tempo([(t / 0x1_0000) as F.byte, (t / 0x100 % 0x100) as F.byte, (t % 0x100) as F.byte]) == t
    ensures Tempo([0x07, 0xa1, 0x20]) == 500_000
  {}

  predicate ChangesTempo(b: F.Body) {
    b.Meta? && b.metaType as int == MIDI_META_SET_TEMPO && |b.data| == 3
  }

  /** ProcessEvent and the test in TrackTimerCallback, as far as they matter to the callbacks. */
  function Meaning(e: F.Event): S.Event {
    if F.EndOfTrack(e) then S.EndOfTrack
    else if ChangesTempo(e.body) then S.SetTempo(Tempo(e.body.data))
    else S.OtherEvent
  }

  function TrackOf(events: seq<F.Event>): S.Track {
    seq(|events|, i requires 0 <= i < |events| => S.TimedEvent(events[i].deltaTime, Meaning(events[i])))
  }

  function SongOf(file: F.File): S.Song {
    seq(|file.tracks|, t requires 0 <= t < |file.tracks| => TrackOf(file.tracks[t].events))
  }

  predicate PositiveTempos(events: seq<F.Event>) {
    forall i | 0 <= i < |events| && ChangesTempo(events[i].body) :: Tempo(events[i].body.data) > 0
  }

  /** The events that the reader stores form a track for the player, unless a tempo is zero. */
  lemma TrackPlays(events: seq<F.Event>)
    requires F.ValidTrack(events)
    ensures S.ValidTrack(TrackOf(events)) <==> PositiveTempos(events)
  {
    var track := TrackOf(events);
    forall i | 0 <= i < |events| ensures track[i].event.EndOfTrack? <==> i == |track| - 1 {
      assert F.EndOfTrack(events[i]) <==> i == |events| - 1;
    }
    forall i | 0 <= i < |events|
      ensures track[i].event.SetTempo? <==> ChangesTempo(events[i].body)
    {}
    if S.ValidTrack(track) {
      forall i | 0 <= i < |events| && ChangesTempo(events[i].body) ensures Tempo(events[i].body.data) > 0 {
        assert track[i].event.SetTempo?;
      }
    }
  }

  lemma {:induction false} TracksAreValid(s: seq<F.byte>, n: nat)
    requires F.ParseTracks(s, n).Got?
    ensures var tracks := F.ParseTracks(s, n).value;
      |tracks| == n && forall t | 0 <= t < n :: F.ValidTrack(tracks[t].events)
    decreases n
  {
    hide F.ParseTrack, F.ValidTrack;
    if n > 0 {
      var _, _ := F.TrackWritten(s);
      TracksAreValid(F.ParseTrack(s).rest, n - 1);
    }
  }

  /**
    Every file that the reader accepts is a song for the player just when the player has a place for each track and no
    tempo is zero.
   */
  lemma FilePlays(s: seq<F.byte>)
    requires F.ParseFile(s).Got?
    ensures var file := F.ParseFile(s).value;
      S.ValidSong(SongOf(file)) <==>
        |file.tracks| <= Q.MAX_OPL_QUEUE && forall t | 0 <= t < |file.tracks| :: PositiveTempos(file.tracks[t].events)
  {
    hide F.ParseTracks, F.ValidTrack, S.ValidTrack, PositiveTempos, TrackOf;
    var file := F.ParseFile(s).value;
    var n := F.ParseHeader(s).value.0;
    TracksAreValid(F.ParseHeader(s).rest, n);
    forall t | 0 <= t < |file.tracks|
      ensures S.ValidTrack(SongOf(file)[t]) <==> PositiveTempos(file.tracks[t].events)
    {
      TrackPlays(file.tracks[t].events);
    }
  }

  /** ScheduleTrack divides by the time division; this is when it can. */
  lemma DivisionPositive(word: nat)
    requires word < 0x1_0000
    ensures F.TimeDivision(word) > 0 <==>
      0 < word < 0x8000 || (0x8000 <= word <= 0xff00 && word % 0x100 != 0)
  {
    if word >= 0x8000 {
      var frames := -Quotient(word - 0x1_0000, 256);
      assert frames == (0x1_0000 - word) / 256;
      assert frames > 0 <==> word <= 0xff00;
      PositiveProduct(frames, word % 0x100);
    }
  }

  lemma PositiveProduct(x: nat, y: nat)
    ensures x * y > 0 <==> x > 0 && y > 0
  {}
}
