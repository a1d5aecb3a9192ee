/**
  The virtual-time player: the callbacks of src/i_oplmusic.c that read the tracks of a song,
  driven by the sample clock of opl/opl_sdl.c. Time is in microseconds.
 */
module OplScheduler {
  import opened Collections
  import opened OplQueue

  // ------------------------------------------------------------------
  // Songs
  // ------------------------------------------------------------------

  /** What an event means to the scheduler; the sound of the other events is not its concern. */
  datatype Event = SetTempo(usPerBeat: nat) | EndOfTrack | OtherEvent

  datatype TimedEvent = TimedEvent(delta: nat, event: Event)

  type Track = seq<TimedEvent>

  /** ReadTrack stops at the first end-of-track event; tempos are positive. */
  ghost predicate ValidTrack(track: Track) {
    && |track| > 0
    && (forall i | 0 <= i < |track| :: track[i].event.EndOfTrack? <==> i == |track| - 1)
    && (forall i | 0 <= i < |track| && track[i].event.SetTempo? :: track[i].event.usPerBeat > 0)
  }

  type Song = seq<Track>

  /** Every track keeps one callback in the queue, so that there may be as many tracks as places. */
  ghost predicate ValidSong(song: Song) {
    |song| <= MAX_OPL_QUEUE && forall t | 0 <= t < |song| :: ValidTrack(song[t])
  }

  ghost predicate ConstantTempo(song: Song) {
    forall t, i | 0 <= t < |song| && 0 <= i < |song[t]| :: !song[t][i].event.SetTempo?
  }

  /** The iterators are within their tracks. */
  ghost predicate Within(song: Song, position: seq<nat>) {
    |position| == |song| && forall t | 0 <= t < |song| :: position[t] <= |song[t]|
  }

  /** Tracks among the first n that have events left. */
  function Unfinished(song: Song, position: seq<nat>, n: nat): nat
    requires |position| == |song| && n <= |song|
  {
    if n == 0 then 0
    else Unfinished(song, position, n - 1) + if position[n - 1] < |song[n - 1]| then 1 else 0
  }

  /** Events left in the first n tracks. */
  function Remaining(song: Song, position: seq<nat>, n: nat): nat
    requires Within(song, position) && n <= |song|
  {
    if n == 0 then 0 else Remaining(song, position, n - 1) + |song[n - 1]| - position[n - 1]
  }

  lemma {:induction false} StepCounts(song: Song, position: seq<nat>, t: nat, n: nat)
    requires Within(song, position) && t < |song| && n <= |song| && position[t] < |song[t]|
    ensures var next := position[t := position[t] + 1];
      && Remaining(song, next, n) == Remaining(song, position, n) - (if t < n then 1 else 0)
      && Unfinished(song, next, n) ==
         Unfinished(song, position, n) - (if t < n && position[t] + 1 == |song[t]| then 1 else 0)
  {
    if n > 0 {
      StepCounts(song, position, t, n - 1);
    }
  }

  lemma {:induction false} UnfinishedExtremes(song: Song, position: seq<nat>, n: nat)
    requires Within(song, position) && n <= |song|
    ensures Unfinished(song, position, n) <= n
    ensures Unfinished(song, position, n) == 0 <==> forall t | 0 <= t < n :: position[t] == |song[t]|
    ensures Unfinished(song, position, n) == n <==> forall t | 0 <= t < n :: position[t] < |song[t]|
  {
    if n > 0 {
      UnfinishedExtremes(song, position, n - 1);
    }
  }

  // ------------------------------------------------------------------
  // The log of delivered events
  // ------------------------------------------------------------------

  /** A log entry (t, k): event k of track t was processed. */
  type Log = seq<(nat, nat)>

  /** The events of track t in the log, in order. */
  function Delivered(log: Log, t: nat): seq<nat> {
    if log == [] then []
    else
      var (u, k) := log[|log| - 1];
      Delivered(log[..|log| - 1], t) + if u == t then [k] else []
  }

  function UpTo(n: nat): seq<nat> {
    seq(n, i => i)
  }

  /** Every track has had its events up to its iterator, each once and in order. */
  ghost predicate InOrder(log: Log, position: seq<nat>) {
    forall t | 0 <= t < |position| :: Delivered(log, t) == UpTo(position[t])
  }

  /** A whole pass: every event of every track, once and in order. */
  ghost predicate WholePass(log: Log, song: Song) {
    forall t | 0 <= t < |song| :: Delivered(log, t) == UpTo(|song[t]|)
  }

  lemma LogNext(log: Log, position: seq<nat>, t: nat)
    requires InOrder(log, position) && t < |position|
    ensures InOrder(log + [(t, position[t])], position[t := position[t] + 1])
  {
    var next := log + [(t, position[t])];
    assert next[..|next| - 1] == log;
    assert UpTo(position[t] + 1) == UpTo(position[t]) + [position[t]];
  }

  // ------------------------------------------------------------------
  // The queue as a map from callbacks to times
  // ------------------------------------------------------------------

  type Schedule = map<Callback, int>

  /** The queue holds exactly one entry for each scheduled callback. */
  ghost predicate Holds(m: multiset<Entry>, due: Schedule) {
    forall e :: m[e] == if e.callback in due && due[e.callback] == e.time then 1 else 0
  }

  lemma HoldsAdd(m: multiset<Entry>, due: Schedule, c: Callback, t: int)
    requires Holds(m, due) && c !in due
    ensures Holds(m + multiset{Entry(c, t)}, due[c := t])
  {}

  lemma HoldsRemove(m: multiset<Entry>, due: Schedule, e: Entry)
    requires Holds(m, due) && e in m
    ensures e.callback in due && due[e.callback] == e.time
    ensures Holds(m - multiset{e}, due - {e.callback})
  {}

  /** As many entries as scheduled callbacks. */
  lemma {:induction false} HoldsSize(m: multiset<Entry>, due: Schedule)
    requires Holds(m, due)
    ensures |m| == |due|
  {
    if due == map[] {
      assert m == multiset{};
    } else {
      var c :| c in due;
      var e := Entry(c, due[c]);
      HoldsRemove(m, due, e);
      HoldsSize(m - multiset{e}, due - {c});
      assert due == (due - {c})[c := due[c]];
    }
  }

  ghost function AdjustSchedule(due: Schedule, time: int, factor: real): Schedule
    requires factor > 0.0
  {
    map c | c in due :: AdjustTime(due[c], time, factor)
  }

  /**
    A change of tempo scales the unrounded rest of a delay exactly just when no time has been paused, or the tempo
    stays as it is.
   */
  lemma RestScaled(rest: real, paused: real, factor: real)
    requires factor > 0.0
    ensures (rest - paused) / factor + paused == rest / factor <==> paused == 0.0 || factor == 1.0
  {
    var q, p := (rest - paused) / factor, paused / factor;
    assert rest / factor == q + p && p * factor == paused;
    SameFixed(p, paused, factor);
  }

  lemma SameFixed(p: real, x: real, factor: real)
    requires p * factor == x
    ensures p == x ==> x == 0.0 || factor == 1.0
  {
    if p == x {
      assert p * factor == x * factor;
      ZeroProduct(x, factor - 1.0);
    }
  }

  lemma ZeroProduct(x: real, y: real)
    requires x * y == 0.0
    ensures x == 0.0 || y == 0.0
  {
    if x != 0.0 {
      assert y == (x * y) / x;
    }
  }

  /**
    After 0.6 s of pause a callback is 100 ms away. The time of a beat is doubled, so that 200 ms should be left;
    the callback is overdue instead.
   */
  lemma PausedTempoExample()
    ensures (1_000_000 + 600_000) - 1_500_000 == 100_000
    ensures AdjustTime(1_000_000, 1_500_000, 0.5) + 600_000 < 1_500_000
    ensures Trunc(100_000.0 / 0.5) == 200_000
  {}

  /** The ticks before the next event of a track. */
  function DeltaAt(song: Song, position: seq<nat>, t: nat): nat
    requires |position| == |song| && t < |song|
  {
    if position[t] < |song[t]| then song[t][position[t]].delta else 0
  }

  /** The timer of track t is due after so many ticks, to the microsecond below. */
  ghost predicate Booked(due: Schedule, now: int, ticks: nat, usPerBeat: nat, ticksPerBeat: nat, t: nat) {
    TrackTimerCallback(t) in due &&
    var wait := due[TrackTimerCallback(t)] - now;
    wait >= 0 && ticksPerBeat * wait <= ticks * usPerBeat < ticksPerBeat * (wait + 1)
  }

  lemma BookedStill(due: Schedule, now: int, ticks: nat, usPerBeat: nat, ticksPerBeat: nat, t: nat, c: Callback,
    time: int)
    requires Booked(due, now, ticks, usPerBeat, ticksPerBeat, t) && c != TrackTimerCallback(t)
    ensures Booked(due[c := time], now, ticks, usPerBeat, ticksPerBeat, t)
  {}

  /** What an event makes of the waiting callbacks, and of the time of a beat. */
  ghost function Moved(due: Schedule, time: int, usPerBeat: nat, event: Event): Schedule {
    if event.SetTempo? && event.usPerBeat > 0 && usPerBeat > 0
    then AdjustSchedule(due, time, usPerBeat as real / event.usPerBeat as real)
    else due
  }

  function TempoAfter(usPerBeat: nat, event: Event): nat {
    if event.SetTempo? then event.usPerBeat else usPerBeat
  }

  /** A change of tempo takes no waiting callback below zero. */
  ghost predicate AllStayAbove(due: Schedule, time: int, factor: real) {
    forall c | c in due :: StaysAbove(due[c], time, factor)
  }

  /** It leaves proper times just when all of them stay above. */
  lemma AdjustedProper(due: Schedule, time: nat, factor: real)
    requires factor > 0.0
    ensures (forall c | c in due :: AdjustSchedule(due, time, factor)[c] >= 0) <==> AllStayAbove(due, time, factor)
  {
    hide AdjustTime, StaysAbove;
    forall c | c in due ensures AdjustTime(due[c], time, factor) >= 0 <==> StaysAbove(due[c], time, factor) {
      AdjustTimeStaysAbove(due[c], time, factor);
    }
  }

  lemma ProperEntries(s: seq<Entry>, due: Schedule)
    requires Holds(multiset(s), due)
    ensures NoneBelow(s) <==> forall c | c in due :: due[c] >= 0
  {
    forall j | 0 <= j < |s| ensures s[j].callback in due && due[s[j].callback] == s[j].time {
      assert multiset(s)[s[j]] > 0;
    }
    forall c | c in due ensures Entry(c, due[c]) in s {
      assert multiset(s)[Entry(c, due[c])] == 1;
    }
    if NoneBelow(s) {
      forall c | c in due ensures due[c] >= 0 {
        var j :| 0 <= j < |s| && s[j] == Entry(c, due[c]);
      }
    }
  }

  lemma HoldsNothing(due: Schedule)
    requires Holds(multiset{}, due)
    ensures due == map[]
  {
    assert forall c | c in due :: (multiset{})[Entry(c, due[c])] == 1;
  }

  lemma HoldsEmpty()
    ensures Holds(multiset{}, map[])
  {}

  lemma AdjustScheduleWithout(due: Schedule, c: Callback, time: int, factor: real)
    requires factor > 0.0 && c in due
    ensures AdjustSchedule(due - {c}, time, factor)[c := AdjustTime(due[c], time, factor)] ==
      AdjustSchedule(due, time, factor)
    ensures c !in AdjustSchedule(due - {c}, time, factor)
  {
    hide AdjustTime;
  }

  lemma AdjustedLast(s: seq<Entry>, time: int, factor: real)
    requires factor > 0.0 && s != []
    ensures var e := s[|s| - 1];
      multiset(Adjusted(s, time, factor)) ==
        multiset(Adjusted(s[..|s| - 1], time, factor)) + multiset{Entry(e.callback, AdjustTime(e.time, time, factor))}
  {
    hide AdjustTime;
    var e := s[|s| - 1];
    assert Adjusted(s, time, factor) == Adjusted(s[..|s| - 1], time, factor)
      + [Entry(e.callback, AdjustTime(e.time, time, factor))];
  }

  /** Adjusting the entries of the queue adjusts the schedule. */
  lemma {:induction false} HoldsAdjusted(s: seq<Entry>, due: Schedule, time: int, factor: real)
    requires Holds(multiset(s), due) && factor > 0.0
    ensures Holds(multiset(Adjusted(s, time, factor)), AdjustSchedule(due, time, factor))
  {
    hide Holds, AdjustTime;
    if s == [] {
      HoldsNothing(due);
      HoldsEmpty();
      assert Adjusted(s, time, factor) == [];
      assert AdjustSchedule(due, time, factor) == map[];
    } else {
      var n := |s| - 1;
      var e := s[n];
      LastOut(s);
      HoldsRemove(multiset(s), due, e);
      HoldsAdjusted(s[..n], due - {e.callback}, time, factor);
      AdjustedLast(s, time, factor);
      AdjustScheduleWithout(due, e.callback, time, factor);
      HoldsAdd(multiset(Adjusted(s[..n], time, factor)), AdjustSchedule(due - {e.callback}, time, factor),
               e.callback, AdjustTime(e.time, time, factor));
    }
  }

  lemma LastOut(s: seq<Entry>)
    requires s != []
    ensures s[|s| - 1] in multiset(s) && multiset(s) - multiset{s[|s| - 1]} == multiset(s[..|s| - 1])
  {
    assert s == s[..|s| - 1] + [s[|s| - 1]];
  }

  /** The timers of the first n tracks. */
  function Timers(n: nat): set<Callback> {
    set t: nat | t < n :: TrackTimerCallback(t)
  }

  lemma {:induction false} TimersSize(n: nat)
    ensures |Timers(n)| == n
  {
    if n == 0 {
      assert Timers(0) == {};
    } else {
      TimersSize(n - 1);
      assert Timers(n) == Timers(n - 1) + {TrackTimerCallback(n - 1)};
    }
  }

  lemma TimersNext(n: nat)
    ensures Timers(0) == {}
    ensures |Timers(n)| == n
    ensures TrackTimerCallback(n) !in Timers(n)
    ensures Timers(n + 1) == Timers(n) + {TrackTimerCallback(n)}
  {
    TimersSize(n);
  }

  // ------------------------------------------------------------------
  // The sample clock
  // ------------------------------------------------------------------

  const OPL_SECOND := 1000000

  /** The time that nsamples take, rounded down. */
  function SamplesToTime(nsamples: nat, freq: nat): nat
    requires freq > 0
  {
    nsamples * OPL_SECOND / freq
  }

  /** The samples that reach a point us from now, rounded up. */
  function TimeToSamples(us: nat, freq: nat): nat {
    (us * freq + OPL_SECOND - 1) / OPL_SECOND
  }

  /** ... and for a point that is a word above the clock, because its time is below zero. */
  function SamplesUntil(us: int, freq: nat): nat {
    if us >= 0 then TimeToSamples(us, freq)
    else (us * freq % UINT64_RANGE + OPL_SECOND - 1) % UINT64_RANGE / OPL_SECOND
  }

  lemma DivBounds(a: nat, b: nat)
    requires b > 0
    ensures (a / b) * b <= a < (a / b) * b + b
  {}

  lemma QuotientAtLeast(a: nat, b: nat, q: nat)
    requires b > 0 && a >= q * b
    ensures a / b >= q
  {
    DivBounds(a, b);
    if a / b < q {
      ProductLess(a / b + 1, q, b);
    }
  }

  lemma ProductLess(x: nat, y: nat, b: nat)
    requires x <= y
    ensures x * b <= y * b
  {}

  /** Rounding up to samples and then down to time reaches the point, and overshoots by less than one sample. */
  lemma ClockReaches(us: nat, freq: nat)
    requires freq > 0
    ensures SamplesToTime(TimeToSamples(us, freq), freq) >= us
  {
    var n := TimeToSamples(us, freq);
    DivBounds(us * freq + OPL_SECOND - 1, OPL_SECOND);
    QuotientAtLeast(n * OPL_SECOND, freq, us);
  }

  lemma ClockOvershoots(us: nat, nsamples: nat, freq: nat)
    requires freq > 0 && nsamples <= TimeToSamples(us, freq)
    ensures (SamplesToTime(nsamples, freq) - us) * freq < OPL_SECOND
  {
    DivBounds(us * freq + OPL_SECOND - 1, OPL_SECOND);
    DivBounds(nsamples * OPL_SECOND, freq);
    ProductLess(nsamples, TimeToSamples(us, freq), OPL_SECOND);
  }

  // ------------------------------------------------------------------
  // The player
  // ------------------------------------------------------------------

  /** The callbacks that should be waiting: one for each unfinished track, or the restart of a finished looping song. */
  ghost predicate Wanted(song: Song, position: seq<nat>, running: nat, looping: bool, c: Callback)
    requires |position| == |song|
  {
    match c
    case TrackTimerCallback(t) => t < |song| && position[t] < |song[t]|
    case RestartSong => song != [] && running == 0 && looping
  }

  /** A callback was invoked at time now; it had been due at time due. */
  datatype Firing = Firing(callback: Callback, due: int, now: int)

  class Player {
    const queue: CallbackQueue
    const mixingFreq: nat
    var currentTime: nat
    var pauseOffset: nat
    var paused: bool

    var song: Song
    var position: seq<nat>
    var runningTracks: nat
    var songLooping: bool
    var ticksPerBeat: nat
    var usPerBeat: nat

    /** Output samples generated so far. */
    var generated: nat

    ghost var due: Schedule
    /** A change of tempo has taken the time of a callback below zero, since all tracks last began. */
    ghost var wrapped: bool
    ghost var log: Log
    ghost var passes: seq<Log>
    ghost var fired: seq<Firing>

    /** OPL_SDL_Init: no song, no callbacks. */
    constructor (mixingFreq: nat)
      requires mixingFreq > 0
      ensures Valid() && RootAhead() && song == [] && fresh(queue) && fresh(queue.entries)
    {
      this.mixingFreq := mixingFreq;
      queue := new CallbackQueue();
      currentTime, pauseOffset, paused := 0, 0, false;
      song, position, runningTracks, songLooping := [], [], 0, false;
      ticksPerBeat, usPerBeat := 1, 500 * 1000;
      generated := 0;
      due, wrapped, log, passes, fired := map[], false, [], [], [];
    }

    /**
      The queue holds the schedule. As long as no change of tempo has taken a time below zero, it is a
      heap of proper times.
     */
    ghost predicate Waiting()
      reads this`due, this`wrapped, this`currentTime, this`pauseOffset, queue, queue.entries
    {
      && queue.Valid() && Holds(multiset(queue.Contents()), due) && pauseOffset <= currentTime
      && (!wrapped ==> queue.InHeap() && Proper())
    }

    ghost predicate Proper()
      reads this`due
    {
      forall c | c in due :: due[c] >= 0
    }

    ghost predicate Core()
      reads this`due, this`wrapped, this`currentTime, this`pauseOffset, this`song, this`position, this`ticksPerBeat,
        this`usPerBeat, this`log, this`passes,
        this`runningTracks, queue, queue.entries
    {
      && Base()
      && (song != [] ==> runningTracks == Unfinished(song, position, |song|))
    }

    /** Everything but the count of running tracks. */
    ghost predicate Base()
      reads this`due, this`wrapped, this`currentTime, this`pauseOffset, this`song, this`position, this`ticksPerBeat,
        this`usPerBeat, this`log, this`passes,
        queue, queue.entries
    {
      && Waiting() && (ConstantTempo(song) ==> !wrapped)
      && mixingFreq > 0
      && ValidSong(song) && Within(song, position)
      && ticksPerBeat > 0 && usPerBeat > 0
      && InOrder(log, position)
      && (forall p | p in passes :: WholePass(p, song))
    }

    /** The callbacks waiting are the wanted ones, but for the one being invoked. */
    ghost predicate Agenda(invoked: set<Callback>)
      requires |position| == |song|
      reads this`due, this`song, this`position, this`runningTracks, this`songLooping
    {
      forall c :: c in due <==> c !in invoked && Wanted(song, position, runningTracks, songLooping, c)
    }

    ghost predicate Valid()
      reads this`due, this`wrapped, this`currentTime, this`pauseOffset, this`song, this`position, this`ticksPerBeat,
        this`usPerBeat, this`log, this`passes,
        this`runningTracks, this`songLooping, queue, queue.entries
    {
      Core() && Agenda({})
    }

    /** The time at which a waiting callback is to be invoked, on the clock of currentTime. */
    ghost function DueTime(c: Callback): int
      requires c in due
      reads this`due, this`pauseOffset
    {
      due[c] + pauseOffset
    }

    /** The loop test of AdvanceTime: the clock has reached the time at the root of the queue. */
    ghost predicate RootDue()
      requires queue.Valid()
      reads this`currentTime, this`pauseOffset, queue, queue.entries
    {
      var s := queue.Contents();
      s != [] && 0 <= s[0].time + pauseOffset <= currentTime
    }

    /** The clock has not gone beyond the time at the root. */
    ghost predicate RootAhead()
      requires queue.Valid()
      reads this`currentTime, this`pauseOffset, queue, queue.entries
    {
      var s := queue.Contents();
      s != [] ==> AtMost(currentTime, s[0].time + pauseOffset)
    }

    ghost predicate NothingBefore(lower: int)
      reads this`due, this`pauseOffset
    {
      forall c | c in due :: DueTime(c) >= lower
    }

    /** OPL_SDL_SetCallback. */
    method SetCallback(us: nat, callback: Callback)
      requires Waiting()
      requires callback !in due && |due| < MAX_OPL_QUEUE
      modifies this`due, queue, queue.entries
      ensures Waiting()
      ensures due == old(due)[callback := currentTime - pauseOffset + us]
    {
      Room();
      hide Holds, CallbackQueue.Valid, CallbackQueue.InHeap, CallbackQueue.Contents;
      ghost var m := multiset(queue.Contents());
      queue.Push(callback, currentTime - pauseOffset + us);
      HoldsAdd(m, due, callback, currentTime - pauseOffset + us);
      due := due[callback := currentTime - pauseOffset + us];
    }

    lemma Room()
      requires Waiting()
      ensures queue.Valid() && queue.numEntries == |due|
    {
      hide Holds;
      HoldsSize(multiset(queue.Contents()), due);
    }

    /** MIDI_GetDeltaTime. */
    function DeltaTime(t: nat): nat
      requires |position| == |song| && t < |song|
      reads this
    {
      DeltaAt(song, position, t)
    }

    /** Microseconds until the next event of the track. */
    function Delay(t: nat): nat
      requires |position| == |song| && t < |song| && ticksPerBeat > 0
      reads this
    {
      QuotientAtLeast(DeltaTime(t) * usPerBeat, ticksPerBeat, 0);
      DeltaTime(t) * usPerBeat / ticksPerBeat
    }

    /** The delay in microseconds is what the delta time in ticks lasts, rounded down. */
    lemma DelayLasts(t: nat)
      requires |position| == |song| && t < |song| && ticksPerBeat > 0
      ensures ticksPerBeat * Delay(t) <= DeltaTime(t) * usPerBeat < ticksPerBeat * (Delay(t) + 1)
    {
      DivBounds(DeltaTime(t) * usPerBeat, ticksPerBeat);
    }

    /** The next event of a track is due when it should be: after its delta time at the present tempo. */
    ghost predicate Punctually(t: nat)
      requires |position| == |song| && t < |song|
      reads this
    {
      Booked(due, currentTime - pauseOffset, DeltaTime(t), usPerBeat, ticksPerBeat, t)
    }

    /** ScheduleTrack: the next event of the track is due after its delta time. */
    method ScheduleTrack(t: nat)
      requires Waiting()
      requires |position| == |song| && t < |song| && ticksPerBeat > 0
      requires TrackTimerCallback(t) !in due && |due| < MAX_OPL_QUEUE
      modifies this`due, queue, queue.entries
      ensures Waiting()
      ensures due == old(due)[TrackTimerCallback(t) := currentTime - pauseOffset + Delay(t)]
      ensures Punctually(t)
    {
      SetCallback(Delay(t), TrackTimerCallback(t));
      DelayLasts(t);
    }

    /** The loops of I_OPL_PlaySong and RestartSong: every track begins at its first event. */
    method ScheduleAll()
      requires Waiting() && due == map[]
      requires |position| == |song| <= MAX_OPL_QUEUE && ticksPerBeat > 0
      modifies this`position, this`due, queue, queue.entries
      ensures Waiting()
      ensures position == seq(|song|, _ => 0)
      ensures due.Keys == Timers(|song|)
      ensures NothingBefore(currentTime)
      ensures forall t | 0 <= t < |song| :: Punctually(t)
    {
      hide Holds, Timers, Player.Waiting, Player.Punctually, Booked, DeltaAt;
      TimersNext(0);
      var i := 0;
      while i < |song|
        invariant 0 <= i <= |song| == |position|
        invariant Waiting()
        invariant forall t | 0 <= t < i :: position[t] == 0
        invariant due.Keys == Timers(i)
        invariant NothingBefore(currentTime)
        invariant forall t | 0 <= t < i :: Punctually(t)
      {
        ghost var before, places := due, position;
        BookedBefore(i);
        BeginTrack(i);
        StillBooked(i, before, places);
        i := i + 1;
      }
    }

    lemma BookedBefore(i: nat)
      requires |position| == |song| && i <= |song| && forall t | 0 <= t < i :: Punctually(t)
      ensures forall t | 0 <= t < i ::
        Booked(due, currentTime - pauseOffset, DeltaAt(song, position, t), usPerBeat, ticksPerBeat, t)
    {
      hide Booked;
      forall t | 0 <= t < i
        ensures Booked(due, currentTime - pauseOffset, DeltaAt(song, position, t), usPerBeat, ticksPerBeat, t)
      {
        assert Punctually(t);
      }
    }

    /** The tracks that have begun are booked as before when one more begins. */
    lemma StillBooked(i: nat, before: Schedule, places: seq<nat>)
      requires |places| == |position| == |song| && i < |song| && position == places[i := 0] && Punctually(i)
      requires TrackTimerCallback(i) in due
      requires due == before[TrackTimerCallback(i) := due[TrackTimerCallback(i)]]
      requires forall t | 0 <= t < i ::
        Booked(before, currentTime - pauseOffset, DeltaAt(song, places, t), usPerBeat, ticksPerBeat, t)
      ensures forall t | 0 <= t <= i :: Punctually(t)
    {
      hide Booked;
      forall t | 0 <= t < i ensures Punctually(t) {
        BookedStill(before, currentTime - pauseOffset, DeltaAt(song, places, t), usPerBeat, ticksPerBeat, t,
                    TrackTimerCallback(i), due[TrackTimerCallback(i)]);
      }
    }

    /** A track begins at its first event. */
    method BeginTrack(i: nat)
      requires Waiting()
      requires |position| == |song| <= MAX_OPL_QUEUE && ticksPerBeat > 0 && i < |song|
      requires due.Keys == Timers(i) && NothingBefore(currentTime)
      modifies this`position, this`due, queue, queue.entries
      ensures Waiting()
      ensures position == old(position)[i := 0]
      ensures due.Keys == Timers(i + 1) && NothingBefore(currentTime)
      ensures Punctually(i) && TrackTimerCallback(i) in due
      ensures due == old(due)[TrackTimerCallback(i) := due[TrackTimerCallback(i)]]
    {
      hide Booked, Holds, Timers, Heap, Player.Delay, CallbackQueue.Contents;
      position := position[i := 0];
      assert |due| == |due.Keys|;
      TimersNext(i);
      ghost var before := due;
      ScheduleTrack(i);
      assert due.Keys == before.Keys + {TrackTimerCallback(i)};
    }

    /** MetaSetTempo: the waiting callbacks move with the tempo. */
    method MetaSetTempo(tempo: nat)
      requires Waiting() && usPerBeat > 0 && tempo > 0
      modifies this`due, this`wrapped, this`usPerBeat, queue.entries
      ensures Waiting() && usPerBeat == tempo
      ensures due == AdjustSchedule(old(due), currentTime, old(usPerBeat) as real / tempo as real)
      ensures due.Keys == old(due).Keys
      ensures var factor := old(usPerBeat) as real / tempo as real;
        forall c | c in due ::
          DueTime(c) - currentTime ==
            pauseOffset + Trunc((old(DueTime(c)) - currentTime - pauseOffset) as real / factor)
      ensures var factor := old(usPerBeat) as real / tempo as real;
        pauseOffset == 0 ==> forall c | c in due ::
          DueTime(c) - currentTime == Trunc((old(DueTime(c)) - currentTime) as real / factor)
      ensures wrapped == (old(wrapped) || !AllStayAbove(old(due), currentTime, old(usPerBeat) as real / tempo as real))
      ensures Proper() <==> AllStayAbove(old(due), currentTime, old(usPerBeat) as real / tempo as real)
    {
      hide Holds, Trunc, AllStayAbove, CallbackQueue.Valid, CallbackQueue.InHeap;
      AdjustCallbacks(usPerBeat as real / tempo as real);
      usPerBeat := tempo;
    }

    /** OPL_SDL_AdjustCallbacks. */
    method AdjustCallbacks(factor: real)
      requires Waiting() && factor > 0.0
      modifies this`due, this`wrapped, queue.entries
      ensures Waiting() && due == AdjustSchedule(old(due), currentTime, factor)
      ensures wrapped == (old(wrapped) || !AllStayAbove(old(due), currentTime, factor))
      ensures Proper() <==> AllStayAbove(old(due), currentTime, factor)
    {
      hide Holds, AdjustTime, StaysAbove, AtMost, Heap, AllStayAbove;
      HoldsAdjusted(queue.Contents(), due, currentTime, factor);
      ProperEntries(queue.Contents(), due);
      AdjustedProper(due, currentTime, factor);
      queue.AdjustCallbacks(currentTime, factor);
      wrapped := wrapped || !AllStayAbove(due, currentTime, factor);
      due := AdjustSchedule(due, currentTime, factor);
      ProperEntries(queue.Contents(), due);
    }

    /** Tracks that have events left hold no more callbacks than there are places. */
    lemma RoomForTrack(t: nat)
      requires ValidSong(song) && Within(song, position) && t < |song|
      requires due.Keys <= Timers(|song|) - {TrackTimerCallback(t)}
      ensures |due| < MAX_OPL_QUEUE
    {
      assert |due| == |due.Keys|;
      TimersSize(|song|);
      SubsetSize(due.Keys, Timers(|song|) - {TrackTimerCallback(t)});
    }

    /** While the timer of track t is being invoked, the song is not over: only timers of other tracks wait. */
    lemma OnlyTimersWait(t: nat)
      requires Core() && t < |song| && position[t] < |song[t]|
      requires Agenda({TrackTimerCallback(t)})
      ensures runningTracks > 0
      ensures due.Keys <= Timers(|song|) - {TrackTimerCallback(t)}
    {
      hide Holds, InOrder;
      UnfinishedExtremes(song, position, |song|);
    }

    /** MIDI_GetNextEvent and ProcessEvent: the iterator moves past one event, which takes effect. */
    method ProcessNextEvent(t: nat)
      requires Core() && t < |song| && position[t] < |song[t]|
      requires due.Keys <= Timers(|song|)
      modifies this`position, this`log, this`due, this`wrapped, this`usPerBeat, queue.entries
      ensures Base() && due.Keys == old(due.Keys)
      ensures position == old(position)[t := old(position)[t] + 1] && log == old(log) + [(t, old(position)[t])]
      ensures var event := song[t][old(position)[t]].event;
        due == Moved(old(due), currentTime, old(usPerBeat), event) && usPerBeat == TempoAfter(old(usPerBeat), event)
      ensures !song[t][old(position)[t]].event.SetTempo? ==> due == old(due)
    {
      LogNext(log, position, t);
      NextEvent(song, t, position[t]);
      assert ValidTrack(song[t]);
      hide Holds, InOrder, Timers, Player.Waiting, ValidSong, ValidTrack, ConstantTempo, Unfinished, WholePass,
        AdjustSchedule;
      var event := song[t][position[t]].event;
      log := log + [(t, position[t])];
      position := position[t := position[t] + 1];
      if event.SetTempo? {
        MetaSetTempo(event.usPerBeat);
      }
    }

    /** The end-of-track branch: one track fewer runs; the last one of a looping song books the restart. */
    method FinishTrack(t: nat)
      requires Base() && t < |song| && position[t] == |song[t]|
      requires runningTracks == Unfinished(song, position, |song|) + 1
      requires forall c :: c in due <==> c.TrackTimerCallback? && Wanted(song, position, runningTracks, songLooping, c)
      modifies this`runningTracks, this`due, queue, queue.entries
      ensures Valid()
      ensures runningTracks == old(runningTracks) - 1
      ensures due == if runningTracks == 0 && songLooping
        then old(due)[RestartSong := currentTime - pauseOffset + 5000] else old(due)
    {
      hide Holds, InOrder, CallbackQueue.Valid, ValidSong, Unfinished, WholePass, ConstantTempo,
        CallbackQueue.InHeap;
      UnfinishedExtremes(song, position, |song|);
      runningTracks := runningTracks - 1;
      if runningTracks <= 0 && songLooping {
        assert due == map[];
        SetCallback(5000, RestartSong);
      }
    }

    /** The other branch: the track's callback waits again. */
    method Reschedule(t: nat)
      requires Core() && t < |song| && position[t] < |song[t]|
      requires Agenda({TrackTimerCallback(t)})
      modifies this`due, queue, queue.entries
      ensures Valid()
      ensures due == old(due)[TrackTimerCallback(t) := currentTime - pauseOffset + Delay(t)]
      ensures Punctually(t)
    {
      hide Holds, InOrder, CallbackQueue.Valid, ValidSong, Unfinished, WholePass, Timers;
      OnlyTimersWait(t);
      RoomForTrack(t);
      ScheduleTrack(t);
    }

    /** TrackTimerCallback: process the next event of the track, then schedule the one after it. */
    method TrackTimer(t: nat)
      requires Core() && t < |song| && position[t] < |song[t]|
      requires Agenda({TrackTimerCallback(t)})
      modifies this`position, this`log, this`runningTracks, this`due, this`wrapped, this`usPerBeat, queue, queue.entries
      ensures Valid()
      ensures Remaining(song, position, |song|) == old(Remaining(song, position, |song|)) - 1
      ensures position == old(position)[t := old(position)[t] + 1] && log == old(log) + [(t, old(position)[t])]
      ensures var event := song[t][old(position)[t]].event;
        var moved := Moved(old(due), currentTime, old(usPerBeat), event);
        && usPerBeat == TempoAfter(old(usPerBeat), event)
        && runningTracks == old(runningTracks) - (if event.EndOfTrack? then 1 else 0)
        && (!event.EndOfTrack? ==>
             TrackTimerCallback(t) in due && due == moved[TrackTimerCallback(t) := due[TrackTimerCallback(t)]])
        && (event.EndOfTrack? ==>
             due == if runningTracks == 0 && songLooping then moved[RestartSong := currentTime - pauseOffset + 5000]
                    else moved)
      ensures RestartSong in due ==> DueTime(RestartSong) == currentTime + 5000
      ensures |position| == |song| && (position[t] < |song[t]| ==> Punctually(t))
      ensures ConstantTempo(song) ==>
        forall c | c in due :: DueTime(c) >= currentTime || (c in old(due) && due[c] == old(due)[c])
    {
      hide Player.Punctually, Player.Waiting, Moved, Holds, InOrder, ConstantTempo, Timers, ValidSong, ValidTrack,
        Unfinished, Remaining, WholePass;
      OnlyTimersWait(t);
      StepCounts(song, position, t, |song|);
      NextEvent(song, t, position[t]);
      var event := song[t][position[t]].event;
      ProcessNextEvent(t);
      if event.EndOfTrack? {
        FinishTrack(t);
      } else {
        Reschedule(t);
      }
    }

    /** After ScheduleAll every track stands at its first event. */
    lemma AllStarted()
      requires ValidSong(song) && position == seq(|song|, _ => 0)
      ensures Within(song, position) && Unfinished(song, position, |song|) == |song|
      ensures InOrder([], position)
      ensures forall t | 0 <= t < |song| :: position[t] < |song[t]|
    {
      assert forall t | 0 <= t < |song| :: ValidTrack(song[t]);
      UnfinishedExtremes(song, position, |song|);
    }

    /** What playing and restarting share: all tracks run from their first event. */
    method Begin()
      requires Waiting() && due == map[]
      requires mixingFreq > 0 && ticksPerBeat > 0 && usPerBeat > 0
      requires ValidSong(song) && |position| == |song|
      requires log == [] && forall p | p in passes :: WholePass(p, song)
      modifies this`position, this`runningTracks, this`due, this`wrapped, queue, queue.entries
      ensures Valid() && !wrapped && RestartSong !in due && NothingBefore(currentTime)
      ensures |position| == |song| && forall t | 0 <= t < |song| :: Punctually(t)
      ensures position == seq(|song|, _ => 0) && runningTracks == |song| && due.Keys == Timers(|song|)
    {
      hide Player.Punctually, Holds, InOrder, CallbackQueue.Valid, ValidTrack, Unfinished, WholePass, Timers,
        Player.DueTime;
      runningTracks := |song|;
      EmptyQueue();
      wrapped := false;
      ScheduleAll();
      AllStarted();
      TimersAre(|song|);
    }

    /** I_OPL_PlaySong. */
    method PlaySong(newSong: Song, looping: bool, division: nat)
      requires Valid() && song == [] && ValidSong(newSong) && division > 0
      modifies this, queue, queue.entries
      ensures Valid() && song == newSong && songLooping == looping
      ensures passes == [] && log == [] && fired == old(fired) && generated == old(generated)
      ensures ticksPerBeat == division && usPerBeat == 500_000 && runningTracks == |newSong|
      ensures currentTime == old(currentTime) && pauseOffset == old(pauseOffset) && paused == old(paused)
      ensures !wrapped && NothingBefore(currentTime) && RootAhead()
      ensures |position| == |song| && forall t | 0 <= t < |song| :: Punctually(t)
    {
      hide Player.Punctually, Holds, CallbackQueue.Valid, ValidSong, Player.Valid, Player.DueTime, Unfinished,
        WholePass;
      NoSong();
      LoadSong(newSong, looping, division);
      Begin();
      RootWaits();
    }

    /** The song and its tempo of 120 beats a minute. */
    method LoadSong(newSong: Song, looping: bool, division: nat)
      modifies this`song, this`position, this`songLooping, this`ticksPerBeat, this`usPerBeat, this`log, this`passes
      ensures song == newSong && songLooping == looping && ticksPerBeat == division && usPerBeat == 500_000
      ensures |position| == |song| && log == [] && passes == []
    {
      song := newSong;
      position := seq(|newSong|, _ => 0);
      songLooping := looping;
      ticksPerBeat := division;
      usPerBeat := 500 * 1000;
      log, passes := [], [];
    }

    lemma NoSong()
      requires Valid() && song == []
      ensures due == map[]
      ensures Waiting() && mixingFreq > 0
    {}

    lemma EmptyQueue()
      requires Waiting() && due == map[]
      ensures queue.InHeap() && queue.Contents() == []
    {
      HoldsSize(multiset(queue.Contents()), due);
    }

    /** The root is one of the callbacks that wait. */
    lemma RootWaits()
      requires Valid()
      ensures queue.Valid() && queue.Contents() != [] ==>
        exists c :: c in due && DueTime(c) == queue.Contents()[0].time + pauseOffset
      ensures NothingBefore(currentTime) ==> RootAhead()
    {
      var s := queue.Contents();
      if s != [] {
        assert multiset(s)[s[0]] > 0;
        assert s[0].callback in due && DueTime(s[0].callback) == s[0].time + pauseOffset;
      }
    }

    static lemma TimersAre(n: nat)
      ensures forall c :: c in Timers(n) <==> c.TrackTimerCallback? && c.track < n
    {}

    /** I_OPL_StopSong: the callbacks and the tracks go. */
    method StopSong()
      requires Valid()
      modifies this, queue
      ensures Valid() && RootAhead() && song == [] && due == map[]
      ensures currentTime == old(currentTime) && pauseOffset == old(pauseOffset) && paused == old(paused)
    {
      queue.Clear();
      song, position := [], [];
      due, wrapped, log, passes := map[], false, [], [];
    }

    /** OPL_SDL_SetPaused. */
    method SetPaused(p: bool)
      requires Valid()
      modifies this`paused
      ensures Valid() && paused == p
    {
      paused := p;
    }

    /** RestartSong: a pass is complete, and every track begins again. */
    method Restart()
      requires Core() && song != [] && runningTracks == 0
      requires Agenda({RestartSong})
      modifies this`position, this`log, this`passes, this`runningTracks, this`due, this`wrapped, queue, queue.entries
      ensures Valid() && !wrapped && RestartSong !in due
      ensures passes == old(passes) + [old(log)] && log == []
      ensures NothingBefore(currentTime)
      ensures |position| == |song| && forall t | 0 <= t < |song| :: Punctually(t)
    {
      hide Player.Punctually, Holds, InOrder, Heap, ValidSong, Unfinished, WholePass, Player.DueTime;
      AllDelivered();
      passes := passes + [log];
      log := [];
      Begin();
    }

    /** No track is left running: the log is a whole pass, and nothing waits. */
    lemma AllDelivered()
      requires Core() && song != [] && runningTracks == 0 && Agenda({RestartSong})
      ensures WholePass(log, song) && due == map[]
    {
      hide Holds;
      UnfinishedExtremes(song, position, |song|);
    }

    // ----------------------------------------------------------------
    // Advancing the clock
    // ----------------------------------------------------------------

    ghost predicate RestartDue()
      reads this`due, this`pauseOffset, this`currentTime
    {
      RestartSong in due && DueTime(RestartSong) <= currentTime
    }

    /** Events left in all tracks. */
    ghost function EventsLeft(): nat
      requires Within(song, position)
      reads this`song, this`position
    {
      Remaining(song, position, |song|)
    }

    /** A popped entry that is due: the callback takes effect. */
    method Invoke(callback: Callback)
      requires Core() && Agenda({callback}) && Wanted(song, position, runningTracks, songLooping, callback)
      modifies this`position, this`log, this`passes, this`runningTracks, this`due, this`wrapped, this`usPerBeat
      modifies queue, queue.entries
      ensures Valid() && !RestartDue()
      ensures callback != RestartSong ==> EventsLeft() < old(EventsLeft()) && passes == old(passes)
      ensures callback == RestartSong ==> passes == old(passes) + [old(log)]
      ensures |position| == |song|
      ensures match callback
        case TrackTimerCallback(t) => t < |song| && (position[t] < |song[t]| ==> Punctually(t))
        case RestartSong => forall t | 0 <= t < |song| :: Punctually(t)
      ensures ConstantTempo(song) ==>
        forall c | c in due :: DueTime(c) >= currentTime || (c in old(due) && due[c] == old(due)[c])
    {
      hide Player.Punctually, Holds, InOrder, CallbackQueue.Valid, ValidSong, Unfinished, WholePass, Remaining,
        ConstantTempo;
      match callback
      case TrackTimerCallback(t) =>
        TrackTimer(t);
      case RestartSong =>
        Restart();
    }

    /** The loop test of AdvanceTime. */
    method CallbackDue() returns (isDue: bool)
      requires Waiting()
      ensures isDue == RootDue()
      ensures !isDue && !wrapped ==> NothingBefore(currentTime + 1)
      ensures isDue ==> exists c :: c in due && DueTime(c) <= currentTime
    {
      hide Holds, Heap, Earliest;
      ghost var s := queue.Contents();
      var empty := queue.IsEmpty();
      if empty {
        HoldsSize(multiset(s), due);
        return false;
      }
      var time := queue.Peek();
      RootScheduled(s, due);
      if !wrapped {
        ScheduleEarliest(s, due, time);
      }
      isDue := AtMost(time + pauseOffset, currentTime);
    }

    /** The pop of AdvanceTime, when the clock has reached the time at the root. */
    method PopDue() returns (popped: Entry)
      requires Valid() && RootDue()
      modifies this`due, queue, queue.entries
      ensures popped.callback in old(due) && old(due)[popped.callback] == popped.time
      ensures due == old(due) - {popped.callback}
      ensures popped.time + pauseOffset <= currentTime
      ensures Core() && Agenda({popped.callback})
      ensures Wanted(song, position, runningTracks, songLooping, popped.callback)
    {
      hide Holds, InOrder, ValidSong, Unfinished, WholePass, Heap, Earliest, CallbackQueue.Contents, ConstantTempo;
      ghost var s := queue.Contents();
      var found, e := queue.Pop();
      popped := e;
      RootScheduled(s, due);
      HoldsRemove(multiset(s), due, popped);
      due := due - {popped.callback};
    }

    /** One turn of the loop of AdvanceTime. */
    method FireNext(ghost lower: int) returns (progress: bool)
      requires Valid()
      requires ConstantTempo(song) ==> lower <= currentTime && NothingBefore(lower)
      modifies this`position, this`log, this`passes, this`runningTracks, this`due, this`wrapped, this`usPerBeat
      modifies this`fired, queue, queue.entries
      ensures Valid()
      ensures progress == old(RootDue())
      ensures progress ==> !old(NothingBefore(currentTime + 1))
      ensures !progress ==> unchanged(this) && !RootDue() && (!wrapped ==> NothingBefore(currentTime + 1))
      ensures progress ==> !RestartDue() && (old(RestartDue()) || EventsLeft() < old(EventsLeft()))
      ensures progress ==>
        exists f: Firing :: fired == old(fired) + [f] && f.due <= f.now == currentTime
          && (ConstantTempo(song) ==> lower <= f.due)
      ensures ConstantTempo(song) ==> NothingBefore(lower)
    {
      hide Holds, Player.Base, Player.Core, Player.Agenda, Remaining, ConstantTempo;
      QueueReady();
      var isDue := CallbackDue();
      if !isDue {
        return false;
      }
      var popped := PopDue();
      ghost var f := Firing(popped.callback, popped.time + pauseOffset, currentTime);
      fired := fired + [f];
      Invoke(popped.callback);
      return true;
    }

    static lemma RootScheduled(s: seq<Entry>, due: Schedule)
      requires Holds(multiset(s), due) && s != []
      ensures s[0] in multiset(s) && s[0].callback in due && due[s[0].callback] == s[0].time
    {}

    static lemma ScheduleEarliest(s: seq<Entry>, due: Schedule, time: int)
      requires Holds(multiset(s), due) && Earliest(s, time) && forall c | c in due :: due[c] >= 0
      ensures time >= 0 && forall c | c in due :: time <= due[c]
    {
      ProperEntries(s, due);
      forall c | c in due ensures time <= due[c] {
        assert multiset(s)[Entry(c, due[c])] == 1;
        assert Entry(c, due[c]) in s;
      }
    }

    static lemma ScheduleSomewhere(s: seq<Entry>, due: Schedule)
      requires Holds(multiset(s), due)
      ensures due != map[] ==> s != []
    {
      HoldsSize(multiset(s), due);
    }

    /** The firings since f0 happened now, and none before its time. */
    ghost predicate OnTime(f0: seq<Firing>)
      reads this`fired, this`currentTime
    {
      && |f0| <= |fired| && fired[..|f0|] == f0
      && forall i | |f0| <= i < |fired| :: fired[i].due <= fired[i].now == currentTime
    }

    /** ... and none had been due before the given time. */
    ghost predicate NoneBefore(f0: seq<Firing>, lower: int)
      reads this`fired
    {
      forall i | |f0| <= i < |fired| :: lower <= fired[i].due
    }

    /** The loop of AdvanceTime: it ends, because a restart is booked for later and events run out. */
    method RunCallbacks(ghost lower: int)
      requires Valid()
      requires ConstantTempo(song) ==> lower <= currentTime && NothingBefore(lower)
      modifies this`position, this`log, this`passes, this`runningTracks, this`due, this`wrapped, this`usPerBeat
      modifies this`fired, queue, queue.entries
      ensures Valid() && !RootDue() && (!wrapped ==> NothingBefore(currentTime + 1))
      ensures OnTime(old(fired)) && (ConstantTempo(song) ==> NoneBefore(old(fired), lower))
      ensures old(NothingBefore(currentTime + 1)) ==> unchanged(this)
    {
      hide Player.Valid, ConstantTempo;
      IteratorsWithin();
      var more := true;
      while more
        invariant Valid() && Within(song, position) && queue.Valid()
        invariant ConstantTempo(song) ==> lower <= currentTime && NothingBefore(lower)
        invariant !more ==> !RootDue() && (!wrapped ==> NothingBefore(currentTime + 1))
        invariant OnTime(old(fired)) && (ConstantTempo(song) ==> NoneBefore(old(fired), lower))
        invariant old(NothingBefore(currentTime + 1)) ==> unchanged(this)
        decreases RestartDue(), EventsLeft(), more
      {
        more := FireNext(lower);
        IteratorsWithin();
      }
    }

    lemma QueueReady()
      requires Valid()
      ensures Waiting() && Within(song, position)
    {}

    lemma IteratorsWithin()
      requires Valid()
      ensures Within(song, position) && queue.Valid()
    {}

    /** AdvanceTime: the clock moves on by nsamples, then everything that is due is invoked. */
    method AdvanceTime(nsamples: nat, ghost lower: int)
      requires Valid() && mixingFreq > 0
      requires ConstantTempo(song) ==> lower <= currentTime + SamplesToTime(nsamples, mixingFreq)
      requires ConstantTempo(song) ==> forall c | c in due ::
        DueTime(c) + (if paused then SamplesToTime(nsamples, mixingFreq) else 0) >= lower
      modifies this, queue, queue.entries
      ensures Valid() && RootAhead() && !RootDue()
      ensures !wrapped ==> NothingBefore(currentTime + 1)
      ensures currentTime == old(currentTime) + SamplesToTime(nsamples, mixingFreq)
      ensures pauseOffset == old(pauseOffset) + if paused then SamplesToTime(nsamples, mixingFreq) else 0
      ensures
        && paused == old(paused)
        && song == old(song)
        && songLooping == old(songLooping)
        && generated == old(generated)
      ensures OnTime(old(fired)) && (ConstantTempo(song) ==> NoneBefore(old(fired), lower))
      ensures paused && old(NothingBefore(currentTime + 1)) ==> due == old(due) && fired == old(fired)
    {
      hide Player.Valid, Player.OnTime, Player.NoneBefore, ConstantTempo, SamplesToTime;
      MoveClock(SamplesToTime(nsamples, mixingFreq));
      IteratorsWithin();
      RunCallbacks(lower);
    }

    /** The first half of AdvanceTime. */
    method MoveClock(us: nat)
      requires Valid()
      modifies this`currentTime, this`pauseOffset
      ensures Valid() && currentTime == old(currentTime) + us
      ensures pauseOffset == old(pauseOffset) + if paused then us else 0
    {
      hide Holds, InOrder, ValidSong, Within, Unfinished, WholePass, ConstantTempo, CallbackQueue.Valid,
        CallbackQueue.InHeap;
      currentTime := currentTime + us;
      if paused {
        pauseOffset := pauseOffset + us;
      }
    }

    /** FillBuffer: the emulator generates nsamples. */
    method FillBuffer(nsamples: nat)
      requires nsamples < mixingFreq
      modifies this`generated
      ensures generated == old(generated) + nsamples
    {
      generated := generated + nsamples;
    }

    /** The firings since f0 were not early and less than one sample period late. */
    ghost predicate Punctual(f0: seq<Firing>)
      reads this`fired
    {
      && |f0| <= |fired| && fired[..|f0|] == f0
      && forall i | |f0| <= i < |fired| ::
           fired[i].due <= fired[i].now && (fired[i].now - fired[i].due) * mixingFreq < OPL_SECOND
    }

    /** The first half of the loop of OPL_Mix_Callback: samples up to the next callback, or to the end of the buffer. */
    method SamplesToNext(left: nat) returns (nsamples: nat, ghost lower: int)
      requires Valid() && mixingFreq > 0 && RootAhead()
      ensures nsamples <= left
      ensures left > 0 && nsamples == 0 ==> RootDue() || wrapped
      ensures var s := queue.Contents();
        nsamples == if paused || s == [] then left
          else Smaller(SamplesUntil(s[0].time + pauseOffset - currentTime, mixingFreq), left)
      ensures !wrapped ==>
        && lower <= currentTime + SamplesToTime(nsamples, mixingFreq)
        && (forall c | c in due :: DueTime(c) + (if paused then SamplesToTime(nsamples, mixingFreq) else 0) >= lower)
        && (currentTime + SamplesToTime(nsamples, mixingFreq) - lower) * mixingFreq < OPL_SECOND
    {
      hide Holds, Heap, Earliest, SamplesToTime, TimeToSamples, CallbackQueue.Contents, Player.Base;
      QueueReady();
      ghost var s := queue.Contents();
      var empty := queue.IsEmpty();
      if paused || empty {
        RootIsEarliest();
        ScheduleSomewhere(s, due);
        Behind(0, 0, mixingFreq);
        return left, currentTime + SamplesToTime(left, mixingFreq);
      }
      var time := queue.Peek();
      var next := time + pauseOffset;
      nsamples := SamplesUntil(next - currentTime, mixingFreq);
      NoSamples(next - currentTime, mixingFreq);
      if nsamples > left {
        nsamples := left;
      }
      lower := currentTime;
      if !wrapped {
        ScheduleEarliest(s, due, time);
        assert NothingBefore(next) && next >= currentTime;
        var now := currentTime + SamplesToTime(nsamples, mixingFreq);
        ClockOvershoots(next - currentTime, nsamples, mixingFreq);
        lower := if next <= now then next else now;
        Behind(now - lower, now - next, mixingFreq);
      }
    }

    /**
      The loop body of OPL_Mix_Callback. Without samples to generate and without a callback to invoke
      it changes nothing, so that the loop goes on for ever.
     */
    method MixStep(left: nat) returns (nsamples: nat, stuck: bool, ghost lower: int)
      requires Valid() && queue.Valid() && RootAhead() && 0 < left < mixingFreq
      modifies this, queue, queue.entries
      ensures Valid() && queue.Valid() && RootAhead() && nsamples <= left
      ensures stuck ==> unchanged(this) && unchanged(queue) && unchanged(queue.entries) && wrapped && nsamples == 0
      ensures !stuck ==> !RootDue() && (nsamples == 0 ==> old(RootDue()))
      ensures generated == old(generated) + nsamples && paused == old(paused) && song == old(song)
      ensures ConstantTempo(song) ==> !stuck && OnTime(old(fired)) && NoneBefore(old(fired), lower)
      ensures ConstantTempo(song) ==> (currentTime - lower) * mixingFreq < OPL_SECOND
      ensures paused ==> currentTime - pauseOffset == old(currentTime - pauseOffset)
      ensures paused && old(NothingBefore(currentTime + 1)) ==>
        due == old(due) && fired == old(fired) && NothingBefore(currentTime + 1)
    {
      hide Player.Valid, ConstantTempo, SamplesToTime, Player.OnTime, Player.NoneBefore;
      ConstantIsSound();
      nsamples, lower := SamplesToNext(left);
      var isDue := NowDue();
      if nsamples == 0 && !isDue {
        return 0, true, lower;
      }
      stuck := false;
      FillBuffer(nsamples);
      AdvanceTime(nsamples, lower);
      IteratorsWithin();
    }

    /**
      OPL_Mix_Callback: the buffer is filled, and the callbacks on the way are invoked on time. With a
      callback below zero at the root, nothing keeps the number of samples from being zero for ever.
     */
    method MixCallback(bufferLen: nat) returns (stuck: bool)
      requires Valid() && queue.Valid() && RootAhead()
      requires bufferLen < mixingFreq
      modifies this, queue, queue.entries
      ensures Valid() && queue.Valid() && RootAhead() && (!wrapped ==> NothingBefore(currentTime))
      ensures !stuck ==> generated == old(generated) + bufferLen
      ensures stuck ==> wrapped
      ensures paused == old(paused) && song == old(song)
      ensures ConstantTempo(song) ==> Punctual(old(fired))
      ensures paused ==> currentTime - pauseOffset == old(currentTime - pauseOffset)
      ensures paused && old(NothingBefore(currentTime + 1)) ==> due == old(due) && fired == old(fired)
    {
      hide Player.Valid, ConstantTempo, SamplesToTime, Player.OnTime, Player.NoneBefore, Player.RootAhead;
      var filled := 0;
      stuck := false;
      while filled < bufferLen && !stuck
        invariant filled <= bufferLen && (stuck ==> wrapped)
        invariant Valid() && queue.Valid() && RootAhead()
        invariant generated == old(generated) + filled
        invariant paused == old(paused) && song == old(song)
        invariant ConstantTempo(song) ==> Punctual(old(fired))
        invariant paused ==> currentTime - pauseOffset == old(currentTime - pauseOffset)
        invariant paused && old(NothingBefore(currentTime + 1)) ==>
                    due == old(due) && fired == old(fired) && NothingBefore(currentTime + 1)
        decreases !stuck, bufferLen - filled, RootDue()
      {
        ghost var f0 := fired;
        var nsamples;
        ghost var lower;
        nsamples, stuck, lower := MixStep(bufferLen - filled);
        filled := filled + nsamples;
        if ConstantTempo(song) {
          StaysPunctual(old(fired), f0, lower);
        }
      }
      RootIsEarliest();
    }

    method NowDue() returns (isDue: bool)
      requires Valid()
      ensures queue.Valid() && isDue == RootDue()
    {
      QueueReady();
      isDue := CallbackDue();
    }

    lemma ConstantIsSound()
      requires Valid()
      ensures ConstantTempo(song) ==> !wrapped
    {}

    /** While no time is below zero, the root says of all callbacks that none is behind the clock. */
    lemma RootIsEarliest()
      requires Valid() && queue.Valid() && RootAhead()
      ensures !wrapped ==> NothingBefore(currentTime)
    {
      hide Holds, Heap, Earliest;
      QueueReady();
      var s := queue.Contents();
      ScheduleSomewhere(s, due);
      if !wrapped && s != [] {
        RootEarliest(s);
        ScheduleEarliest(s, due, s[0].time);
      }
    }

    lemma StaysPunctual(start: seq<Firing>, f0: seq<Firing>, lower: int)
      requires |start| <= |f0| && f0[..|start|] == start
      requires forall i | |start| <= i < |f0| ::
        f0[i].due <= f0[i].now && (f0[i].now - f0[i].due) * mixingFreq < OPL_SECOND
      requires OnTime(f0) && NoneBefore(f0, lower)
      requires (currentTime - lower) * mixingFreq < OPL_SECOND
      ensures Punctual(start)
    {
      forall i | |start| <= i < |fired|
        ensures fired[i].due <= fired[i].now && (fired[i].now - fired[i].due) * mixingFreq < OPL_SECOND
      {
        if i < |f0| {
          assert fired[i] == fired[..|f0|][i];
        } else {
          ProductLess(currentTime - fired[i].due, currentTime - lower, mixingFreq);
        }
      }
      assert fired[..|start|] == fired[..|f0|][..|start|];
    }
  }

  function Smaller(a: nat, b: nat): nat { if a > b then b else a }

  lemma Behind(d: int, e: int, freq: nat)
    requires d == 0 || (d == e && e * freq < OPL_SECOND)
    ensures d * freq < OPL_SECOND
  {}

  lemma NoSamples(us: int, freq: nat)
    requires freq > 0
    ensures us >= 0 && TimeToSamples(us, freq) == 0 ==> us == 0
  {
    if us > 0 {
      ProductLess(1, us, freq);
      QuotientAtLeast(us * freq + OPL_SECOND - 1, OPL_SECOND, 1);
    }
  }

  lemma NextEvent(song: Song, t: nat, i: nat)
    requires ValidSong(song) && t < |song| && i < |song[t]|
    ensures song[t][i].event.EndOfTrack? <==> i + 1 == |song[t]|
    ensures ConstantTempo(song) ==> !song[t][i].event.SetTempo?
  {
    assert ValidTrack(song[t]);
  }
}
