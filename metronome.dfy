/**
 * The metronome's lookahead scheduler (class `Metronome` of
 * src/components/metronome/Metronome.tsx). A coarse timer calls
 * `Scheduler` with the audio clock's current time; it records every beat
 * that falls due within the lookahead window, each with the tone that sounds
 * it, and advances the beat counter and the next beat's time by one beat
 * length at the tempo of that moment.
 *
 * The audio clock is a parameter. Oscillators and gain envelopes are
 * recorded as tone events (frequency, start, stop); the tick callback sees
 * exactly the beats appended to the note queue.
 */
module MetronomeScheduler {
  import opened Wrappers

  /** One scheduled beat, as pushed to the note queue and passed to the
    * tick callback. */
  datatype Beat = Beat(beatNumber: int, beatsPerBar: int, time: real, isAccented: bool)

  /** One click: an oscillator at `freq` started at `start` and stopped at `stop`. */
  datatype Tone = Tone(freq: real, start: real, stop: real)

  /** The optional settings of the constructor; absent fields are `None`. */
  datatype MetronomeOptions = MetronomeOptions(
    beatsPerBar: Option<int>,
    accentBeats: Option<seq<int>>,
    defaultFrequency: Option<real>,
    downbeatFrequency: Option<real>,
    accentBeatFrequency: Option<real>)

  const DEFAULT_TEMPO: real := 120.0
  const DEFAULT_BEATS_PER_BAR: int := 4
  const DEFAULT_FREQUENCY: real := 500.0
  const DOWNBEAT_FREQUENCY: real := 1000.0
  const ACCENT_BEAT_FREQUENCY: real := 1400.0
  /** Period of the coarse scheduling timer, in ms. */
  const LOOKAHEAD: real := 25.0
  /** How far ahead of the audio clock beats are scheduled, in s. */
  const SCHEDULE_AHEAD_TIME: real := 0.1
  /** Delay of the first beat after `start`, in s. */
  const START_DELAY: real := 0.05
  /** Length of one click, in s. */
  const TONE_LENGTH: real := 0.03

  /** `option || fallback` for an integer: absent and 0 are falsy. */
  function OrInt(option: Option<int>, fallback: int): (r: int)
    ensures option.None? ==> r == fallback
    ensures option.Some? ==> r == if option.value == 0 then fallback else option.value
  {
    if option.Some? && option.value != 0 then option.value else fallback
  }

  /** `option || fallback` for a number: absent and 0 are falsy. */
  function OrReal(option: Option<real>, fallback: real): (r: real)
    ensures option.None? ==> r == fallback
    ensures option.Some? ==> r == if option.value == 0.0 then fallback else option.value
  {
    if option.Some? && option.value != 0.0 then option.value else fallback
  }

  /** The length of one beat, in seconds, at `tempo` beats per minute. */
  function SecondsPerBeat(tempo: real): (step: real)
    requires tempo > 0.0
    ensures step > 0.0
  {
    60.0 / tempo
  }

  /** The beat counter after one `nextNote`: one more, back to 0 only when
    * it reaches the number of beats per bar. */
  function NextBeat(current: int, beatsPerBar: int): (next: int)
    ensures 0 <= current < beatsPerBar ==> next == (current + 1) % beatsPerBar
    ensures beatsPerBar <= current ==> next == current + 1
  {
    if current + 1 == beatsPerBar then 0 else current + 1
  }

  /** The beat counter after k calls of `nextNote`. */
  function BeatAfter(current: int, beatsPerBar: int, k: nat): (c: int)
    ensures 0 <= current < beatsPerBar ==> 0 <= c < beatsPerBar
  {
    if k == 0 then current else NextBeat(BeatAfter(current, beatsPerBar, k - 1), beatsPerBar)
  }

  /** From a counter inside the bar, the counter runs cyclically through
    * the bar: 0, 1, ..., beatsPerBar - 1, 0, ... */
  lemma {:induction false} BeatAfterCycles(current: int, beatsPerBar: int, k: nat)
    requires 0 <= current < beatsPerBar
    ensures BeatAfter(current, beatsPerBar, k) == (current + k) % beatsPerBar
    ensures 0 <= BeatAfter(current, beatsPerBar, k) < beatsPerBar
  {
    if k > 0 {
      BeatAfterCycles(current, beatsPerBar, k - 1);
      var prev := BeatAfter(current, beatsPerBar, k - 1);
      assert NextBeat(prev, beatsPerBar) == (prev + 1) % beatsPerBar;
      ModSucc(current + k - 1, beatsPerBar);
    }
  }

  lemma MulAtLeast(d: int, m: int)
    requires d >= 1 && m > 0
    ensures d * m >= m
  {
    assert d * m == m + (d - 1) * m;
  }

  /** The remainder is the r of any a == q * m + r with 0 <= r < m. */
  lemma ModUnique(a: int, m: int, q: int, r: int)
    requires m > 0 && 0 <= r < m && a == q * m + r
    ensures a % m == r
  {
    var q', r' := a / m, a % m;
    assert a == q' * m + r';
    assert (q - q') * m == r' - r;
    if q > q' {
      MulAtLeast(q - q', m);
    } else if q < q' {
      MulAtLeast(q' - q, m);
    }
  }

  lemma ModSucc(a: int, m: int)
    requires m > 0
    ensures ((a % m) + 1) % m == (a + 1) % m
  {
    var q, r := a / m, a % m;
    assert a == q * m + r;
    if r + 1 == m {
      assert a + 1 == (q + 1) * m + 0;
      ModUnique(a + 1, m, q + 1, 0);
      ModUnique(r + 1, m, 1, 0);
    } else {
      ModUnique(a + 1, m, q, r + 1);
      ModUnique(r + 1, m, 0, r + 1);
    }
  }

  /** Once the counter is at or past the number of beats per bar (after
    * `beatsPerBar` was lowered), `nextNote` never wraps it again: it grows
    * by one per beat. */
  lemma {:induction false} BeatAfterEscapes(current: int, beatsPerBar: int, k: nat)
    requires beatsPerBar <= current
    ensures BeatAfter(current, beatsPerBar, k) == current + k
  {
    if k > 0 {
      BeatAfterEscapes(current, beatsPerBar, k - 1);
    }
  }

  /** `beatNumber % beatsPerBar === 0`: false when the modulus is 0, whose
    * remainder is NaN. */
  predicate IsDownbeat(beatNumber: int, beatsPerBar: int) {
    beatsPerBar != 0 && beatNumber % beatsPerBar == 0
  }

  /** The oscillator frequency of a beat: the accent tone for an accented
    * beat, even on a downbeat; otherwise the downbeat tone on a downbeat;
    * otherwise the default tone. */
  function ToneFrequency(isAccented: bool, beatNumber: int, beatsPerBar: int,
                         defaultFrequency: real, downbeatFrequency: real, accentBeatFrequency: real): (freq: real)
    ensures isAccented ==> freq == accentBeatFrequency
    ensures !isAccented && IsDownbeat(beatNumber, beatsPerBar) ==> freq == downbeatFrequency
    ensures !isAccented && !IsDownbeat(beatNumber, beatsPerBar) ==> freq == defaultFrequency
  {
    if isAccented then accentBeatFrequency
    else if IsDownbeat(beatNumber, beatsPerBar) then downbeatFrequency
    else defaultFrequency
  }

  /** Inside the bar, the downbeat is beat 0 and no other. */
  lemma DownbeatIsBeatZero(beatNumber: int, beatsPerBar: int)
    requires 0 <= beatNumber < beatsPerBar
    ensures IsDownbeat(beatNumber, beatsPerBar) <==> beatNumber == 0
  {
  }

  /** The time after k beats of `step` seconds from `start`, added up one
    * beat at a time as `nextNote` does. */
  function BeatTime(start: real, step: real, k: nat): (t: real)
    ensures step >= 0.0 ==> t >= start
  {
    if k == 0 then start else BeatTime(start, step, k - 1) + step
  }

  /** The k-th beat of a run falls k whole beat lengths after the first:
    * in exact arithmetic no drift accumulates (IEEE rounding in the
    * repeated addition is not modelled). */
  lemma {:induction false} BeatTimeExact(start: real, step: real, k: nat)
    ensures BeatTime(start, step, k) == start + k as real * step
  {
    if k > 0 {
      BeatTimeExact(start, step, k - 1);
      assert k as real * step == (k - 1) as real * step + step;
    }
  }

  /** The k-th beat one scheduler run records, counting from 0, starting
    * from counter `first` at time `start`, with `step` seconds per beat. */
  function ScheduledBeat(first: int, beatsPerBar: int, start: real, step: real, accentBeats: seq<int>, k: nat): (beat: Beat)
    ensures beat.beatsPerBar == beatsPerBar && beat.time == BeatTime(start, step, k)
    ensures beat.isAccented <==> beat.beatNumber in accentBeats
    ensures 0 <= first < beatsPerBar ==> 0 <= beat.beatNumber < beatsPerBar
  {
    var b := BeatAfter(first, beatsPerBar, k);
    Beat(b, beatsPerBar, BeatTime(start, step, k), b in accentBeats)
  }

  /** The first n beats a scheduler run records. */
  function ScheduledBeats(first: int, beatsPerBar: int, start: real, step: real, accentBeats: seq<int>, n: nat): (beats: seq<Beat>)
    ensures |beats| == n
  {
    if n == 0 then []
    else ScheduledBeats(first, beatsPerBar, start, step, accentBeats, n - 1)
           + [ScheduledBeat(first, beatsPerBar, start, step, accentBeats, n - 1)]
  }

  /** One more beat of a run: its list, time and counter each advance by one step. */
  lemma ScheduledRunStep(first: int, beatsPerBar: int, start: real, step: real, accentBeats: seq<int>, n: nat)
    ensures ScheduledBeats(first, beatsPerBar, start, step, accentBeats, n + 1)
         == ScheduledBeats(first, beatsPerBar, start, step, accentBeats, n) + [ScheduledBeat(first, beatsPerBar, start, step, accentBeats, n)]
    ensures BeatTime(start, step, n + 1) == BeatTime(start, step, n) + step
    ensures BeatAfter(first, beatsPerBar, n + 1) == NextBeat(BeatAfter(first, beatsPerBar, n), beatsPerBar)
  {
  }

  /** Entry k of a run's beats is its k-th scheduled beat. */
  lemma {:induction false} ScheduledBeatsAt(first: int, beatsPerBar: int, start: real, step: real, accentBeats: seq<int>, n: nat)
    ensures forall k :: 0 <= k < n ==>
      ScheduledBeats(first, beatsPerBar, start, step, accentBeats, n)[k] == ScheduledBeat(first, beatsPerBar, start, step, accentBeats, k)
  {
    if n > 0 {
      ScheduledBeatsAt(first, beatsPerBar, start, step, accentBeats, n - 1);
    }
  }

  /** Consecutive beats of a run are exactly one beat length apart, and
    * from a counter inside the bar their numbers cycle through the bar. */
  lemma ScheduledBeatsSpacedAndCyclic(first: int, beatsPerBar: int, start: real, step: real, accentBeats: seq<int>, n: nat)
    ensures var beats := ScheduledBeats(first, beatsPerBar, start, step, accentBeats, n);
      && (forall k :: 0 <= k < n - 1 ==> beats[k + 1].time - beats[k].time == step)
      && (0 <= first < beatsPerBar ==>
            forall k :: 0 <= k < n ==> beats[k].beatNumber == (first + k) % beatsPerBar)
  {
    var beats := ScheduledBeats(first, beatsPerBar, start, step, accentBeats, n);
    ScheduledBeatsAt(first, beatsPerBar, start, step, accentBeats, n);
    if 0 <= first < beatsPerBar {
      forall k | 0 <= k < n ensures beats[k].beatNumber == (first + k) % beatsPerBar {
        BeatAfterCycles(first, beatsPerBar, k);
      }
    }
  }

  /** The click recorded for a beat. */
  function ToneOf(beat: Beat, defaultFrequency: real, downbeatFrequency: real, accentBeatFrequency: real): (tone: Tone)
    ensures tone.start == beat.time && tone.stop == beat.time + TONE_LENGTH
  {
    Tone(ToneFrequency(beat.isAccented, beat.beatNumber, beat.beatsPerBar,
                       defaultFrequency, downbeatFrequency, accentBeatFrequency),
         beat.time, beat.time + TONE_LENGTH)
  }

  /** The clicks of a list of beats, one per beat, in order. */
  function TonesOf(beats: seq<Beat>, defaultFrequency: real, downbeatFrequency: real, accentBeatFrequency: real): (tones: seq<Tone>)
    ensures |tones| == |beats|
  {
    if beats == [] then []
    else TonesOf(beats[..|beats| - 1], defaultFrequency, downbeatFrequency, accentBeatFrequency)
           + [ToneOf(beats[|beats| - 1], defaultFrequency, downbeatFrequency, accentBeatFrequency)]
  }

  /** Click k of a list of beats is the click of beat k. */
  lemma {:induction false} TonesOfAt(beats: seq<Beat>, defaultFrequency: real, downbeatFrequency: real, accentBeatFrequency: real)
    ensures forall k :: 0 <= k < |beats| ==>
      TonesOf(beats, defaultFrequency, downbeatFrequency, accentBeatFrequency)[k]
        == ToneOf(beats[k], defaultFrequency, downbeatFrequency, accentBeatFrequency)
  {
    if beats != [] {
      var front := beats[..|beats| - 1];
      TonesOfAt(front, defaultFrequency, downbeatFrequency, accentBeatFrequency);
      forall k | 0 <= k < |front| ensures front[k] == beats[k] { }
    }
  }

  /** The clicks of a run from a counter inside the bar: click k sounds at
    * beat k's time for 30 ms, with the accent tone when position
    * (first + k) % beatsPerBar of the bar is accented, otherwise the
    * downbeat tone at position 0 and the default tone elsewhere. */
  lemma RunClicks(first: int, beatsPerBar: int, start: real, step: real, accentBeats: seq<int>,
                  defaultFrequency: real, downbeatFrequency: real, accentBeatFrequency: real, n: nat)
    requires 0 <= first < beatsPerBar
    ensures var tones := TonesOf(ScheduledBeats(first, beatsPerBar, start, step, accentBeats, n),
                                 defaultFrequency, downbeatFrequency, accentBeatFrequency);
      forall k :: 0 <= k < n ==>
        var position := (first + k) % beatsPerBar;
        && tones[k].start == BeatTime(start, step, k)
        && tones[k].stop == BeatTime(start, step, k) + TONE_LENGTH
        && tones[k].freq == (if position in accentBeats then accentBeatFrequency
                             else if position == 0 then downbeatFrequency
                             else defaultFrequency)
  {
    ScheduledBeatsAt(first, beatsPerBar, start, step, accentBeats, n);
    TonesOfAt(ScheduledBeats(first, beatsPerBar, start, step, accentBeats, n),
              defaultFrequency, downbeatFrequency, accentBeatFrequency);
    forall k | 0 <= k < n
      ensures var position := (first + k) % beatsPerBar;
        BeatAfter(first, beatsPerBar, k) == position
        && (IsDownbeat(position, beatsPerBar) <==> position == 0)
    {
      BeatAfterCycles(first, beatsPerBar, k);
      DownbeatIsBeatZero((first + k) % beatsPerBar, beatsPerBar);
    }
  }

  /** Beat times rise with the beat index when the beat length is positive. */
  lemma {:induction false} BeatTimeRises(start: real, step: real, j: nat, k: nat)
    requires step > 0.0 && j <= k
    ensures BeatTime(start, step, j) <= BeatTime(start, step, k)
  {
    if j < k {
      BeatTimeRises(start, step, j, k - 1);
    }
  }

  /** When the last beat of a run falls before `bound`, every beat of it does. */
  lemma AllBeatsBefore(first: int, beatsPerBar: int, start: real, step: real, accentBeats: seq<int>, n: nat, bound: real)
    requires step > 0.0 && n > 0 && BeatTime(start, step, n - 1) < bound
    ensures forall k :: 0 <= k < n ==> ScheduledBeats(first, beatsPerBar, start, step, accentBeats, n)[k].time < bound
  {
    ScheduledBeatsAt(first, beatsPerBar, start, step, accentBeats, n);
    forall k | 0 <= k < n
      ensures ScheduledBeats(first, beatsPerBar, start, step, accentBeats, n)[k].time < bound
    {
      BeatTimeRises(start, step, k, n - 1);
    }
  }

  /** Appending a beat appends its click. */
  lemma TonesOfAppend(beats: seq<Beat>, beat: Beat, defaultFrequency: real, downbeatFrequency: real, accentBeatFrequency: real)
    ensures TonesOf(beats + [beat], defaultFrequency, downbeatFrequency, accentBeatFrequency)
         == TonesOf(beats, defaultFrequency, downbeatFrequency, accentBeatFrequency)
            + [ToneOf(beat, defaultFrequency, downbeatFrequency, accentBeatFrequency)]
  {
    assert (beats + [beat])[..|beats|] == beats;
  }

  /** With the next beat at `t`: 60 times the beat lengths left before
    * `bound`, rounded down, plus one; zero once the beat is at or past the
    * bound. */
  ghost function Gap(bound: real, t: real, tempo: real): int
  {
    if t < bound then ((bound - t) * tempo).Floor + 1 else 0
  }

  /** Advancing the next beat's time by one beat lowers the gap. */
  lemma GapShrinks(bound: real, t: real, tempo: real)
    requires t < bound && tempo > 0.0
    ensures 0 <= Gap(bound, t + SecondsPerBeat(tempo), tempo) < Gap(bound, t, tempo)
  {
    var step := SecondsPerBeat(tempo);
    assert step * tempo == 60.0;
    assert (bound - (t + step)) * tempo == (bound - t) * tempo - 60.0;
    assert (bound - t) * tempo > 0.0;
  }

  class Metronome {
    var tempo: real
    var noteQueue: seq<Beat>
    var beatsPerBar: int
    var currentBeatInBar: int
    var isRunning: bool
    var accentBeats: seq<int>
    var accentBeatFrequency: real
    var downbeatFrequency: real
    var defaultFrequency: real
    var nextNoteTime: real
    var lookahead: real
    var scheduleAheadTime: real
    /** The clicks handed to the audio context, in scheduling order. */
    var tones: seq<Tone>

    /** A stopped metronome at `tempo` (120 when absent) with the given
      * options, falsy ones replaced by their defaults. */
    constructor (tempo: Option<real>, options: MetronomeOptions)
      ensures this.tempo == (if tempo.Some? then tempo.value else DEFAULT_TEMPO)
      ensures beatsPerBar == OrInt(options.beatsPerBar, DEFAULT_BEATS_PER_BAR)
      ensures defaultFrequency == OrReal(options.defaultFrequency, DEFAULT_FREQUENCY)
      ensures downbeatFrequency == OrReal(options.downbeatFrequency, DOWNBEAT_FREQUENCY)
      ensures accentBeatFrequency == OrReal(options.accentBeatFrequency, ACCENT_BEAT_FREQUENCY)
      ensures accentBeats == (if options.accentBeats.Some? then options.accentBeats.value else [])
      ensures noteQueue == [] && tones == []
      ensures nextNoteTime == 0.0 && currentBeatInBar == 0 && !isRunning
      ensures lookahead == LOOKAHEAD && scheduleAheadTime == SCHEDULE_AHEAD_TIME
    {
      this.tempo := if tempo.Some? then tempo.value else DEFAULT_TEMPO;
      beatsPerBar := OrInt(options.beatsPerBar, DEFAULT_BEATS_PER_BAR);
      defaultFrequency := OrReal(options.defaultFrequency, DEFAULT_FREQUENCY);
      downbeatFrequency := OrReal(options.downbeatFrequency, DOWNBEAT_FREQUENCY);
      accentBeatFrequency := OrReal(options.accentBeatFrequency, ACCENT_BEAT_FREQUENCY);
      accentBeats := if options.accentBeats.Some? then options.accentBeats.value else [];
      noteQueue := [];
      tones := [];
      nextNoteTime := 0.0;
      currentBeatInBar := 0;
      isRunning := false;
      lookahead := LOOKAHEAD;
      scheduleAheadTime := SCHEDULE_AHEAD_TIME;
    }

    /** Advance to the next beat: the time by one beat length at the current
      * tempo, the counter by one, wrapping when it reaches the bar length. */
    method NextNote()
      requires tempo > 0.0
      modifies this`nextNoteTime, this`currentBeatInBar
      ensures nextNoteTime == old(nextNoteTime) + SecondsPerBeat(tempo)
      ensures currentBeatInBar == NextBeat(old(currentBeatInBar), beatsPerBar)
      ensures 0 <= old(currentBeatInBar) < beatsPerBar ==> 0 <= currentBeatInBar < beatsPerBar
    {
      var secondsPerBeat := 60.0 / tempo;
      nextNoteTime := nextNoteTime + secondsPerBeat;
      currentBeatInBar := currentBeatInBar + 1;
      if currentBeatInBar == beatsPerBar {
        currentBeatInBar := 0;
      }
    }

    /** Record one beat and its click; earlier entries stay as they were. */
    method ScheduleNote(beatNumber: int, time: real)
      modifies this`noteQueue, this`tones
      ensures noteQueue == old(noteQueue) + [Beat(beatNumber, beatsPerBar, time, beatNumber in accentBeats)]
      ensures tones == old(tones) + [ToneOf(Beat(beatNumber, beatsPerBar, time, beatNumber in accentBeats),
                                            defaultFrequency, downbeatFrequency, accentBeatFrequency)]
    {
      var note := Beat(beatNumber, beatsPerBar, time, beatNumber in accentBeats);
      noteQueue := noteQueue + [note];
      var freq: real;
      if note.isAccented {
        freq := accentBeatFrequency;
      } else {
        freq := if IsDownbeat(beatNumber, beatsPerBar) then downbeatFrequency else defaultFrequency;
      }
      tones := tones + [Tone(freq, time, time + TONE_LENGTH)];
    }

    /** One timer tick at audio-clock time `now`: schedule every beat due
      * before `now + scheduleAheadTime`. The run appends the beats
      * ScheduledBeats describes, from the counter and time it started with,
      * one beat length apart; all of them fall before the bound and the next
      * beat's time does not. A run that starts at or past the bound records
      * nothing. */
    method Scheduler(now: real)
      requires tempo > 0.0
      modifies this`noteQueue, this`tones, this`nextNoteTime, this`currentBeatInBar
      ensures nextNoteTime >= now + scheduleAheadTime
      ensures |noteQueue| >= |old(noteQueue)|
      ensures var n := |noteQueue| - |old(noteQueue)|;
        var beats := ScheduledBeats(old(currentBeatInBar), beatsPerBar, old(nextNoteTime), SecondsPerBeat(tempo), accentBeats, n);
        && noteQueue == old(noteQueue) + beats
        && tones == old(tones) + TonesOf(beats, defaultFrequency, downbeatFrequency, accentBeatFrequency)
        && nextNoteTime == BeatTime(old(nextNoteTime), SecondsPerBeat(tempo), n)
        && currentBeatInBar == BeatAfter(old(currentBeatInBar), beatsPerBar, n)
      ensures forall k :: |old(noteQueue)| <= k < |noteQueue| ==> noteQueue[k].time < now + scheduleAheadTime
      ensures old(nextNoteTime) >= now + scheduleAheadTime ==>
        noteQueue == old(noteQueue) && tones == old(tones) &&
        nextNoteTime == old(nextNoteTime) && currentBeatInBar == old(currentBeatInBar)
    {
      ghost var step := SecondsPerBeat(tempo);
      ghost var first, start, queue0, tones0 := currentBeatInBar, nextNoteTime, noteQueue, tones;
      ghost var bar, accents := beatsPerBar, accentBeats;
      ghost var plain, down, accent := defaultFrequency, downbeatFrequency, accentBeatFrequency;
      var bound := now + scheduleAheadTime;
      ghost var n: nat := 0;
      ghost var beats: seq<Beat> := [];
      while nextNoteTime < bound
        invariant beats == ScheduledBeats(first, bar, start, step, accents, n)
        invariant nextNoteTime == BeatTime(start, step, n)
        invariant currentBeatInBar == BeatAfter(first, bar, n)
        invariant noteQueue == queue0 + beats
        invariant tones == tones0 + TonesOf(beats, plain, down, accent)
        invariant n > 0 ==> BeatTime(start, step, n - 1) < bound
        decreases Gap(bound, nextNoteTime, tempo)
      {
        ghost var beat := ScheduledBeat(first, bar, start, step, accents, n);
        GapShrinks(bound, nextNoteTime, tempo);
        TonesOfAppend(beats, beat, plain, down, accent);
        ScheduledRunStep(first, bar, start, step, accents, n);
        ScheduleNote(currentBeatInBar, nextNoteTime);
        NextNote();
        beats := beats + [beat];
        n := n + 1;
      }
      if n > 0 {
        AllBeatsBefore(first, bar, start, step, accents, n, bound);
        BeatTimeRises(start, step, 0, n - 1);
      } else {
        assert beats == [];
      }
    }

    /** Start at audio-clock time `now`: running, counter back to 0, first
      * beat 50 ms from now. The queue and the clicks already recorded stay. */
    method Start(now: real)
      modifies this`isRunning, this`currentBeatInBar, this`nextNoteTime
      ensures isRunning && currentBeatInBar == 0 && nextNoteTime == now + START_DELAY
    {
      isRunning := true;
      currentBeatInBar := 0;
      nextNoteTime := now + START_DELAY;
    }

    /** Stop: not running; queue, counter and next beat time untouched. */
    method Stop()
      modifies this`isRunning
      ensures !isRunning
    {
      isRunning := false;
    }

    /** The tempo control writes the field directly; the new beat length
      * applies from the next `NextNote`. */
    method SetTempo(newBpm: real)
      modifies this`tempo
      ensures tempo == newBpm
    {
      tempo := newBpm;
    }

    /** The bar-length control writes the field directly. */
    method SetBeatsPerBar(newBeatsPerBar: int)
      modifies this`beatsPerBar
      ensures beatsPerBar == newBeatsPerBar
    {
      beatsPerBar := newBeatsPerBar;
    }
  }
}
