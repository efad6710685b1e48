# Guitar tuner and metronome: a Dafny model

This project models the logic of a small browser app for guitarists: a
tuner that listens to the microphone and names the string being played,
and a metronome that clicks on a lookahead schedule.

**Tuner (`src/util/AudioProcessor.tsx`).**
- `guitar_strings.dfy` models the tuning tables: the three named tunings, `createNote` and `createGuitarStrings`.
  - An absent or unknown tuning name falls back to standard tuning.
  - Each string gets the sample lag `round(sampleRate / freq)` and a zero score.
- `autocorrelation.dfy` holds the pure quantities of one frame:
  - the mean square of the samples;
  - the mean absolute difference between the first half of the frame and the frame shifted by a lag;
  - the per-string score update;
  - the stable ordering of the strings by score;
  - the predicate that says which lag the ±10 sweep must pick.
- `audio_processor.dfy` is the `AudioProcessor` class, with the fields the source updates in place. `AutocorrelateAudioData` is one frame:
  - a silence gate;
  - a 250 ms assessment window, reopened when the level rises by more than 0.006;
  - scoring of every string while the window is open;
  - re-sorting of the string keys on the first frame after the window closes;
  - a lag sweep around the best-ranked string that stops early below the tolerance.
- `DispatchAudioData` drops frames whose frequency is 0.

**Metronome (`src/components/metronome/Metronome.tsx`).**
- `metronome.dfy` is the `Metronome` class.
  - `Scheduler(now)` loops while the next beat falls before `now + scheduleAheadTime`.
  - Each pass records the beat (`ScheduleNote`) and its click as a `(freq, start, stop)` tone, then advances time and counter (`NextNote`).
  - The spec functions `ScheduledBeats`, `BeatTime` and `BeatAfter` describe what one run appends.
  - Lemmas prove the beats are one beat length apart, their numbers cycle through the bar, and the click frequencies follow the accent/downbeat/default rule.
- `SetTempo` and `SetBeatsPerBar` are the direct field writes of the page component. After `beatsPerBar` is lowered to or below the counter, the `==` wrap comparison no longer fires and the counter grows by one per beat (`BeatAfterEscapes`), until `Start` resets the counter or the bar is lengthened past it again.

**Beat dots (`src/components/metronome/MetronomeDots.component.tsx`).**
- `metronome_dots.dfy` models `getColor`, the breakpoint-to-size choice, and the list of dots for beats `0 .. beatsPerBar - 1`.

The three audio-clock and timer inputs are parameters:
- the frame's timestamp (`time`);
- the audio clock (`now`);
- the frame's samples (the `frequencyBuffer` array, filled before each call).

`Math.sqrt` and the note-to-frequency library are not called. The caller supplies the frame's RMS level, and the frequency of each note name comes from a table.

## Model

| member | source | states |
|---|---|---|
| GuitarStrings.Round | src/util/AudioProcessor.tsx:63 | `Math.round` gives the integer within half of x, halves going up |
| GuitarStrings.CreateNote | src/util/AudioProcessor.tsx:54-66 | the note keeps its name and frequency, has difference 0, and its offset is sampleRate/freq rounded to the nearest integer |
| GuitarStrings.ChooseTuning | src/util/AudioProcessor.tsx:79-80 | a known tuning name selects that tuning; an absent or unknown one selects standard |
| GuitarStrings.BuildStrings | src/util/AudioProcessor.tsx:82-88 | the folded object has exactly the listed names as keys, each mapped to createNote of that name |
| GuitarStrings.CreateGuitarStrings | src/util/AudioProcessor.tsx:76-91 | keys are exactly the chosen tuning's note names; every entry has its name, its table frequency, difference 0 and the rounded lag |
| GuitarStrings.UnknownTuningIsStandard | src/util/AudioProcessor.tsx:80 | an unknown name, no name and "standard" all build the same table |
| GuitarStrings.TuningsAreDistinct | src/util/AudioProcessor.tsx:41-45 | every tuning is non-empty and lists no note twice, so the object built from it has one key per listed string |
| Autocorrelation.Abs | src/util/AudioProcessor.tsx:321-323 | `Math.abs`: the result is non-negative and is x or -x |
| Autocorrelation.SumOfSquares | src/util/AudioProcessor.tsx:287-289 | the energy loop's running sum over the first n samples, one square added per sample; never negative (SumOfSquaresNonnegative) |
| Autocorrelation.MeanSquare | src/util/AudioProcessor.tsx:287-291 | the sum of squares over the whole frame divided by its length, the square of the RMS level; MeanSquareOfFrame's loop is proved equal to it |
| Autocorrelation.AbsDiffSum | src/util/AudioProcessor.tsx:320-324 | the sum over the first n positions of the absolute difference between a sample and the one `lag` later; zero exactly on a period (AbsDiffSumZeroIffPeriodic) |
| Autocorrelation.MeanAbsDiff | src/util/AudioProcessor.tsx:320-326 | the per-lag difference of both the string scoring and the sweep (lines 371-377): the difference sum over 1024 positions divided by 1024; zero exactly for a period of the compared half (MeanAbsDiffZeroIffPeriodic) |
| Autocorrelation.LagInRange | src/util/AudioProcessor.tsx:352-376 | the sweep around a string lag stays inside the 2048-sample frame with positive lags |
| Autocorrelation.LagInRangeIsSweepFits | src/util/AudioProcessor.tsx:352-376 | a lag is in range exactly when every lag of the sweep, offset-10 to offset+9, is positive and reads only samples inside the frame |
| Autocorrelation.SumOfSquaresNonnegative | src/util/AudioProcessor.tsx:287-289 | the accumulated sum of squares is never negative |
| Autocorrelation.AbsDiffSumZeroIffPeriodic | src/util/AudioProcessor.tsx:320-324 | the difference sum is non-negative, and zero exactly when the samples repeat after the lag |
| Autocorrelation.MeanAbsDiffZeroIffPeriodic | src/util/AudioProcessor.tsx:320-326 | the per-lag mean difference is non-negative, and zero exactly for a period of the compared half-frame |
| Autocorrelation.WeightedDifference | src/util/AudioProcessor.tsx:326-332 | the amount added to a string's score is never negative |
| Autocorrelation.AssessString | src/util/AudioProcessor.tsx:308-332 | one string's update changes only that string's score, never to below its base (0 on reset, else the old score); names, frequencies, lags and every other string stay |
| Autocorrelation.AssessStringWith | src/util/AudioProcessor.tsx:308-332 | one string's update: score reset when the previous frame was not assessing, then increased by mean difference times lag |
| Autocorrelation.Assess | src/util/AudioProcessor.tsx:307-333 | assessing the strings changes only scores: same keys, names, frequencies and lags |
| Autocorrelation.AssessPrefixStep | src/util/AudioProcessor.tsx:307-333 | the loop's next pass extends the assessment of the keys seen so far by one string's update |
| Autocorrelation.AssessEffect | src/util/AudioProcessor.tsx:301-336 | with distinct keys, every listed string's score becomes base (0 on reset, else old) plus its weighted difference, never below base; unlisted strings are unchanged |
| Autocorrelation.InsertByDifference | src/util/AudioProcessor.tsx:344 | an insertion step of the sort adds exactly the one key to the multiset of keys |
| Autocorrelation.SortByDifference | src/util/AudioProcessor.tsx:344 | the sorted key list is a permutation of the old one |
| Autocorrelation.InsertMembers | src/util/AudioProcessor.tsx:344 | an insertion holds the new key and the old keys and nothing else |
| Autocorrelation.InsertKeepsSorted | src/util/AudioProcessor.tsx:260-262 | inserting into a list ascending by difference keeps it ascending |
| Autocorrelation.PrependKeepsSorted | src/util/AudioProcessor.tsx:260-262 | a key scoring no more than every key of an ascending list can be put in front and the list stays ascending |
| Autocorrelation.SortIsSorted | src/util/AudioProcessor.tsx:340-345 | the re-sorted keys are in ascending order of difference |
| Autocorrelation.SortKeepsDistinct | src/util/AudioProcessor.tsx:344 | sorting keys that are free of repeats leaves them free of repeats |
| Autocorrelation.RankingSurvivesAssessment | src/util/AudioProcessor.tsx:301-336 | after scoring, the keys still list every string exactly once and all lags still fit the buffer |
| Autocorrelation.SortedRankingIsRanking | src/util/AudioProcessor.tsx:340-345 | after re-sorting, the keys still list every string exactly once and all lags still fit |
| Autocorrelation.OpenWindow | src/util/AudioProcessor.tsx:298-299 | a rise of more than the threshold moves the window end to time+250; otherwise it stays; flag, strings and key order never change here |
| Autocorrelation.ReorderOnClose | src/util/AudioProcessor.tsx:340-345 | only the key order can change, and only on the frame where assessing stops; the keys stay a permutation of the old ones |
| Autocorrelation.ScoreWhileOpen | src/util/AudioProcessor.tsx:301-336 | scoring a frame changes only the scores: same strings, names, frequencies and lags, same key order, same window end |
| Autocorrelation.RankFrame | src/util/AudioProcessor.tsx:298-345 | the ranking part of a frame (window, scoring, re-sort) changes no string's name, frequency or lag |
| Autocorrelation.RankFrameWindow | src/util/AudioProcessor.tsx:298-301 | a rise of more than the threshold always opens the window to time+250 and makes the frame assessing; otherwise the window end stays and the frame assesses exactly when time is before it |
| Autocorrelation.RankFrameKeepsRanking | src/util/AudioProcessor.tsx:298-345 | after a frame the keys still list every string exactly once and every lag still leaves room for the sweep |
| Autocorrelation.RankFrameOrder | src/util/AudioProcessor.tsx:340-345 | the key order changes only on the frame where assessing stops; then it becomes a permutation of the old order, ascending by score |
| Autocorrelation.RankFrameScores | src/util/AudioProcessor.tsx:301-336 | while assessing, a string's score becomes base (old score, or 0 when the previous frame was not assessing) plus the frame's weighted difference; otherwise no score changes |
| Autocorrelation.IsSweepLag | src/util/AudioProcessor.tsx:352-388 | the sweep's pick: a lag in [center-10, center+10) that is the first one under the tolerance, or else the first one of smallest difference; any such lag is positive and leaves the compared half inside the buffer |
| Autocorrelation.SweepLagUnique | src/util/AudioProcessor.tsx:352-388 | at most one lag meets the sweep's specification |
| Autocorrelation.SweepFindsPeriod | src/util/AudioProcessor.tsx:352-388 | if the frame repeats after p samples, p inside the sweep, the pick is at most p and under the tolerance |
| AudioProcessing.AudioProcessor.constructor | src/util/AudioProcessor.tsx:140-161 | zeroed 2048-sample buffer, standard-tuning strings with keys in tuning order, lastRms 0, threshold 0.006, not assessing, window time 0, not sending |
| AudioProcessing.AudioProcessor.MeanSquareOfFrame | src/util/AudioProcessor.tsx:287-291 | the loop computes the mean of the squared samples, which is non-negative |
| AudioProcessing.AudioProcessor.FrameDifference | src/util/AudioProcessor.tsx:371-377 | the loop computes the mean absolute difference over the first half of the buffer at the given lag |
| AudioProcessing.AudioProcessor.AssessOneString | src/util/AudioProcessor.tsx:308-332 | one string's score is reset if asked, then increased by its weighted difference; other strings are untouched |
| AudioProcessing.AudioProcessor.AssessStrings | src/util/AudioProcessor.tsx:307-333 | the loop applies every key's update in ranking order |
| AudioProcessing.AudioProcessor.RefineLag | src/util/AudioProcessor.tsx:352-388 | the pick lies in [offset-10, offset+10); it is the first lag below tolerance, or else the first lag with the smallest difference among all examined |
| AudioProcessing.AudioProcessor.SortStringKeysByDifference | src/util/AudioProcessor.tsx:340-345 | the keys are replaced by their ascending-difference sort and remain a ranking of all strings |
| AudioProcessing.AudioProcessor.OpenWindowOnRise | src/util/AudioProcessor.tsx:298-299 | the window end is moved to time+250 exactly on a rise of more than the threshold; nothing else changes |
| AudioProcessing.AudioProcessor.ScoreWhileWindowOpen | src/util/AudioProcessor.tsx:301-336 | inside the window the flag is set and all strings are scored; outside it only the flag is cleared; the ranking stays a ranking |
| AudioProcessing.AudioProcessor.ReorderWhenClosed | src/util/AudioProcessor.tsx:340-345 | the keys are re-sorted by score exactly when the previous frame assessed and this one did not |
| AudioProcessing.AudioProcessor.RankStrings | src/util/AudioProcessor.tsx:298-345 | window end, assessing flag, strings and key order become RankFrame of the old ones, so the RankFrame lemmas (window, scores, order, ranking kept) hold of each frame |
| AudioProcessing.AudioProcessor.AutocorrelateAudioData | src/util/AudioProcessor.tsx:271-393 | rms < 0.008: result 0, nothing changes; otherwise lastRms = rms, the ranking state becomes RankFrame of the old one, and the result sampleRate/lag > 0 for the sweep's pick around the first key |
| AudioProcessing.AudioProcessor.DispatchAudioData | src/util/AudioProcessor.tsx:396-405 | a frequency is passed on exactly when the frame is not silent; a silent frame leaves lastRms and the ranking state unchanged; otherwise lastRms = rms, the ranking state becomes RankFrame of the old one, and the value passed on is sampleRate over the sweep's pick around the first key, which is positive |
| AudioProcessing.SilenceGate | src/util/AudioProcessor.tsx:291-294 | comparing the mean square with 0.008² decides the same as comparing the RMS with 0.008 |
| MetronomeScheduler.OrInt | src/components/metronome/Metronome.tsx:48 | JavaScript `or` with default 4: an absent or zero option gives the default, any other value is kept |
| MetronomeScheduler.OrReal | src/components/metronome/Metronome.tsx:49-51 | JavaScript `or` with the default: an absent or zero frequency gives the default, any other value is kept |
| MetronomeScheduler.SecondsPerBeat | src/components/metronome/Metronome.tsx:64 | a positive tempo gives a positive beat length 60/tempo |
| MetronomeScheduler.NextBeat | src/components/metronome/Metronome.tsx:67-70 | from inside the bar the counter steps to (c+1) mod beatsPerBar; from at or past the bar length it just grows by one |
| MetronomeScheduler.BeatAfter | src/components/metronome/Metronome.tsx:62-71 | the counter after k calls of nextNote; from inside the bar it stays inside the bar |
| MetronomeScheduler.BeatAfterCycles | src/components/metronome/Metronome.tsx:62-71 | from a counter c inside the bar, after k beats the counter is (c+k) mod beatsPerBar and still inside the bar |
| MetronomeScheduler.BeatAfterEscapes | src/components/metronome/Metronome.tsx:67-70 | a counter at or past beatsPerBar is never wrapped again: after k beats it is c+k |
| MetronomeScheduler.ToneFrequency | src/components/metronome/Metronome.tsx:89-95 | accented beats get the accent frequency even on a downbeat; otherwise downbeats get the downbeat frequency; everything else gets the default |
| MetronomeScheduler.IsDownbeat | src/components/metronome/Metronome.tsx:94 | `beatNumber % beatsPerBar === 0`, false for a zero bar length (the remainder is NaN); inside the bar it holds of beat 0 only (DownbeatIsBeatZero) |
| MetronomeScheduler.DownbeatIsBeatZero | src/components/metronome/Metronome.tsx:94 | inside the bar, `beatNumber % beatsPerBar === 0` holds for beat 0 only |
| MetronomeScheduler.BeatTime | src/components/metronome/Metronome.tsx:64-65 | the next-beat time after k additions of the beat length; never before the start when the step is non-negative |
| MetronomeScheduler.ScheduledBeat | src/components/metronome/Metronome.tsx:73-80 | the k-th beat record of a run: the run's bar length, the time after k beats, accented exactly when its number is listed, and a number inside the bar when the run started inside it |
| MetronomeScheduler.ScheduledBeats | src/components/metronome/Metronome.tsx:108-116 | one run records exactly n beats, entry k being ScheduledBeat k (ScheduledBeatsAt) |
| MetronomeScheduler.BeatTimeExact | src/components/metronome/Metronome.tsx:64-65 | beat times built by repeatedly adding the beat length equal start + k·step: in exact arithmetic there is no drift (IEEE rounding is not modelled) |
| MetronomeScheduler.ScheduledBeatsAt | src/components/metronome/Metronome.tsx:108-116 | entry k of a run's beats has the counter and the time after k beats |
| MetronomeScheduler.ScheduledBeatsSpacedAndCyclic | src/components/metronome/Metronome.tsx:108-116 | beats of one run are exactly one beat length apart; from inside the bar their numbers run (first+k) mod beatsPerBar |
| MetronomeScheduler.ToneOf | src/components/metronome/Metronome.tsx:104-105 | a click starts at the beat's time and stops 0.03 s later |
| MetronomeScheduler.TonesOf | src/components/metronome/Metronome.tsx:88-105 | one click per beat |
| MetronomeScheduler.TonesOfAt | src/components/metronome/Metronome.tsx:88-105 | click k is the click of beat k |
| MetronomeScheduler.RunClicks | src/components/metronome/Metronome.tsx:89-105 | from inside the bar, click k of a run sounds at beat k's time for 0.03 s, with accent, downbeat (position 0) or default frequency by bar position |
| MetronomeScheduler.AllBeatsBefore | src/components/metronome/Metronome.tsx:109-112 | if a run's last beat is before the bound, all its beats are |
| MetronomeScheduler.Metronome.constructor | src/components/metronome/Metronome.tsx:44-60 | tempo 120 unless given; falsy options replaced by 4 beats, 500/1000/1400 Hz; no accents, empty queue, time 0, counter 0, stopped, 25 ms timer, 0.1 s lookahead |
| MetronomeScheduler.Metronome.NextNote | src/components/metronome/Metronome.tsx:62-71 | time advances by 60/tempo at the current tempo; counter goes to NextBeat; 0 <= counter < beatsPerBar is preserved |
| MetronomeScheduler.Metronome.ScheduleNote | src/components/metronome/Metronome.tsx:73-106 | exactly one beat {number, beatsPerBar, time, accented iff listed} and its click are appended; earlier entries unchanged |
| MetronomeScheduler.Metronome.Scheduler | src/components/metronome/Metronome.tsx:108-116 | appends exactly the run's beats and their clicks, all before now+0.1; leaves the next time at or past that bound; schedules nothing if the bound held on entry |
| MetronomeScheduler.Metronome.Start | src/components/metronome/Metronome.tsx:118-123 | running, counter 0, first beat 0.05 s after now; nothing else changes |
| MetronomeScheduler.Metronome.Stop | src/components/metronome/Metronome.tsx:125-128 | not running; queue, counter and next time untouched |
| MetronomeScheduler.Metronome.SetTempo | src/components/metronome/Metrnome.Component.tsx:34-38 | the tempo field is overwritten and nothing else changes |
| MetronomeScheduler.Metronome.SetBeatsPerBar | src/components/metronome/Metrnome.Component.tsx:40-44 | the bar length field is overwritten and nothing else changes |
| MetronomeDots.CircleSize | src/components/metronome/MetronomeDots.component.tsx:37 | 100 below sm, 200 at sm but not md, 900 at md but not lg, 1200 at lg |
| MetronomeDots.CircleSizeAtWidth | src/components/metronome/MetronomeDots.component.tsx:33-37 | below the sm breakpoint the size is 100; with ordered breakpoints it is 1200 from lg on and always between 100 and 1200 |
| MetronomeDots.CircleSizeGrowsWithWidth | src/components/metronome/MetronomeDots.component.tsx:33-37 | with breakpoints ordered sm <= md <= lg, a wider window never gets a smaller size |
| MetronomeDots.GetColor | src/components/metronome/MetronomeDots.component.tsx:39-47 | "success" iff current and accented; "primary" iff current and not accented; "secondary" iff not current and accented; "default" iff neither |
| MetronomeDots.Dots | src/components/metronome/MetronomeDots.component.tsx:59-67 | exactly beatsPerBar dots for beats 0..beatsPerBar-1 in order, each coloured by GetColor, each with size circleSize/beatsPerBar |
| MetronomeDots.OneActiveDot | src/components/metronome/MetronomeDots.component.tsx:39-47 | exactly one dot is active (the current beat) when the counter is inside the bar, none otherwise; a dot has an accent colour iff its beat is accented |

## Left out

- Microphone and stream lifecycle: `requestUserMedia`, `attached`, `detached` and `onVisibilityChange`. These are browser I/O and DOM events.
- The `requestAnimationFrame` re-arming in `dispatchAudioData`, the analyser's buffer fill, and the `teoria` note lookup with the `onAudioData` callback. These are foreign calls. The buffer contents are the frame as given, and `DispatchAudioData` returns the detected frequency it passes to the note lookup (the source then hands `onAudioData` the frequency of the nearest note, which is not modelled).
- `Math.sqrt`: the caller supplies the RMS level as the non-negative root of the mean square that the method computes.
- `noteToFrequency`: a table from note names to positive frequencies at 440 Hz is given. The `tuningPitch` argument of `createNote` is always its default in the source and is not modelled.
- Float32 samples and IEEE double arithmetic are modelled as exact reals. NaN, infinities and rounding error are not modelled.
- AudioProcessing.AudioProcessor.AutocorrelateAudioData: requires every string's lag to leave room for the ±10 sweep inside the 2048-sample buffer. Both ends are excluded. At very high sample rates (a lag above 1015) the source reads past the end of the buffer, gets `undefined` and computes NaN. At very low sample rates (a lag of 10 or less) the sweep reaches lags of 0 or below: negative lags read `undefined`, and a lag of 0 matches exactly and gives `sampleRate / 0 = Infinity`. Neither case is modelled.
- GuitarStrings.ChooseTuning: JavaScript object keys inherited from the prototype (such as `"constructor"`) count as unknown names here. The source would pick the inherited value and then fail in `reduce`.
- Autocorrelation.SortByDifference: an insertion sort that keeps keys of equal score in their old order. That matches the stable `Array.prototype.sort`, but stability is not stated as a lemma.
- MetronomeScheduler.Metronome.Scheduler: requires `tempo > 0`. The source does not check this. A tempo of 0 gives an infinite beat length, and a negative tempo never leaves the loop.
- MetronomeScheduler.Metronome.Scheduler: reads the audio clock once, as `now`. The source re-reads `currentTime` on every pass of the loop.
- Oscillators, gain-envelope ramps, `setInterval`/`clearInterval`, the `onTick` callback and `console.log`. Clicks are recorded as `(freq, start, stop)` tones, and the beats passed to `onTick` are the ones appended to the note queue.
- The duplicate `note` field of the beat record is dropped, because it always equals `beatNumber`.
- A negative or fractional `beatsPerBar` makes `Array(beatsPerBar)` throw. `MetronomeDots.Dots` takes a natural number.
- The React components, pages, session storage, media-query hooks and rendered markup. The dots are reduced to beat index, colour and font size.
