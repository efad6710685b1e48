/**
 * The tuner's per-frame pitch detector (class `AudioProcessor` of
 * src/util/AudioProcessor.tsx). Each animation frame the analyser fills the
 * frame buffer and `AutocorrelateAudioData` turns it into a frequency: a
 * silence gate, a time-boxed window in which every string of the tuning is
 * scored against the frame, a re-ranking of the strings when the window
 * closes, and a lag sweep around the best-ranked string.
 *
 * The buffer is filled by the browser's analyser before each call; its
 * contents at the time of the call are the frame. `Math.sqrt` is external:
 * the caller supplies the frame's RMS level `rms`, the non-negative square
 * root of the mean square that the method computes itself.
 */
module AudioProcessing {
  import opened Wrappers
  import opened GuitarStrings
  import opened Autocorrelation

  class AudioProcessor {
    /** The audio context's sample rate. */
    var sampleRate: real
    var frequencyBuffer: array<real>
    var strings: map<string, Note>
    var stringsKeys: seq<string>
    var lastRms: real
    var rmsThreshold: real
    var assessedStringsInLastFrame: bool
    var assessStringsUntilTime: real
    var sendingAudioData: bool

    /** The shape every frame relies on: a full-size buffer, a non-empty
      * ranking listing every string exactly once. */
    ghost predicate Valid()
      reads this`sampleRate, this`frequencyBuffer, this`strings, this`stringsKeys
    {
      && sampleRate > 0.0
      && frequencyBuffer.Length == FFT_SIZE
      && IsRanking(strings, stringsKeys)
    }

    /** Every string's lag leaves room for the sweep inside the buffer. */
    ghost predicate LagsFit()
      reads this`strings, this`stringsKeys
    {
      OffsetsInRange(strings, stringsKeys)
    }

    /** The ranking state: window end, assessing flag, strings and key order. */
    function CurrentRanking(): Ranking
      reads this`assessStringsUntilTime, this`assessedStringsInLastFrame, this`strings, this`stringsKeys
    {
      Ranking(assessStringsUntilTime, assessedStringsInLastFrame, strings, stringsKeys)
    }

    /** The detector for a context of the given sample rate, ranking the
      * strings of standard tuning in their listed order. */
    constructor (sampleRate: real, pitchTable: map<string, real>)
      requires sampleRate > 0.0
      requires Priced(STANDARD, pitchTable)
      ensures Valid() && fresh(frequencyBuffer)
      ensures this.sampleRate == sampleRate
      ensures frequencyBuffer[..] == seq(FFT_SIZE, _ => 0.0)
      ensures strings == CreateGuitarStrings(sampleRate, None, pitchTable)
      ensures stringsKeys == STANDARD
      ensures lastRms == 0.0 && rmsThreshold == RMS_THRESHOLD
      ensures !assessedStringsInLastFrame && assessStringsUntilTime == 0.0
      ensures !sendingAudioData
    {
      this.sampleRate := sampleRate;
      frequencyBuffer := new real[FFT_SIZE](_ => 0.0);
      strings := CreateGuitarStrings(sampleRate, None, pitchTable);
      stringsKeys := STANDARD;
      lastRms := 0.0;
      rmsThreshold := RMS_THRESHOLD;
      assessedStringsInLastFrame := false;
      assessStringsUntilTime := 0.0;
      sendingAudioData := false;
      new;
      TuningsAreDistinct();
      assert TUNINGS["standard"] == STANDARD;
    }

    /** The mean square of the frame: the quantity whose square root is the
      * RMS level. */
    method MeanSquareOfFrame() returns (ms: real)
      requires frequencyBuffer.Length == FFT_SIZE
      ensures ms == MeanSquare(frequencyBuffer[..])
      ensures ms >= 0.0
    {
      ms := 0.0;
      var d := 0;
      while d < frequencyBuffer.Length
        invariant 0 <= d <= frequencyBuffer.Length
        invariant ms == SumOfSquares(frequencyBuffer[..], d)
      {
        ms := ms + frequencyBuffer[d] * frequencyBuffer[d];
        d := d + 1;
      }
      assert frequencyBuffer[..][..] == frequencyBuffer[..];
      SumOfSquaresNonnegative(frequencyBuffer[..], frequencyBuffer.Length);
      ms := ms / frequencyBuffer.Length as real;
    }

    /** The mean absolute difference between the first half of the frame
      * and the frame shifted by `lag`. */
    method FrameDifference(lag: nat) returns (difference: real)
      requires frequencyBuffer.Length == FFT_SIZE && SEARCH_SIZE + lag <= FFT_SIZE
      ensures difference == MeanAbsDiff(frequencyBuffer[..], lag)
    {
      difference := 0.0;
      var i := 0;
      while i < SEARCH_SIZE
        invariant 0 <= i <= SEARCH_SIZE
        invariant difference == AbsDiffSum(frequencyBuffer[..], lag, i)
      {
        difference := difference + Abs(frequencyBuffer[i] - frequencyBuffer[i + lag]);
        i := i + 1;
      }
      difference := difference / SEARCH_SIZE as real;
    }

    /** One pass of the assessment loop: the string's score is reset first
      * when asked, then grows by its lag times the frame's mean difference
      * at that lag. */
    method AssessOneString(offsetKey: string, reset: bool)
      requires frequencyBuffer.Length == FFT_SIZE
      requires offsetKey in strings && LagInRange(strings[offsetKey].offset)
      modifies this`strings
      ensures strings == AssessString(old(strings), offsetKey, frequencyBuffer[..], reset)
    {
      var note := strings[offsetKey];
      var offset := note.offset;
      if reset {
        note := note.(difference := 0.0);
        strings := strings[offsetKey := note];
      }
      var difference := FrameDifference(offset);
      AssessStringWith(old(strings), offsetKey, frequencyBuffer[..], reset, difference);
      note := note.(difference := note.difference + difference * offset as real);
      strings := strings[offsetKey := note];
      assert strings == old(strings)[offsetKey := note];
      assert note == old(strings)[offsetKey].(difference := (if reset then 0.0 else old(strings)[offsetKey].difference) + difference * offset as real);
    }

    /** The assessment loop: every string in the ranking order, first to
      * last. */
    method AssessStrings(reset: bool)
      requires frequencyBuffer.Length == FFT_SIZE && OffsetsInRange(strings, stringsKeys)
      modifies this`strings
      ensures strings == Assess(old(strings), stringsKeys, frequencyBuffer[..], reset)
    {
      var o := 0;
      while o < |stringsKeys|
        invariant 0 <= o <= |stringsKeys|
        invariant strings == Assess(old(strings), stringsKeys[..o], frequencyBuffer[..], reset)
      {
        AssessPrefixStep(old(strings), stringsKeys, o, frequencyBuffer[..], reset);
        AssessOneString(stringsKeys[o], reset);
        o := o + 1;
      }
      assert stringsKeys[..o] == stringsKeys;
    }

    /** The sweep of the lags [center - 10, center + 10): keeps the first
      * lag of smallest difference and stops at the first lag under the
      * tolerance. */
    method RefineLag(center: int) returns (lag: int)
      requires frequencyBuffer.Length == FFT_SIZE && LagInRange(center)
      ensures IsSweepLag(frequencyBuffer[..], center, lag)
    {
      var searchStart := center - SEARCH_RANGE;
      var searchEnd := center + SEARCH_RANGE;
      lag := center;
      var smallestDifference: Option<real> := None;  // None stands for +infinity
      var s := searchStart;
      while s < searchEnd
        invariant searchStart <= s <= searchEnd
        invariant smallestDifference.None? <==> s == searchStart
        invariant smallestDifference.Some? ==>
          searchStart <= lag < s && smallestDifference.value == MeanAbsDiff(frequencyBuffer[..], lag)
        invariant forall t :: searchStart <= t < s ==> TOLERANCE <= MeanAbsDiff(frequencyBuffer[..], t)
        invariant smallestDifference.Some? ==>
          forall t :: searchStart <= t < lag ==> MeanAbsDiff(frequencyBuffer[..], lag) < MeanAbsDiff(frequencyBuffer[..], t)
        invariant smallestDifference.Some? ==>
          forall t :: lag < t < s ==> MeanAbsDiff(frequencyBuffer[..], lag) <= MeanAbsDiff(frequencyBuffer[..], t)
      {
        var difference := FrameDifference(s);
        if smallestDifference.None? || difference < smallestDifference.value {
          smallestDifference := Some(difference);
          lag := s;
        }
        if difference < TOLERANCE {
          lag := s;
          break;
        }
        s := s + 1;
      }
    }

    /** The re-ranking on the first frame after a window closes: the
      * `stringsKeys.sort(...)` call, with `sortStringKeysByDifference` as its
      * comparator, leaving the keys sorted by ascending score. */
    method SortStringKeysByDifference()
      requires Valid() && LagsFit()
      modifies this`stringsKeys
      ensures Valid() && LagsFit()
      ensures stringsKeys == SortByDifference(strings, old(stringsKeys))
    {
      SortedRankingIsRanking(strings, stringsKeys);
      stringsKeys := SortByDifference(strings, stringsKeys);
    }

    /** Reopen the assessment window for 250 ms from `time` when the level
      * rose by more than the threshold over the previous frame's. */
    method OpenWindowOnRise(time: real, rms: real)
      modifies this`assessStringsUntilTime
      ensures CurrentRanking() == OpenWindow(old(CurrentRanking()), time, rms, lastRms, rmsThreshold)
    {
      if rms > lastRms + rmsThreshold {
        assessStringsUntilTime := time + ASSESSMENT_RATE;
      }
    }

    /** While the window is open, score every string (from zero when the
      * previous frame was not scoring) and mark the frame as scoring;
      * otherwise only mark it as not scoring. */
    method ScoreWhileWindowOpen(time: real, wasAssessing: bool)
      requires Valid() && LagsFit()
      modifies this`assessedStringsInLastFrame, this`strings
      ensures Valid() && LagsFit()
      ensures CurrentRanking() == ScoreWhileOpen(old(CurrentRanking()), time, frequencyBuffer[..], wasAssessing)
    {
      ghost var before := strings;
      if time < assessStringsUntilTime {
        assessedStringsInLastFrame := true;
        AssessStrings(!wasAssessing);
        RankingSurvivesAssessment(before, strings, stringsKeys);
      } else {
        assessedStringsInLastFrame := false;
      }
    }

    /** On the first frame after scoring stops, re-rank the strings. */
    method ReorderWhenClosed(wasAssessing: bool)
      requires Valid() && LagsFit()
      modifies this`stringsKeys
      ensures Valid() && LagsFit()
      ensures CurrentRanking() == ReorderOnClose(old(CurrentRanking()), wasAssessing)
    {
      if wasAssessing && !assessedStringsInLastFrame {
        SortStringKeysByDifference();
      }
    }

    /** The ranking part of a non-silent frame: reopen the window when the
      * level rose by more than the threshold, score the strings while the
      * window is open (from zero when the previous frame was not scoring),
      * and re-rank them on the first frame after the window closes. */
    method RankStrings(time: real, rms: real)
      requires Valid() && LagsFit()
      modifies this`assessStringsUntilTime, this`assessedStringsInLastFrame, this`strings, this`stringsKeys
      ensures Valid() && LagsFit()
      ensures CurrentRanking() == RankFrame(old(CurrentRanking()), time, rms, lastRms, rmsThreshold, frequencyBuffer[..])
    {
      ghost var frame := frequencyBuffer[..];
      var wasAssessing := assessedStringsInLastFrame;
      OpenWindowOnRise(time, rms);
      ScoreWhileWindowOpen(time, wasAssessing);
      ReorderWhenClosed(wasAssessing);
      assert frame == frequencyBuffer[..];
    }

    /** One frame of detection at timestamp `time` (ms). A silent frame
      * (RMS below 0.008) yields 0 and changes nothing. Otherwise the strings
      * are ranked (see RankStrings), the level is remembered, and the result
      * is the sample rate over the lag the sweep around the best-ranked
      * string picks. */
    method AutocorrelateAudioData(time: real, rms: real) returns (frequency: real)
      requires Valid() && LagsFit()
      requires 0.0 <= rms && rms * rms == MeanSquare(frequencyBuffer[..])
      modifies this`lastRms, this`assessStringsUntilTime, this`assessedStringsInLastFrame,
               this`strings, this`stringsKeys
      ensures Valid() && LagsFit()
      ensures rms < RMS_MIN ==>
        && frequency == 0.0
        && lastRms == old(lastRms)
        && assessStringsUntilTime == old(assessStringsUntilTime)
        && assessedStringsInLastFrame == old(assessedStringsInLastFrame)
        && strings == old(strings)
        && stringsKeys == old(stringsKeys)
      ensures RMS_MIN <= rms ==>
        && lastRms == rms
        && CurrentRanking() == RankFrame(old(CurrentRanking()), time, rms, old(lastRms), rmsThreshold, frequencyBuffer[..])
      ensures RMS_MIN <= rms ==>
        exists lag :: IsSweepLag(frequencyBuffer[..], strings[stringsKeys[0]].offset, lag) &&
          frequency == sampleRate / lag as real
      ensures RMS_MIN <= rms ==> frequency > 0.0
    {
      var ms := MeanSquareOfFrame();
      SilenceGate(rms, ms);
      if ms < RMS_MIN * RMS_MIN {
        return 0.0;
      }

      ghost var frame := frequencyBuffer[..];
      RankStrings(time, rms);
      ghost var ranked := CurrentRanking();

      var center := strings[stringsKeys[0]].offset;
      var lag := RefineLag(center);
      lastRms := rms;
      frequency := sampleRate / lag as real;
      assert frame == frequencyBuffer[..];
      assert CurrentRanking() == ranked;
    }

    /** `dispatchAudioData`: the frequency handed on to the note lookup, or
      * nothing for a frame whose frequency is 0. */
    method DispatchAudioData(time: real, rms: real) returns (detected: Option<real>)
      requires Valid() && LagsFit()
      requires 0.0 <= rms && rms * rms == MeanSquare(frequencyBuffer[..])
      modifies this`lastRms, this`assessStringsUntilTime, this`assessedStringsInLastFrame,
               this`strings, this`stringsKeys
      ensures Valid() && LagsFit()
      ensures detected.None? <==> rms < RMS_MIN
      ensures detected.Some? ==> detected.value > 0.0 && lastRms == rms
      ensures rms < RMS_MIN ==> lastRms == old(lastRms) && CurrentRanking() == old(CurrentRanking())
      ensures RMS_MIN <= rms ==>
        && CurrentRanking() == RankFrame(old(CurrentRanking()), time, rms, old(lastRms), rmsThreshold, frequencyBuffer[..])
        && exists lag :: IsSweepLag(frequencyBuffer[..], strings[stringsKeys[0]].offset, lag) &&
             detected == Some(sampleRate / lag as real)
    {
      var frequency := AutocorrelateAudioData(time, rms);
      if frequency == 0.0 {
        return None;
      }
      detected := Some(frequency);
    }
  }

  /** For a non-negative rms whose square is the mean square ms, comparing
    * ms with 0.008 squared is the same as comparing rms with 0.008. */
  lemma SilenceGate(rms: real, ms: real)
    requires 0.0 <= rms && rms * rms == ms
    ensures ms < RMS_MIN * RMS_MIN <==> rms < RMS_MIN
  {
    if rms < RMS_MIN {
      assert rms * rms <= rms * RMS_MIN < RMS_MIN * RMS_MIN;
    } else {
      assert rms * rms >= rms * RMS_MIN >= RMS_MIN * RMS_MIN;
    }
  }
}
