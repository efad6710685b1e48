/**
 * The quantities the tuner's autocorrelation works with
 * (src/util/AudioProcessor.tsx, `autocorrelateAudioData`), as functions of
 * one frame of samples: the energy of the frame, the mean absolute
 * difference between the frame and itself shifted by a lag, the per-string
 * ranking update, the ordering of the strings by score, and what the lag
 * sweep around the best string has to pick.
 */
module Autocorrelation {
  import opened GuitarStrings

  /** Samples per frame (the analyser's FFT size). */
  const FFT_SIZE: nat := 2048
  /** Samples compared per lag: half the frame. */
  const SEARCH_SIZE: nat := 1024
  /** Frames quieter than this RMS level are silence. */
  const RMS_MIN: real := 0.008
  /** Rise in RMS over the previous frame that opens an assessment window. */
  const RMS_THRESHOLD: real := 0.006
  /** Length of an assessment window, in the units of the frame timestamp (ms). */
  const ASSESSMENT_RATE: real := 250.0
  /** Half-width of the lag sweep around the best string's lag. */
  const SEARCH_RANGE: int := 10
  /** A lag whose mean difference is below this is taken as an exact match. */
  const TOLERANCE: real := 0.001

  function Abs(x: real): (r: real)
    ensures r >= 0.0 && (r == x || r == -x)
  {
    if x < 0.0 then -x else x
  }

  /** Sum of the squares of the first n samples. */
  function SumOfSquares(frame: seq<real>, n: nat): real
    requires n <= |frame|
  {
    if n == 0 then 0.0 else SumOfSquares(frame, n - 1) + frame[n - 1] * frame[n - 1]
  }

  /** Mean of the squared samples: the square of the frame's RMS level. */
  function MeanSquare(frame: seq<real>): real
    requires |frame| > 0
  {
    SumOfSquares(frame, |frame|) / |frame| as real
  }

  /** Sum over the first n positions i of |frame[i] - frame[i + lag]|. */
  function AbsDiffSum(frame: seq<real>, lag: nat, n: nat): real
    requires n + lag <= |frame|
  {
    if n == 0 then 0.0 else AbsDiffSum(frame, lag, n - 1) + Abs(frame[n - 1] - frame[n - 1 + lag])
  }

  /** The difference the tuner computes for one lag: the mean absolute
    * difference over the first half of the frame. */
  function MeanAbsDiff(frame: seq<real>, lag: nat): real
    requires SEARCH_SIZE + lag <= |frame|
  {
    AbsDiffSum(frame, lag, SEARCH_SIZE) / SEARCH_SIZE as real
  }

  lemma {:induction false} SumOfSquaresNonnegative(frame: seq<real>, n: nat)
    requires n <= |frame|
    ensures SumOfSquares(frame, n) >= 0.0
  {
    if n > 0 {
      SumOfSquaresNonnegative(frame, n - 1);
    }
  }

  /** A difference sum is never negative, and it is zero exactly when the
    * frame repeats itself after `lag` samples over those n positions. */
  lemma {:induction false} AbsDiffSumZeroIffPeriodic(frame: seq<real>, lag: nat, n: nat)
    requires n + lag <= |frame|
    ensures AbsDiffSum(frame, lag, n) >= 0.0
    ensures AbsDiffSum(frame, lag, n) == 0.0 <==> forall i :: 0 <= i < n ==> frame[i] == frame[i + lag]
  {
    if n > 0 {
      AbsDiffSumZeroIffPeriodic(frame, lag, n - 1);
      if AbsDiffSum(frame, lag, n) == 0.0 {
        assert frame[n - 1] == frame[n - 1 + lag];
      }
    }
  }

  /** The mean difference is never negative, and zero exactly for a lag
    * that is a period of the compared half-frame. */
  lemma MeanAbsDiffZeroIffPeriodic(frame: seq<real>, lag: nat)
    requires SEARCH_SIZE + lag <= |frame|
    ensures MeanAbsDiff(frame, lag) >= 0.0
    ensures MeanAbsDiff(frame, lag) == 0.0 <==> forall i :: 0 <= i < SEARCH_SIZE ==> frame[i] == frame[i + lag]
  {
    AbsDiffSumZeroIffPeriodic(frame, lag, SEARCH_SIZE);
  }

  // ---------------------------------------------------------------------
  // Lags that stay inside the frame

  /** A string lag around which the whole sweep stays inside the frame and
    * every swept lag is positive: the sweep's lags run from offset - 10 to
    * offset + 9, and a lag t reads samples up to t + 1023. */
  predicate LagInRange(offset: int) {
    SEARCH_RANGE < offset && offset + SEARCH_RANGE - 1 + SEARCH_SIZE <= FFT_SIZE
  }

  /** A lag t can be compared: it is positive and every sample it reads,
    * up to index t + 1023, is inside the frame. */
  predicate LagFits(t: int) {
    0 < t && t + SEARCH_SIZE <= FFT_SIZE
  }

  /** LagInRange is exactly the condition that every lag of the sweep fits,
    * so no lag the source handles inside the frame is excluded. */
  lemma LagInRangeIsSweepFits(offset: int)
    ensures LagInRange(offset) <==>
      forall t :: offset - SEARCH_RANGE <= t < offset + SEARCH_RANGE ==> LagFits(t)
  {
    if forall t :: offset - SEARCH_RANGE <= t < offset + SEARCH_RANGE ==> LagFits(t) {
      assert LagFits(offset - SEARCH_RANGE);
      assert LagFits(offset + SEARCH_RANGE - 1);
    }
  }

  /** Every listed string exists and its lag is in range. */
  predicate OffsetsInRange(strings: map<string, Note>, keys: seq<string>) {
    forall k :: k in keys ==> k in strings && LagInRange(strings[k].offset)
  }

  // ---------------------------------------------------------------------
  // Per-string ranking

  /** The score one frame adds to a string: its mean difference weighted by
    * its lag, so that lower strings are not favoured by their harmonics. */
  function WeightedDifference(frame: seq<real>, offset: int): (w: real)
    requires |frame| == FFT_SIZE && LagInRange(offset)
    ensures w >= 0.0
  {
    MeanAbsDiffZeroIffPeriodic(frame, offset);
    MeanAbsDiff(frame, offset) * offset as real
  }

  /** One string's assessment: its score is reset first when `reset`, then
    * grows by the frame's weighted difference. */
  function AssessString(strings: map<string, Note>, key: string, frame: seq<real>, reset: bool): (r: map<string, Note>)
    requires |frame| == FFT_SIZE && key in strings && LagInRange(strings[key].offset)
    ensures SameShape(strings, r)
    ensures r[key].difference >= (if reset then 0.0 else strings[key].difference)
    ensures forall k :: k in strings && k != key ==> r[k] == strings[k]
  {
    var note := strings[key];
    var base := if reset then 0.0 else note.difference;
    strings[key := note.(difference := base + WeightedDifference(frame, note.offset))]
  }

  /** AssessString written out with the mean difference d of the string's lag. */
  lemma AssessStringWith(strings: map<string, Note>, key: string, frame: seq<real>, reset: bool, d: real)
    requires |frame| == FFT_SIZE && key in strings && LagInRange(strings[key].offset)
    requires d == MeanAbsDiff(frame, strings[key].offset)
    ensures AssessString(strings, key, frame, reset) ==
      strings[key := strings[key].(difference := (if reset then 0.0 else strings[key].difference) + d * strings[key].offset as real)]
  {
    assert WeightedDifference(frame, strings[key].offset) == d * strings[key].offset as real;
  }

  /** Two string tables with the same strings, names, frequencies and lags:
    * at most the scores differ. */
  predicate SameShape(a: map<string, Note>, b: map<string, Note>) {
    && a.Keys == b.Keys
    && forall k :: k in a ==>
         a[k].noteName == b[k].noteName && a[k].freq == b[k].freq && a[k].offset == b[k].offset
  }

  /** The assessment loop: every listed string in turn, first to last. Only
    * scores change; names, frequencies and lags stay. */
  function Assess(strings: map<string, Note>, keys: seq<string>, frame: seq<real>, reset: bool): (r: map<string, Note>)
    requires |frame| == FFT_SIZE && OffsetsInRange(strings, keys)
    ensures SameShape(strings, r)
    decreases |keys|
  {
    if keys == [] then strings
    else
      var front := Assess(strings, keys[..|keys| - 1], frame, reset);
      var last := keys[|keys| - 1];
      assert last in front && LagInRange(front[last].offset);
      AssessString(front, last, frame, reset)
  }

  /** Assessing one more key of a list extends the assessment of the
    * shorter prefix by that key's update. */
  lemma AssessPrefixStep(strings: map<string, Note>, keys: seq<string>, o: nat, frame: seq<real>, reset: bool)
    requires |frame| == FFT_SIZE && OffsetsInRange(strings, keys) && o < |keys|
    ensures OffsetsInRange(strings, keys[..o]) && OffsetsInRange(strings, keys[..o + 1])
    ensures keys[o] in Assess(strings, keys[..o], frame, reset)
    ensures Assess(strings, keys[..o + 1], frame, reset)
         == AssessString(Assess(strings, keys[..o], frame, reset), keys[o], frame, reset)
  {
    assert keys[..o + 1][..o] == keys[..o];
  }

  /** With each string listed once, an assessment sets the score of every
    * listed string to its base (zero on a reset, the old score otherwise)
    * plus the frame's weighted difference, which never lowers it below that
    * base; unlisted strings are untouched. */
  lemma {:induction false} AssessEffect(strings: map<string, Note>, keys: seq<string>, frame: seq<real>, reset: bool, k: string)
    requires |frame| == FFT_SIZE && OffsetsInRange(strings, keys) && Distinct(keys) && k in strings
    ensures k in keys ==>
      Assess(strings, keys, frame, reset)[k] ==
        strings[k].(difference := (if reset then 0.0 else strings[k].difference) + WeightedDifference(frame, strings[k].offset))
    ensures k in keys ==>
      Assess(strings, keys, frame, reset)[k].difference >= (if reset then 0.0 else strings[k].difference)
    ensures k !in keys ==> Assess(strings, keys, frame, reset)[k] == strings[k]
    decreases |keys|
  {
    if keys != [] {
      var init := keys[..|keys| - 1];
      assert Distinct(init);
      assert OffsetsInRange(strings, init);
      AssessEffect(strings, init, frame, reset, k);
      var last := keys[|keys| - 1];
      if k == last {
        assert k !in init by {
          forall i | 0 <= i < |init| ensures init[i] != k {
            assert keys[i] != keys[|keys| - 1];
          }
        }
      } else {
        if k in keys {
          var i :| 0 <= i < |keys| && keys[i] == k;
          assert init[i] == k;
        }
        if k in init {
          var i :| 0 <= i < |init| && init[i] == k;
          assert keys[i] == k;
        }
      }
    }
  }

  // ---------------------------------------------------------------------
  // Ordering the strings by score (`sortStringKeysByDifference`)

  predicate Scored(strings: map<string, Note>, keys: seq<string>) {
    forall k :: k in keys ==> k in strings
  }

  /** Ascending by score: the best candidate first. */
  predicate SortedByDifference(strings: map<string, Note>, keys: seq<string>)
    requires Scored(strings, keys)
  {
    forall i, j :: 0 <= i < j < |keys| ==> strings[keys[i]].difference <= strings[keys[j]].difference
  }

  /** Insert a key before the first key whose score is not smaller, so that
    * keys of equal score keep their order. */
  function InsertByDifference(strings: map<string, Note>, key: string, sorted: seq<string>): (r: seq<string>)
    requires key in strings && Scored(strings, sorted)
    ensures multiset(r) == multiset(sorted) + multiset{key}
  {
    if sorted == [] then [key]
    else if strings[key].difference <= strings[sorted[0]].difference then [key] + sorted
    else
      assert sorted == [sorted[0]] + sorted[1..];
      [sorted[0]] + InsertByDifference(strings, key, sorted[1..])
  }

  /** The stable sort of the string keys by ascending score. */
  function SortByDifference(strings: map<string, Note>, keys: seq<string>): (r: seq<string>)
    requires Scored(strings, keys)
    ensures multiset(r) == multiset(keys)
  {
    if keys == [] then []
    else
      assert keys == [keys[0]] + keys[1..];
      var rest := SortByDifference(strings, keys[1..]);
      assert Scored(strings, rest) by {
        forall x | x in rest ensures x in strings {
          assert x in multiset(rest);
        }
      }
      InsertByDifference(strings, keys[0], rest)
  }

  /** No listed key scores below v. */
  predicate ScoresAtLeast(strings: map<string, Note>, keys: seq<string>, v: real)
    requires Scored(strings, keys)
  {
    forall x :: x in keys ==> v <= strings[x].difference
  }

  /** The inserted list holds the new key and the old ones, nothing else. */
  lemma InsertMembers(strings: map<string, Note>, key: string, sorted: seq<string>)
    requires key in strings && Scored(strings, sorted)
    ensures forall x :: x in InsertByDifference(strings, key, sorted) <==> x == key || x in sorted
  {
    var r := InsertByDifference(strings, key, sorted);
    forall x ensures x in r <==> x in multiset(r) {}
    forall x ensures x in sorted <==> x in multiset(sorted) {}
  }

  /** A key scoring no more than every key of a sorted list can go in front. */
  lemma PrependKeepsSorted(strings: map<string, Note>, head: string, rest: seq<string>)
    requires head in strings && Scored(strings, rest) && SortedByDifference(strings, rest)
    requires ScoresAtLeast(strings, rest, strings[head].difference)
    ensures Scored(strings, [head] + rest) && SortedByDifference(strings, [head] + rest)
  {
    var r := [head] + rest;
    forall i, j | 0 <= i < j < |r| ensures strings[r[i]].difference <= strings[r[j]].difference {
      assert r[j] == rest[j - 1];
      if i > 0 {
        assert r[i] == rest[i - 1];
      }
    }
  }

  /** Inserting into a sorted list keeps it sorted. */
  lemma {:induction false} InsertKeepsSorted(strings: map<string, Note>, key: string, sorted: seq<string>)
    requires key in strings && Scored(strings, sorted) && SortedByDifference(strings, sorted)
    ensures Scored(strings, InsertByDifference(strings, key, sorted))
    ensures SortedByDifference(strings, InsertByDifference(strings, key, sorted))
  {
    InsertMembers(strings, key, sorted);
    if sorted == [] || strings[key].difference <= strings[sorted[0]].difference {
      if sorted != [] {
        assert ScoresAtLeast(strings, sorted, strings[key].difference) by {
          forall x | x in sorted ensures strings[key].difference <= strings[x].difference {
            var m :| 0 <= m < |sorted| && sorted[m] == x;
            if m > 0 {
              assert strings[sorted[0]].difference <= strings[sorted[m]].difference;
            }
          }
        }
      }
      PrependKeepsSorted(strings, key, sorted);
    } else {
      var head, tail := sorted[0], sorted[1..];
      assert SortedByDifference(strings, tail) by {
        forall i, j | 0 <= i < j < |tail| ensures strings[tail[i]].difference <= strings[tail[j]].difference {
          assert tail[i] == sorted[i + 1] && tail[j] == sorted[j + 1];
        }
      }
      InsertKeepsSorted(strings, key, tail);
      InsertMembers(strings, key, tail);
      var rest := InsertByDifference(strings, key, tail);
      assert ScoresAtLeast(strings, tail, strings[head].difference) by {
        forall x | x in tail ensures strings[head].difference <= strings[x].difference {
          var m :| 0 <= m < |tail| && tail[m] == x;
          assert sorted[m + 1] == x;
        }
      }
      assert ScoresAtLeast(strings, rest, strings[head].difference);
      PrependKeepsSorted(strings, head, rest);
    }
  }

  /** The sorted keys are in ascending order of score. */
  lemma {:induction false} SortIsSorted(strings: map<string, Note>, keys: seq<string>)
    requires Scored(strings, keys)
    ensures Scored(strings, SortByDifference(strings, keys))
    ensures SortedByDifference(strings, SortByDifference(strings, keys))
  {
    if keys != [] {
      assert keys == [keys[0]] + keys[1..];
      SortIsSorted(strings, keys[1..]);
      InsertKeepsSorted(strings, keys[0], SortByDifference(strings, keys[1..]));
    }
  }

  /** A list is free of repeats exactly when no element occurs twice in its multiset. */
  lemma {:induction false} DistinctIffSingleOccurrences(keys: seq<string>)
    ensures Distinct(keys) <==> forall x :: multiset(keys)[x] <= 1
  {
    if keys != [] {
      var tail := keys[1..];
      assert keys == [keys[0]] + tail;
      DistinctIffSingleOccurrences(tail);
      if Distinct(keys) {
        assert Distinct(tail);
        assert keys[0] !in tail by {
          forall i | 0 <= i < |tail| ensures tail[i] != keys[0] {
            assert tail[i] == keys[i + 1];
          }
        }
      } else {
        var i, j :| 0 <= i < j < |keys| && keys[i] == keys[j];
        if i == 0 {
          assert keys[j] == tail[j - 1];
          assert multiset(keys)[keys[0]] >= 2;
        } else {
          assert tail[i - 1] == keys[i] && tail[j - 1] == keys[j];
          assert !Distinct(tail);
          var x :| multiset(tail)[x] > 1;
          assert multiset(keys)[x] >= multiset(tail)[x];
        }
      }
    }
  }

  /** Sorting a list of distinct keys leaves them distinct. */
  lemma SortKeepsDistinct(strings: map<string, Note>, keys: seq<string>)
    requires Scored(strings, keys) && Distinct(keys)
    ensures Distinct(SortByDifference(strings, keys))
  {
    DistinctIffSingleOccurrences(keys);
    DistinctIffSingleOccurrences(SortByDifference(strings, keys));
  }

  /** A ranking of a string table: every string listed exactly once. */
  predicate IsRanking(strings: map<string, Note>, keys: seq<string>) {
    && |keys| > 0
    && Distinct(keys)
    && (forall k :: k in keys ==> k in strings)
    && (forall k :: k in strings ==> k in keys)
  }

  /** Changing scores only keeps a ranking and its lags valid. */
  lemma RankingSurvivesAssessment(a: map<string, Note>, b: map<string, Note>, keys: seq<string>)
    requires SameShape(a, b) && IsRanking(a, keys) && OffsetsInRange(a, keys)
    ensures IsRanking(b, keys) && OffsetsInRange(b, keys)
  {
  }

  /** Re-ranking by score gives a ranking of the same table. */
  lemma SortedRankingIsRanking(strings: map<string, Note>, keys: seq<string>)
    requires IsRanking(strings, keys) && OffsetsInRange(strings, keys)
    ensures Scored(strings, keys)
    ensures IsRanking(strings, SortByDifference(strings, keys)) && OffsetsInRange(strings, SortByDifference(strings, keys))
  {
    var r := SortByDifference(strings, keys);
    SortKeepsDistinct(strings, keys);
    forall k ensures k in r <==> k in keys {
      assert k in r <==> k in multiset(r);
      assert k in keys <==> k in multiset(keys);
    }
    assert |r| == |multiset(r)| == |multiset(keys)| == |keys|;
  }

  // ---------------------------------------------------------------------
  // The ranking state one non-silent frame leaves behind

  /** The detector's ranking state: the end of the assessment window, whether
    * the last frame assessed the strings, the string table and the key order. */
  datatype Ranking = Ranking(until: real, assessing: bool, strings: map<string, Note>, keys: seq<string>)

  /** Reopen the window for 250 ms from `time` when the level rose by more
    * than `rmsThreshold` over the previous frame's `lastRms`. */
  function OpenWindow(r: Ranking, time: real, rms: real, lastRms: real, rmsThreshold: real): (next: Ranking)
    ensures next.assessing == r.assessing && next.strings == r.strings && next.keys == r.keys
    ensures rms > lastRms + rmsThreshold ==> next.until == time + ASSESSMENT_RATE
    ensures rms <= lastRms + rmsThreshold ==> next.until == r.until
  {
    if rms > lastRms + rmsThreshold then r.(until := time + ASSESSMENT_RATE) else r
  }

  /** While the window is open, score every string (from zero when the
    * previous frame was not scoring); record whether this frame scored. */
  function ScoreWhileOpen(r: Ranking, time: real, frame: seq<real>, wasAssessing: bool): (next: Ranking)
    requires |frame| == FFT_SIZE && OffsetsInRange(r.strings, r.keys)
    ensures SameShape(r.strings, next.strings) && next.keys == r.keys && next.until == r.until
  {
    if time < r.until then r.(assessing := true, strings := Assess(r.strings, r.keys, frame, !wasAssessing))
    else r.(assessing := false)
  }

  /** On the first frame after scoring stops, sort the keys by score. */
  function ReorderOnClose(r: Ranking, wasAssessing: bool): (next: Ranking)
    requires Scored(r.strings, r.keys)
    ensures next.until == r.until && next.assessing == r.assessing && next.strings == r.strings
    ensures multiset(next.keys) == multiset(r.keys)
    ensures !(wasAssessing && !r.assessing) ==> next.keys == r.keys
  {
    if wasAssessing && !r.assessing then r.(keys := SortByDifference(r.strings, r.keys)) else r
  }

  /** The ranking part of a non-silent frame at `time` with level `rms`, the
    * previous frame's level being `lastRms`: the window is reopened for 250 ms
    * on a rise of more than `rmsThreshold`; while it is open every string is
    * scored (from zero when the previous frame was not scoring); on the first
    * frame after it closes the keys are re-sorted by score. */
  function RankFrame(r: Ranking, time: real, rms: real, lastRms: real, rmsThreshold: real, frame: seq<real>): (next: Ranking)
    requires |frame| == FFT_SIZE && OffsetsInRange(r.strings, r.keys)
    ensures SameShape(r.strings, next.strings)
  {
    var scored := ScoreWhileOpen(OpenWindow(r, time, rms, lastRms, rmsThreshold), time, frame, r.assessing);
    assert Scored(scored.strings, scored.keys);
    ReorderOnClose(scored, r.assessing)
  }

  /** A rise in level of more than the threshold always makes the frame an
    * assessing one; otherwise the window end stays, and the frame assesses
    * exactly when it falls before that end. */
  lemma RankFrameWindow(r: Ranking, time: real, rms: real, lastRms: real, rmsThreshold: real, frame: seq<real>)
    requires |frame| == FFT_SIZE && OffsetsInRange(r.strings, r.keys)
    ensures var next := RankFrame(r, time, rms, lastRms, rmsThreshold, frame);
      && (rms > lastRms + rmsThreshold ==> next.assessing && next.until == time + ASSESSMENT_RATE)
      && (rms <= lastRms + rmsThreshold ==> next.until == r.until && (next.assessing <==> time < r.until))
  {
  }

  /** A frame keeps a ranking a ranking: every string listed exactly once,
    * every lag inside the sweep's room. */
  lemma RankFrameKeepsRanking(r: Ranking, time: real, rms: real, lastRms: real, rmsThreshold: real, frame: seq<real>)
    requires |frame| == FFT_SIZE && IsRanking(r.strings, r.keys) && OffsetsInRange(r.strings, r.keys)
    ensures var next := RankFrame(r, time, rms, lastRms, rmsThreshold, frame);
      IsRanking(next.strings, next.keys) && OffsetsInRange(next.strings, next.keys)
  {
    var next := RankFrame(r, time, rms, lastRms, rmsThreshold, frame);
    RankingSurvivesAssessment(r.strings, next.strings, r.keys);
    SortedRankingIsRanking(next.strings, r.keys);
  }

  /** The key order changes only on the frame where assessing stops, and
    * then becomes a permutation of the old order ascending by score. */
  lemma RankFrameOrder(r: Ranking, time: real, rms: real, lastRms: real, rmsThreshold: real, frame: seq<real>)
    requires |frame| == FFT_SIZE && OffsetsInRange(r.strings, r.keys)
    ensures var next := RankFrame(r, time, rms, lastRms, rmsThreshold, frame);
      && (!(r.assessing && !next.assessing) ==> next.keys == r.keys)
      && (r.assessing && !next.assessing ==>
            && multiset(next.keys) == multiset(r.keys)
            && Scored(next.strings, next.keys)
            && SortedByDifference(next.strings, next.keys))
  {
    var next := RankFrame(r, time, rms, lastRms, rmsThreshold, frame);
    if r.assessing && !next.assessing {
      SortIsSorted(next.strings, r.keys);
    }
  }

  /** While assessing, each listed string's score becomes its base (zero
    * when the previous frame was not assessing, its old score otherwise)
    * plus the frame's weighted difference at its lag; otherwise no score
    * changes. */
  lemma RankFrameScores(r: Ranking, time: real, rms: real, lastRms: real, rmsThreshold: real, frame: seq<real>, k: string)
    requires |frame| == FFT_SIZE && IsRanking(r.strings, r.keys) && OffsetsInRange(r.strings, r.keys)
    requires k in r.strings
    ensures var next := RankFrame(r, time, rms, lastRms, rmsThreshold, frame);
      && (next.assessing ==>
            next.strings[k].difference
              == (if r.assessing then r.strings[k].difference else 0.0) + WeightedDifference(frame, r.strings[k].offset))
      && (!next.assessing ==> next.strings == r.strings)
  {
    AssessEffect(r.strings, r.keys, frame, !r.assessing, k);
  }

  // ---------------------------------------------------------------------
  // The lag sweep around the best string

  /** What the sweep over the lags [center - 10, center + 10) picks: the
    * first lag whose difference is below the tolerance (the sweep stops
    * there), or else the first lag of smallest difference. Every lag before
    * the pick was examined, was not under the tolerance and was strictly
    * worse; every lag after it, when the sweep did not stop early, is no
    * better. */
  predicate IsSweepLag(frame: seq<real>, center: int, lag: int)
    requires |frame| == FFT_SIZE && LagInRange(center)
    ensures IsSweepLag(frame, center, lag) ==> 0 < lag && lag + SEARCH_SIZE <= FFT_SIZE
  {
    && center - SEARCH_RANGE <= lag < center + SEARCH_RANGE
    && (forall t :: center - SEARCH_RANGE <= t < lag ==>
          TOLERANCE <= MeanAbsDiff(frame, t) && MeanAbsDiff(frame, lag) < MeanAbsDiff(frame, t))
    && (MeanAbsDiff(frame, lag) < TOLERANCE ||
        forall t :: lag < t < center + SEARCH_RANGE ==> MeanAbsDiff(frame, lag) <= MeanAbsDiff(frame, t))
  }

  /** The sweep's pick is determined by the frame and the center. */
  lemma SweepLagUnique(frame: seq<real>, center: int, a: int, b: int)
    requires |frame| == FFT_SIZE && LagInRange(center)
    requires IsSweepLag(frame, center, a) && IsSweepLag(frame, center, b)
    ensures a == b
  {
  }

  /** A frame that repeats itself after p samples, p inside the sweep, is
    * matched: the pick is at most p and is under the tolerance, so the
    * detected frequency is sampleRate / p or a higher one. */
  lemma SweepFindsPeriod(frame: seq<real>, center: int, p: int, lag: int)
    requires |frame| == FFT_SIZE && LagInRange(center)
    requires center - SEARCH_RANGE <= p < center + SEARCH_RANGE
    requires forall i :: 0 <= i < SEARCH_SIZE ==> frame[i] == frame[i + p]
    requires IsSweepLag(frame, center, lag)
    ensures lag <= p && MeanAbsDiff(frame, lag) < TOLERANCE
  {
    MeanAbsDiffZeroIffPeriodic(frame, p);
  }
}
