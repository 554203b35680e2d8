/**
 * The latency recorder shared by the WebSocket and HTTP clients.
 *
 * Each client classifies every inbound frame or line as a `Step`: nothing to do,
 * an audio payload, the end of the stream, or a failure that abandons the call.
 * It reads steps until the first that ends the stream, notes the clock reading of
 * the first audio payload, and adds up the payload lengths. The functions here say
 * declaratively what that reading produces over the first `n` steps of `s`; each
 * client's loop is proved equal to them.
 */
module Latency {
  import opened Wrappers
  import opened Seqs

  datatype Step = Skip | Audio(bytes: seq<bv8>) | Stop | Abort

  /** A step and the clock reading taken while it is handled. */
  datatype Timed = Timed(step: Step, at: nat)

  /** `{"ttfb": ..., "total_time": ..., "audio_bytes": ...}`, in clock ticks. */
  datatype Metrics = Metrics(ttfb: Option<int>, totalTime: int, audioBytes: nat)

  predicate Ends(t: Timed)
  {
    t.step.Stop? || t.step.Abort?
  }

  predicate IsAudio(t: Timed)
  {
    t.step.Audio?
  }

  /** The index of the step that ends the stream, or `|s|` when none does. */
  function StopIndex(s: seq<Timed>): nat
  {
    FirstFrom(s, 0, Ends)
  }

  /** Whether the stream ends in a failure: an aborting step comes first, or the steps run out
      and the connection did not end normally. */
  predicate Failed(s: seq<Timed>, endsNormally: bool)
  {
    if StopIndex(s) < |s| then s[StopIndex(s)].step.Abort? else !endsNormally
  }

  /** How many steps of `s` are read: up to and including the one that ends the stream. */
  function ReadCount(s: seq<Timed>): (n: nat)
    ensures n <= |s|
  {
    if StopIndex(s) < |s| then StopIndex(s) + 1 else |s|
  }

  /** The audio payloads among the first `n` steps, in arrival order. */
  function ChunksTo(s: seq<Timed>, n: nat): seq<seq<bv8>>
    requires n <= |s|
  {
    if n == 0 then []
    else ChunksTo(s, n - 1) + (if IsAudio(s[n - 1]) then [s[n - 1].step.bytes] else [])
  }

  /** The running byte total over the first `n` steps. */
  function AudioBytes(s: seq<Timed>, n: nat): nat
    requires n <= |s|
  {
    if n == 0 then 0
    else AudioBytes(s, n - 1) + (if IsAudio(s[n - 1]) then |s[n - 1].step.bytes| else 0)
  }

  /** The index of the first audio step of `s`, or `|s|` when there is none. */
  function FirstAudio(s: seq<Timed>): nat
  {
    FirstFrom(s, 0, IsAudio)
  }

  /** The clock reading of the first audio step among the first `n`, if there is one. */
  function FirstAudioAt(s: seq<Timed>, n: nat): Option<nat>
    requires n <= |s|
  {
    if FirstAudio(s) < n then Some(s[FirstAudio(s)].at) else None
  }

  /** `time.time() - start_time` at a clock reading, or `None` when there was none. */
  function Since(t: Option<nat>, start: nat): Option<int>
  {
    if t.Some? then Some(t.value - start) else None
  }

  /** The metrics of the first `n` steps, timed from `start` to `endAt`. */
  function Measure(s: seq<Timed>, n: nat, start: nat, endAt: nat): Metrics
    requires n <= |s|
  {
    Metrics(Since(FirstAudioAt(s, n), start), endAt - start, AudioBytes(s, n))
  }

  /** The returned metrics, those of the steps before the one that ends the stream, or `None`
      when the stream ends in a failure. */
  function Outcome(s: seq<Timed>, endsNormally: bool, start: nat, endAt: nat): Option<Metrics>
  {
    if Failed(s, endsNormally) then None else Some(Measure(s, StopIndex(s), start, endAt))
  }

  /** Whether the clock readings of the first `n` steps lie between `start` and `endAt`, as
      with a clock that never goes back and is read at `start` before the steps and at `endAt`
      after them. */
  predicate Within(s: seq<Timed>, n: nat, start: nat, endAt: nat)
    requires n <= |s|
  {
    start <= endAt && forall i | 0 <= i < n :: start <= s[i].at <= endAt
  }
}


/** What the recorder promises, proved about the functions above. */
module LatencyFacts {
  import opened Wrappers
  import opened Seqs
  import opened Latency

  /** Handling one more step of a stream that goes on: an audio step adds its bytes to the
      total and sets the time to first byte unless an earlier step set it; any other step
      changes nothing. */
  lemma MeasureStep(s: seq<Timed>, n: nat, start: nat, endAt: nat)
    requires n < |s|
    ensures Measure(s, n + 1, start, endAt).audioBytes ==
      Measure(s, n, start, endAt).audioBytes + (if IsAudio(s[n]) then |s[n].step.bytes| else 0)
    ensures Measure(s, n + 1, start, endAt).ttfb ==
      if Measure(s, n, start, endAt).ttfb.None? && IsAudio(s[n]) then Some(s[n].at - start)
      else Measure(s, n, start, endAt).ttfb
    ensures Measure(s, n + 1, start, endAt).totalTime == Measure(s, n, start, endAt).totalTime
  {
    FirstAudioAtStep(s, n);
  }

  /** The first audio reading is set by the first audio step and kept afterwards. */
  lemma FirstAudioAtStep(s: seq<Timed>, n: nat)
    requires n < |s|
    ensures FirstAudioAt(s, n + 1) ==
      if FirstAudioAt(s, n).None? && IsAudio(s[n]) then Some(s[n].at) else FirstAudioAt(s, n)
  {
    FirstFromSkips(s, 0, IsAudio);
  }

  /** The step at `n` ends the stream when no earlier step did: exactly `n + 1` steps are
      read, and the call fails exactly when that step aborts it. */
  lemma StopsAt(s: seq<Timed>, n: nat, endsNormally: bool)
    requires n < |s| && n <= StopIndex(s) && Ends(s[n])
    ensures StopIndex(s) == n
    ensures ReadCount(s) == n + 1
    ensures Failed(s, endsNormally) == s[n].step.Abort?
  {
    FirstFromSkips(s, 0, Ends);
  }

  /** `audio_bytes` is the sum of the lengths of the payloads. */
  lemma {:induction false} AudioBytesIsSumLen(s: seq<Timed>, n: nat)
    requires n <= |s|
    ensures AudioBytes(s, n) == SumLen(ChunksTo(s, n))
  {
    if n > 0 {
      AudioBytesIsSumLen(s, n - 1);
      if IsAudio(s[n - 1]) {
        SumLenAppend(ChunksTo(s, n - 1), [s[n - 1].step.bytes]);
        SumLenSingle(s[n - 1].step.bytes);
      } else {
        assert ChunksTo(s, n - 1) + [] == ChunksTo(s, n - 1);
      }
    }
  }

  /** The time to first byte is unset exactly when there is no payload, and otherwise it is
      the reading of the step that delivered the first payload. */
  lemma {:induction false} FirstAudioIsFirstChunk(s: seq<Timed>, n: nat)
    requires n <= |s|
    ensures FirstAudioAt(s, n).None? <==> ChunksTo(s, n) == []
    ensures ChunksTo(s, n) != [] ==>
      FirstAudio(s) < n && ChunksTo(s, n)[0] == s[FirstAudio(s)].step.bytes
  {
    FirstFromSkips(s, 0, IsAudio);
    if n > 0 {
      FirstAudioIsFirstChunk(s, n - 1);
      if ChunksTo(s, n - 1) == [] && IsAudio(s[n - 1]) {
        assert FirstAudio(s) == n - 1;
      }
    }
  }

  /** With a clock that never goes back, time to first byte is neither negative nor
      longer than the total time, and the total time is not negative. */
  lemma MeasureBounds(s: seq<Timed>, n: nat, start: nat, endAt: nat)
    requires n <= |s| && Within(s, n, start, endAt)
    ensures Measure(s, n, start, endAt).totalTime >= 0
    ensures Measure(s, n, start, endAt).ttfb.Some? ==>
      0 <= Measure(s, n, start, endAt).ttfb.value <= Measure(s, n, start, endAt).totalTime
  {
  }

  /** Extending the steps beyond the first `n` does not change what the first `n` measure. */
  lemma {:induction false} MeasurePrefix(s: seq<Timed>, t: seq<Timed>, n: nat, start: nat, endAt: nat)
    requires n <= |s|
    ensures ChunksTo(s + t, n) == ChunksTo(s, n)
    ensures AudioBytes(s + t, n) == AudioBytes(s, n)
    ensures FirstAudioAt(s + t, n) == FirstAudioAt(s, n)
    ensures Measure(s + t, n, start, endAt) == Measure(s, n, start, endAt)
  {
    FirstFromSkips(s, 0, IsAudio);
    FirstFromSkips(s + t, 0, IsAudio);
    if n > 0 {
      MeasurePrefix(s, t, n - 1, start, endAt);
      assert (s + t)[n - 1] == s[n - 1];
    }
    if FirstAudio(s) < n {
      assert (s + t)[FirstAudio(s)] == s[FirstAudio(s)];
      FirstFromIs(s + t, 0, IsAudio, FirstAudio(s));
    }
  }

  /** Nothing after the step that ends the stream is read, and how the connection closes
      afterwards does not matter. */
  lemma OutcomeIgnoresRest(s: seq<Timed>, t: seq<Timed>, e1: bool, e2: bool, start: nat, endAt: nat)
    requires StopIndex(s) < |s|
    ensures ReadCount(s + t) == ReadCount(s)
    ensures Outcome(s + t, e1, start, endAt) == Outcome(s, e2, start, endAt)
  {
    FirstFromPrefix(s, t, Ends);
    assert (s + t)[StopIndex(s)] == s[StopIndex(s)];
    MeasurePrefix(s, t, StopIndex(s), start, endAt);
  }

  /** The stream ends at the first ending step `t`: the call fails when `t` aborts, and
      otherwise returns the metrics of the steps before `t`, whatever follows. */
  lemma EndsAt(b: seq<Timed>, t: Timed, rest: seq<Timed>, endsNormally: bool, start: nat, endAt: nat)
    requires forall i | 0 <= i < |b| :: !Ends(b[i])
    requires Ends(t)
    ensures Outcome(b + [t] + rest, endsNormally, start, endAt) ==
      if t.step.Abort? then None else Some(Measure(b, |b|, start, endAt))
  {
    FirstFromAfter(b, [t], Ends);
    OutcomeIgnoresRest(b + [t], rest, endsNormally, endsNormally, start, endAt);
    MeasurePrefix(b, [t], |b|, start, endAt);
  }

  /** Inserting a step with nothing to do leaves the payloads among the steps before any
      index where they were, and their byte total. */
  lemma {:induction false} InsertSkipPrefix(a: seq<Timed>, t: Timed, b: seq<Timed>, k: nat)
    requires t.step.Skip? && k <= |a + b|
    ensures Shift(|a|, k) <= |a + [t] + b|
    ensures ChunksTo(a + [t] + b, Shift(|a|, k)) == ChunksTo(a + b, k)
    ensures AudioBytes(a + [t] + b, Shift(|a|, k)) == AudioBytes(a + b, k)
  {
    var s := a + b;
    var s' := a + [t] + b;
    if k == |a| {
      assert s'[|a|] == t;
      assert ChunksTo(s', |a|) + [] == ChunksTo(s', |a|);
    }
    if k > 0 {
      InsertSkipPrefix(a, t, b, k - 1);
      InsertIndex(a, t, b, k - 1);
    }
  }

  /** Inserting a step with nothing to do changes neither the payloads, nor the metrics,
      nor whether the call fails. */
  lemma InsertSkip(a: seq<Timed>, t: Timed, b: seq<Timed>, endsNormally: bool, start: nat, endAt: nat)
    requires t.step.Skip?
    ensures StopIndex(a + [t] + b) == Shift(|a|, StopIndex(a + b))
    ensures Failed(a + [t] + b, endsNormally) == Failed(a + b, endsNormally)
    ensures ChunksTo(a + [t] + b, StopIndex(a + [t] + b)) == ChunksTo(a + b, StopIndex(a + b))
    ensures Measure(a + [t] + b, StopIndex(a + [t] + b), start, endAt) ==
            Measure(a + b, StopIndex(a + b), start, endAt)
  {
    var s := a + b;
    var s' := a + [t] + b;
    FirstFromInsert(a, t, b, Ends);
    FirstFromInsert(a, t, b, IsAudio);
    if StopIndex(s) < |s| {
      InsertIndex(a, t, b, StopIndex(s));
    }
    if FirstAudio(s) < |s| {
      InsertIndex(a, t, b, FirstAudio(s));
    }
    InsertSkipPrefix(a, t, b, StopIndex(s));
  }
}
