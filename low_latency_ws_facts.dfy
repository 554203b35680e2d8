/** What `websocket_tts` promises, proved about `TtsResult` and `TtsTrace`. */
module LowLatencyWsFacts {
  import opened Wrappers
  import opened Seqs
  import opened Messages
  import opened Latency
  import opened LatencyFacts
  import opened LowLatencyWs
  import Sentences

  /** `pre` ends with the frame that acknowledges `contextCreated`, and no frame before it
      decides the setup loop. */
  predicate Acked(pre: seq<Inbound>)
  {
    SetupSucceeds(pre) && SetupEnd(pre) == |pre| - 1
  }

  /** None of the frames ends the streaming loop. */
  predicate Streaming(body: seq<Inbound>)
  {
    forall i | 0 <= i < |body| :: !Ends(StreamTimed(body[i]))
  }

  /** What comes after the acknowledgment is what the streaming loop reads. */
  lemma StreamStepsAfter(pre: seq<Inbound>, rest: seq<Inbound>)
    requires Acked(pre)
    ensures SetupSucceeds(pre + rest) && SetupEnd(pre + rest) == |pre| - 1
    ensures StreamSteps(pre + rest) == Map(StreamTimed, rest)
  {
    FirstFromPrefix(pre, rest, SetupDecides);
    assert (pre + rest)[|pre| - 1] == pre[|pre| - 1];
    assert (pre + rest)[|pre|..] == rest;
  }

  /** The steps of frames none of which ends the stream contain no ending step. */
  lemma StreamingSteps(body: seq<Inbound>)
    requires Streaming(body)
    ensures forall i | 0 <= i < |Map(StreamTimed, body)| :: !Ends(Map(StreamTimed, body)[i])
  {
    MapEach(StreamTimed, body);
  }

  /** After the acknowledgment, the stream ends at the first frame `x` that ends it: the call
      fails when `x` is not JSON, and otherwise returns the metrics of the frames before `x`,
      whatever follows `x` and however the connection closes. When the call fails, nothing
      counts, so the result cannot depend on the frames before x. */
  lemma StreamEndsAt(pre: seq<Inbound>, body: seq<Inbound>, x: Inbound, after: seq<Inbound>,
                     endsNormally: bool, startAt: nat, endAt: nat)
    requires Acked(pre) && Streaming(body) && Ends(StreamTimed(x))
    ensures TtsResult(true, pre + body + [x] + after, endsNormally, startAt, endAt) ==
      if x.frame.NonJson? then None
      else Some(Measure(Map(StreamTimed, body), |body|, startAt, endAt))
  {
    AppendAssoc(pre, body, [x], after);
    StreamStepsAfter(pre, body + [x] + after);
    MapAppend(StreamTimed, body + [x], after);
    MapAppend(StreamTimed, body, [x]);
    assert Map(StreamTimed, [x]) == [StreamTimed(x)] by {
      assert [x][..0] == [];
    }
    StreamingSteps(body);
    EndsAt(Map(StreamTimed, body), StreamTimed(x), Map(StreamTimed, after), endsNormally, startAt, endAt);
  }

  /** Even an `error` frame during streaming returns the metrics gathered so far. */
  lemma ErrorStillMeasures(pre: seq<Inbound>, body: seq<Inbound>, x: Inbound, after: seq<Inbound>,
                           endsNormally: bool, startAt: nat, endAt: nat)
    requires Acked(pre) && Streaming(body)
    requires x.frame.Object? && x.frame.hasError
    ensures TtsResult(true, pre + body + [x] + after, endsNormally, startAt, endAt) ==
      Some(Measure(Map(StreamTimed, body), |body|, startAt, endAt))
  {
    StreamEndsAt(pre, body, x, after, endsNormally, startAt, endAt);
  }

  /** A frame that is not JSON during streaming makes the whole call return `None`. */
  lemma NonJsonAborts(pre: seq<Inbound>, body: seq<Inbound>, at: nat, after: seq<Inbound>,
                      endsNormally: bool, startAt: nat, endAt: nat)
    requires Acked(pre) && Streaming(body)
    ensures TtsResult(true, pre + body + [Inbound(NonJson, at)] + after, endsNormally, startAt, endAt) == None
  {
    StreamEndsAt(pre, body, Inbound(NonJson, at), after, endsNormally, startAt, endAt);
  }

  /** `contextClosed` is tested before `audioChunk`: a result carrying both ends the stream
      and its audio is not counted. */
  lemma ClosedAddsNoAudio(pre: seq<Inbound>, body: seq<Inbound>, x: Inbound, after: seq<Inbound>,
                          endsNormally: bool, startAt: nat, endAt: nat)
    requires Acked(pre) && Streaming(body)
    requires x.frame.Object? && x.frame.result.Present? && x.frame.result.res.contextClosed
    ensures TtsResult(true, pre + body + [x] + after, endsNormally, startAt, endAt) ==
      Some(Measure(Map(StreamTimed, body), |body|, startAt, endAt))
  {
    StreamEndsAt(pre, body, x, after, endsNormally, startAt, endAt);
  }

  /** When no frame ends the stream, the result depends on how the connection closes: a clean
      close ends `async for` and returns the metrics of every frame, any other close `None`. */
  lemma StreamRunsOut(pre: seq<Inbound>, body: seq<Inbound>, endsNormally: bool, startAt: nat, endAt: nat)
    requires Acked(pre) && Streaming(body)
    ensures TtsResult(true, pre + body, endsNormally, startAt, endAt) ==
      if endsNormally then Some(Measure(Map(StreamTimed, body), |body|, startAt, endAt)) else None
  {
    StreamStepsAfter(pre, body);
    StreamingSteps(body);
    FirstFromIs(Map(StreamTimed, body), 0, Ends, |body|);
  }

  /** Frames ignored by the setup loop make no difference to the result. */
  lemma SetupIgnoresWaiting(w: seq<Inbound>, frames: seq<Inbound>, connected: bool,
                            endsNormally: bool, startAt: nat, endAt: nat)
    requires forall i | 0 <= i < |w| :: SetupStep(w[i].frame) == Wait
    ensures SetupSucceeds(w + frames) == SetupSucceeds(frames)
    ensures TtsResult(connected, w + frames, endsNormally, startAt, endAt) ==
      TtsResult(connected, frames, endsNormally, startAt, endAt)
  {
    FirstFromAfter(w, frames, SetupDecides);
    var c := SetupEnd(frames);
    if c < |frames| {
      assert (w + frames)[|w| + c] == frames[c];
      assert (w + frames)[|w| + c + 1..] == frames[c + 1..];
    }
  }

  /** An `error`, a frame that is not JSON or a `null` result before `contextCreated` returns
      `None`, after reading up to that frame and sending nothing but `create`. */
  lemma SetupFailure(text: string, voiceId: string, modelId: string, frames: seq<Inbound>, k: nat,
                     endsNormally: bool, startAt: nat, endAt: nat)
    requires k < |frames|
    requires forall i | 0 <= i < k :: SetupStep(frames[i].frame) == Wait
    requires frames[k].frame.NonJson? || frames[k].frame.hasError || frames[k].frame.result.Null?
    ensures TtsResult(true, frames, endsNormally, startAt, endAt) == None
    ensures TtsTrace(text, voiceId, modelId, true, frames) ==
      [Sent(CreateMessage(voiceId, modelId))] + Receipts(0, k + 1)
  {
    FirstFromIs(frames, 0, SetupDecides, k);
  }

  /** The layout of a session whose setup succeeds, piece by piece. */
  lemma SessionLayout(create: Outbound, frames: seq<Inbound>, sentences: seq<string>)
    requires SetupSucceeds(frames)
    ensures SessionTrace(create, frames, sentences) ==
      [Sent(create)] + Receipts(0, SetupReads(frames))
        + ([Started] + (Sends(Map(TextMessage, sentences) + [CloseMessage])
        + Receipts(SetupEnd(frames) + 1, SetupEnd(frames) + 1 + ReadCount(StreamSteps(frames)))))
  {
  }

  /** Over an open connection the requests are `create`, then, once `contextCreated` has
      arrived, one flushing `send_text` per sentence in sentence order and a single
      `close_context`. */
  lemma {:induction false} SessionRequests(create: Outbound, frames: seq<Inbound>, sentences: seq<string>)
    ensures Requests(SessionTrace(create, frames, sentences)) ==
      [create] + (if SetupSucceeds(frames) then Map(TextMessage, sentences) + [CloseMessage] else [])
  {
    if SetupSucceeds(frames) {
      SessionLayout(create, frames, sentences);
      RequestsOfSession(create, 0, SetupReads(frames), Map(TextMessage, sentences) + [CloseMessage],
                        SetupEnd(frames) + 1, SetupEnd(frames) + 1 + ReadCount(StreamSteps(frames)));
    } else {
      RequestsOfOpening(create, 0, SetupReads(frames));
    }
  }

  /** The requests of `websocket_tts`: `create`, then the requests after `contextCreated` when
      it arrives. */
  lemma RequestsSent(text: string, voiceId: string, modelId: string, frames: seq<Inbound>)
    ensures Requests(TtsTrace(text, voiceId, modelId, true, frames)) ==
      [CreateMessage(voiceId, modelId)] + (if SetupSucceeds(frames) then TimedRequests(text) else [])
  {
    SessionRequests(CreateMessage(voiceId, modelId), frames, Sentences.SplitSentences(text));
  }

  /** When `contextCreated` arrives, the opening and the setup reads come first, then the
      one clock start, then the first request. */
  lemma {:induction false} SessionClockReady(create: Outbound, frames: seq<Inbound>, sentences: seq<string>)
    requires SetupSucceeds(frames)
    ensures var trace := SessionTrace(create, frames, sentences);
      var k := SetupReads(frames) + 1;
      && StartsOnlyAt(trace, k)
      && trace[0] == Sent(create)
      && (forall i | 1 <= i < k :: trace[i] == Received(i - 1))
      && k + 1 < |trace| && trace[k + 1] == Sent((Map(TextMessage, sentences) + [CloseMessage])[0])
  {
    var first := SetupEnd(frames) + 1;
    SessionLayout(create, frames, sentences);
    StartedOnceBetween(create, SetupReads(frames), Map(TextMessage, sentences) + [CloseMessage],
                       first, first + ReadCount(StreamSteps(frames)));
  }

  /** Over an open connection the clock is read only when `contextCreated` has arrived, and
      then exactly once: right after the acknowledging frame and right before the first of
      the requests that follow it. */
  lemma {:induction false} SessionClock(create: Outbound, frames: seq<Inbound>, sentences: seq<string>)
    ensures Started in SessionTrace(create, frames, sentences) <==> SetupSucceeds(frames)
    ensures SetupSucceeds(frames) ==>
      var trace := SessionTrace(create, frames, sentences);
      var k := SetupReads(frames) + 1;
      && StartsOnlyAt(trace, k)
      && trace[0] == Sent(create)
      && (forall i | 1 <= i < k :: trace[i] == Received(i - 1))
      && k + 1 < |trace| && trace[k + 1] == Sent((Map(TextMessage, sentences) + [CloseMessage])[0])
  {
    if SetupSucceeds(frames) {
      SessionClockReady(create, frames, sentences);
      var trace := SessionTrace(create, frames, sentences);
      assert trace[SetupReads(frames) + 1] == Started;
    } else {
      OpeningLayout(create, 0, SetupReads(frames));
    }
  }

  /** `start_time` is read only when `contextCreated` has arrived, and then exactly once: after
      `create` and the setup reads, right after the acknowledging frame is read, and right
      before the first timed request is sent. */
  lemma ClockStartsAfterAck(text: string, voiceId: string, modelId: string, frames: seq<Inbound>)
    ensures Started in TtsTrace(text, voiceId, modelId, true, frames) <==> SetupSucceeds(frames)
    ensures SetupSucceeds(frames) ==>
      var trace := TtsTrace(text, voiceId, modelId, true, frames);
      var k := SetupEnd(frames) + 2;
      && StartsOnlyAt(trace, k)
      && trace[0] == Sent(CreateMessage(voiceId, modelId))
      && (forall i | 1 <= i < k :: trace[i] == Received(i - 1))
      && trace[k - 1] == Received(SetupEnd(frames))
      && SetupStep(frames[SetupEnd(frames)].frame) == Ready
      && k + 1 < |trace| && trace[k + 1] == Sent(TimedRequests(text)[0])
  {
    SessionClock(CreateMessage(voiceId, modelId), frames, Sentences.SplitSentences(text));
  }

  /** The requests after `contextCreated`: the i-th is the flushing `send_text` of the i-th
      sentence, and the last is `close_context`. */
  lemma TimedRequestsShape(text: string)
    ensures |TimedRequests(text)| == |Sentences.SplitSentences(text)| + 1
    ensures forall i | 0 <= i < |Sentences.SplitSentences(text)| ::
      TimedRequests(text)[i] == SendText(ContextId, Sentences.SplitSentences(text)[i], true)
    ensures Last(TimedRequests(text)) == CloseContext(ContextId)
  {
    MapEach(TextMessage, Sentences.SplitSentences(text));
  }

  /** The returned metrics: `ttfb` is unset exactly when no audio payload arrived and is
      otherwise timed at the first; `audio_bytes` sums the payload lengths; with a clock read
      at `startAt` before the streamed frames it reads and at `endAt` after them, `ttfb` lies
      between zero and `total_time`. */
  lemma TtsMetrics(frames: seq<Inbound>, endsNormally: bool, startAt: nat, endAt: nat)
    requires TtsResult(true, frames, endsNormally, startAt, endAt).Some?
    ensures var m := TtsResult(true, frames, endsNormally, startAt, endAt).value;
      var s := StreamSteps(frames);
      && (m.ttfb.None? <==> ChunksTo(s, StopIndex(s)) == [])
      && (m.ttfb.Some? ==> m.ttfb.value == s[FirstAudio(s)].at - startAt &&
                           ChunksTo(s, StopIndex(s))[0] == s[FirstAudio(s)].step.bytes)
      && m.audioBytes == SumLen(ChunksTo(s, StopIndex(s)))
      && m.totalTime == endAt - startAt
    ensures var read := ReadCount(StreamSteps(frames));
      startAt <= endAt &&
      (forall i | SetupEnd(frames) < i <= SetupEnd(frames) + read :: startAt <= frames[i].at <= endAt) ==>
        var m := TtsResult(true, frames, endsNormally, startAt, endAt).value;
        m.totalTime >= 0 && (m.ttfb.Some? ==> 0 <= m.ttfb.value <= m.totalTime)
  {
    var s := StreamSteps(frames);
    var k := StopIndex(s);
    var first := SetupEnd(frames) + 1;
    FirstAudioIsFirstChunk(s, k);
    AudioBytesIsSumLen(s, k);
    if startAt <= endAt && (forall i | first <= i < first + ReadCount(s) :: startAt <= frames[i].at <= endAt) {
      var rest := frames[first..];
      forall i | 0 <= i < k
        ensures startAt <= s[i].at <= endAt
      {
        MapIndex(StreamTimed, rest, i);
        assert rest[i] == frames[first + i];
      }
      MeasureBounds(s, k, startAt, endAt);
    }
  }

  /** The acknowledgment at tick 0, one audio chunk of three bytes at tick 80 and
      `contextClosed` at tick 420, with the clock started at 0 and read at 420 at the end:
      time to first byte 80, total time 420, three bytes. */
  lemma LatencyScenario()
    ensures
      var created := Object(false, Present(Res(true, false, None, None)), false);
      var audio := Object(false, Present(Res(false, false, Some(AudioChunk(Some(Content("AAEC", [0, 1, 2])))), None)), false);
      var closed := Object(false, Present(Res(false, true, None, None)), false);
      TtsResult(true, [Inbound(created, 0), Inbound(audio, 80), Inbound(closed, 420)], true, 0, 420)
        == Some(Metrics(Some(80), 420, 3))
  {
    var created := Object(false, Present(Res(true, false, None, None)), false);
    var audio := Object(false, Present(Res(false, false, Some(AudioChunk(Some(Content("AAEC", [0, 1, 2])))), None)), false);
    var closed := Object(false, Present(Res(false, true, None, None)), false);
    var pre := [Inbound(created, 0)];
    var body := [Inbound(audio, 80)];
    FirstFromIs(pre, 0, SetupDecides, 0);
    assert Streaming(body);
    assert pre + body + [Inbound(closed, 420)] + [] ==
      [Inbound(created, 0), Inbound(audio, 80), Inbound(closed, 420)];
    StreamEndsAt(pre, body, Inbound(closed, 420), [], true, 0, 420);
    var b := Map(StreamTimed, body);
    MapIndex(StreamTimed, body, 0);
    FirstFromIs(b, 0, IsAudio, 0);
  }
}
