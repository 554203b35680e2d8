/**
 * `http_streaming_tts` of python/example_tts_low_latency_http.py: the low-latency HTTP client.
 *
 * A session first posts a short warmup request, whose response is read whole and
 * otherwise ignored, so that the connection is set up before the clock starts. It reads
 * `start_time` next, then posts the timed request, raises on a status from 400 to 599, and
 * reads the NDJSON response line by line into time to first byte, total time and audio
 * byte count. A line whose handling raises something other than a JSON decode error
 * leaves the call with that exception. The session is closed on every way out, that one
 * included.
 *
 * An exchange is either a transport error (`requests` raising) or a response: its status,
 * its lines, and whether reading them fails part-way. Each line carries its text, what
 * `json.loads` makes of it, whether handling it raises an exception the client does not
 * catch, and the clock reading taken while it is handled. `startAt` and
 * `endAt` are the readings of `start_time` and of the final clock call.
 */
module LowLatencyHttp {
  import opened Wrappers
  import opened Seqs
  import opened Messages
  import opened Latency
  import opened LatencyFacts
  import Sentences

  /** The body of a post to the streaming endpoint. */
  datatype SynthesisRequest = SynthesisRequest(text: string, voiceId: string, modelId: string, config: AudioConfig)

  /** OGG_OPUS at 24000 Hz and 32000 bit/s. */
  const Config: AudioConfig := AudioConfig("OGG_OPUS", 24000, Some(32000))

  function WarmupRequest(voiceId: string, modelId: string): SynthesisRequest
  {
    SynthesisRequest("hi", voiceId, modelId, Config)
  }

  function TimedRequest(text: string, voiceId: string, modelId: string): SynthesisRequest
  {
    SynthesisRequest(text, voiceId, modelId, Config)
  }

  /** One line of a streamed response. `raises` says that a line that parses makes the loop
      raise something other than `JSONDecodeError`, which escapes the call: its JSON is not an
      object, or the `audioContent` it holds is not a string (a `null` one included, since
      only the key is tested) or is not valid base64. */
  datatype Line = Line(raw: string, frame: Frame, raises: bool, at: nat)

  /** The outcome of one post. */
  datatype Exchange =
    | TransportError
    | Response(status: nat, lines: seq<Line>, readFailed: bool)

  /** `requests.Session`: the posts made through it, in order, and whether it is closed. */
  class Session {
    var posts: seq<SynthesisRequest>
    var closed: bool

    constructor ()
      ensures posts == [] && !closed
    {
      posts := [];
      closed := false;
    }

    method Post(request: SynthesisRequest)
      requires !closed
      modifies this
      ensures posts == old(posts) + [request] && !closed
    {
      posts := posts + [request];
    }

    method Close()
      modifies this
      ensures closed && posts == old(posts)
    {
      closed := true;
    }
  }

  /** Whether `raise_for_status` raises: a client or server error status. */
  predicate ErrorStatus(status: nat)
  {
    400 <= status < 600
  }

  /** One line of the response: a line blank after stripping and a line that is not JSON are
      skipped, a line whose handling raises aborts the loop, and otherwise a line counts as
      audio whenever its non-empty `result` has an `audioContent` key holding a base64
      string, even an empty one. Neither `error` nor `done` ends the loop. */
  function LineStep(l: Line): Step
  {
    if Sentences.AllSpace(l.raw) then Skip
    else match l.frame
      case NonJson => Skip
      case Object(_, result, _) =>
        if l.raises then Abort
        else if result.Present? && result.res.audioContent.Some? then Audio(result.res.audioContent.value.decoded)
        else Skip
  }

  /** Whether some line of the response raises out of the loop. */
  predicate RaisesOut(lines: seq<Line>)
  {
    exists i | 0 <= i < |lines| :: LineStep(lines[i]).Abort?
  }

  function LineTimed(l: Line): Timed
  {
    Timed(LineStep(l), l.at)
  }

  function LineSteps(lines: seq<Line>): seq<Timed>
  {
    Map(LineTimed, lines)
  }

  /** Whether a non-streaming post raises: it fails in transport, or reading its body, which
      such a post does before returning, fails. Its status is not looked at. */
  predicate PostRaises(e: Exchange)
  {
    e.TransportError? || e.readFailed
  }

  /** What `http_streaming_tts` returns: `None` when the warmup post raises, when the timed
      post raises or its status is an error, or when reading its lines fails; the warmup's
      status and lines are not looked at. When a line raises out of the call, nothing is
      returned and this is `None` too. */
  function HttpResult(warmup: Exchange, timed: Exchange, startAt: nat, endAt: nat): Option<Metrics>
  {
    if PostRaises(warmup) || timed.TransportError? || ErrorStatus(timed.status) then None
    else Outcome(LineSteps(timed.lines), !timed.readFailed, startAt, endAt)
  }

  /** The posts of `http_streaming_tts`: the warmup, then the timed request unless the warmup raised. */
  function HttpPosts(text: string, voiceId: string, modelId: string, warmup: Exchange): seq<SynthesisRequest>
  {
    [WarmupRequest(voiceId, modelId)] + (if PostRaises(warmup) then [] else [TimedRequest(text, voiceId, modelId)])
  }

  /** Whether the call ends with an exception that it does not catch, after both posts: the
      timed response is read and one of its lines raises out of the loop. */
  predicate HttpRaises(warmup: Exchange, timed: Exchange)
  {
    !PostRaises(warmup) && timed.Response? && !ErrorStatus(timed.status) && RaisesOut(timed.lines)
  }

  /** How many posts have been made when `start_time` is read, or `None` when it is never
      read: the clock is read once the warmup has been answered without raising. */
  function ClockAt(warmup: Exchange): Option<nat>
  {
    if PostRaises(warmup) then None else Some(1)
  }

  /** `http_streaming_tts(api_key, text, voice_id, model_id)`. `clockAt` is the number of
      posts made when `start_time` is read, and `None` when it is never read: the clock
      starts after the warmup has been answered in full and before the timed post. `raised`
      says that the call ends with an exception it does not catch; the session is closed then
      too, by the `finally` clause. */
  method HttpStreamingTts(text: string, voiceId: string, modelId: string, warmup: Exchange, timed: Exchange,
                          startAt: nat, endAt: nat)
    returns (result: Option<Metrics>, session: Session, clockAt: Option<nat>, raised: bool)
    ensures fresh(session)
    ensures result == HttpResult(warmup, timed, startAt, endAt)
    ensures session.closed && session.posts == HttpPosts(text, voiceId, modelId, warmup)
    ensures clockAt == ClockAt(warmup)
    ensures clockAt.Some? <==> !PostRaises(warmup)
    ensures clockAt.Some? ==>
      && clockAt.value == 1 && |session.posts| == 2
      && session.posts[0] == WarmupRequest(voiceId, modelId)
      && session.posts[1] == TimedRequest(text, voiceId, modelId)
    ensures result.Some? ==> clockAt.Some?
    ensures raised == HttpRaises(warmup, timed)
    ensures raised ==> result.None? && |session.posts| == 2
  {
    session := new Session();
    clockAt := None;
    raised := false;
    session.Post(WarmupRequest(voiceId, modelId));
    if PostRaises(warmup) {
      session.Close();
      return None, session, clockAt, raised;
    }
    clockAt := Some(|session.posts|);
    session.Post(TimedRequest(text, voiceId, modelId));
    if timed.TransportError? || ErrorStatus(timed.status) {
      session.Close();
      return None, session, clockAt, raised;
    }
    result, raised := ReadLines(timed.lines, timed.readFailed, startAt, endAt);
    session.Close();
  }

  /** The `for line in response.iter_lines()` loop of the timed response. `raised` says that
      a line raised out of it. */
  method ReadLines(lines: seq<Line>, readFailed: bool, startAt: nat, endAt: nat)
    returns (result: Option<Metrics>, raised: bool)
    ensures result == Outcome(LineSteps(lines), !readFailed, startAt, endAt)
    ensures raised == RaisesOut(lines)
    ensures raised ==> result.None?
  {
    ghost var s := LineSteps(lines);
    var ttfb: Option<int> := None;
    var totalAudioBytes: nat := 0;
    LinesEndOnlyOnRaise(lines);
    for n := 0 to |lines|
      invariant n <= StopIndex(s)
      invariant Metrics(ttfb, endAt - startAt, totalAudioBytes) == Measure(s, n, startAt, endAt)
    {
      MapIndex(LineTimed, lines, n);
      var line := lines[n];
      if Sentences.Strip(line.raw) != [] && line.frame.Object? {
        if line.raises {
          StopsAt(s, n, !readFailed);
          return None, true;
        }
        MeasureStep(s, n, startAt, endAt);
        var result := line.frame.result;
        if result.Present? && result.res.audioContent.Some? {
          if ttfb.None? {
            ttfb := Some(line.at - startAt);
          }
          totalAudioBytes := totalAudioBytes + |result.res.audioContent.value.decoded|;
        }
      } else {
        MeasureStep(s, n, startAt, endAt);
      }
    }
    if readFailed {
      return None, false;
    }
    result := Some(Metrics(ttfb, endAt - startAt, totalAudioBytes));
    raised := false;
  }

  /** Only a line that raises ends the loop early: the loop reads every line unless one
      raises, and then it stops at the first that does. */
  lemma LinesEndOnlyOnRaise(lines: seq<Line>)
    ensures |LineSteps(lines)| == |lines|
    ensures StopIndex(LineSteps(lines)) < |lines| <==> RaisesOut(lines)
    ensures StopIndex(LineSteps(lines)) < |lines| ==> LineStep(lines[StopIndex(LineSteps(lines))]).Abort?
    ensures forall i | 0 <= i < StopIndex(LineSteps(lines)) :: !LineStep(lines[i]).Abort?
  {
    var s := LineSteps(lines);
    MapEach(LineTimed, lines);
    FirstFromSkips(s, 0, Ends);
    if RaisesOut(lines) {
      var i :| 0 <= i < |lines| && LineStep(lines[i]).Abort?;
      assert Ends(s[i]);
    }
  }
}


/** What `http_streaming_tts` promises, proved about `HttpResult`. */
module LowLatencyHttpFacts {
  import opened Wrappers
  import opened Seqs
  import opened Messages
  import opened Latency
  import opened LatencyFacts
  import opened LowLatencyHttp
  import Sentences

  /** The warmup response is neither status-checked nor counted: any two warmups that do not
      raise give the same result. */
  lemma WarmupNotCounted(w1: Exchange, w2: Exchange, timed: Exchange, startAt: nat, endAt: nat)
    requires !PostRaises(w1) && !PostRaises(w2)
    ensures HttpResult(w1, timed, startAt, endAt) == HttpResult(w2, timed, startAt, endAt)
  {
  }

  /** The call gives no metrics exactly when the warmup post raises, or the timed post
      raises, has an error status, fails while being read, or has a line that raises out of
      the loop; otherwise it gives metrics. */
  lemma FailureGivesNone(warmup: Exchange, timed: Exchange, startAt: nat, endAt: nat)
    ensures HttpResult(warmup, timed, startAt, endAt).None? <==>
      PostRaises(warmup) || timed.TransportError? || ErrorStatus(timed.status) || timed.readFailed
        || RaisesOut(timed.lines)
  {
    if timed.Response? {
      LinesEndOnlyOnRaise(timed.lines);
      var s := LineSteps(timed.lines);
      if StopIndex(s) < |s| {
        MapIndex(LineTimed, timed.lines, StopIndex(s));
      }
    }
  }

  /** Metrics come only from a response whose every line was read without raising. */
  lemma MetricsReadEveryLine(warmup: Exchange, timed: Exchange, startAt: nat, endAt: nat)
    requires HttpResult(warmup, timed, startAt, endAt).Some?
    ensures timed.Response? && !RaisesOut(timed.lines)
    ensures StopIndex(LineSteps(timed.lines)) == |LineSteps(timed.lines)| == |timed.lines|
  {
    FailureGivesNone(warmup, timed, startAt, endAt);
    LinesEndOnlyOnRaise(timed.lines);
  }

  /** A line that raises out of the loop leaves the call after both posts, with the clock
      read between them and nothing returned; the first such line is the last one read. */
  lemma RaisingLineEscapes(text: string, voiceId: string, modelId: string, warmup: Exchange,
                           timed: Exchange, startAt: nat, endAt: nat)
    requires HttpRaises(warmup, timed)
    ensures HttpResult(warmup, timed, startAt, endAt) == None
    ensures HttpPosts(text, voiceId, modelId, warmup) == [WarmupRequest(voiceId, modelId), TimedRequest(text, voiceId, modelId)]
    ensures ClockAt(warmup) == Some(1)
    ensures var k := StopIndex(LineSteps(timed.lines));
      && k < |timed.lines| && LineStep(timed.lines[k]).Abort?
      && forall i | 0 <= i < k :: !LineStep(timed.lines[i]).Abort?
  {
    FailureGivesNone(warmup, timed, startAt, endAt);
    LinesEndOnlyOnRaise(timed.lines);
  }

  /** The metrics of a response that is read whole: `ttfb` is unset exactly when no line
      carries audio and is otherwise the reading at the first such line, and `audio_bytes`
      is the sum of the decoded lengths of the audio lines. */
  lemma HttpMetrics(warmup: Exchange, timed: Exchange, startAt: nat, endAt: nat)
    requires HttpResult(warmup, timed, startAt, endAt).Some?
    ensures var m := HttpResult(warmup, timed, startAt, endAt).value;
      var s := LineSteps(timed.lines);
      && (m.ttfb.None? <==> ChunksTo(s, |s|) == [])
      && (m.ttfb.Some? ==> FirstAudio(s) < |s| && m.ttfb.value == timed.lines[FirstAudio(s)].at - startAt)
      && m.audioBytes == SumLen(ChunksTo(s, |s|))
      && m.totalTime == endAt - startAt
  {
    var s := LineSteps(timed.lines);
    MetricsReadEveryLine(warmup, timed, startAt, endAt);
    FirstAudioIsFirstChunk(s, |s|);
    AudioBytesIsSumLen(s, |s|);
    if FirstAudio(s) < |s| {
      MapIndex(LineTimed, timed.lines, FirstAudio(s));
    }
  }

  /** The clock is read exactly when the warmup does not raise, and then between the two
      posts: the posts made before it are the warmup alone, and the next is the timed
      request. Metrics come only from a session whose clock was read. */
  lemma ClockStartsAfterWarmup(text: string, voiceId: string, modelId: string, warmup: Exchange,
                               timed: Exchange, startAt: nat, endAt: nat)
    ensures |HttpPosts(text, voiceId, modelId, warmup)| == 2 <==> !PostRaises(warmup)
    ensures HttpResult(warmup, timed, startAt, endAt).Some? ==>
      HttpPosts(text, voiceId, modelId, warmup) == [WarmupRequest(voiceId, modelId), TimedRequest(text, voiceId, modelId)]
    ensures ClockAt(warmup).Some? <==> !PostRaises(warmup)
    ensures ClockAt(warmup).Some? ==>
      var posts := HttpPosts(text, voiceId, modelId, warmup);
      var k := ClockAt(warmup).value;
      && k < |posts|
      && posts[..k] == [WarmupRequest(voiceId, modelId)]
      && posts[k] == TimedRequest(text, voiceId, modelId)
    ensures HttpResult(warmup, timed, startAt, endAt).Some? ==> ClockAt(warmup).Some?
  {
  }

  /** With a clock read at `startAt` after the warmup, at every line, and at `endAt` at the
      end, `ttfb` lies between zero and `total_time`. */
  lemma HttpTimingBounds(warmup: Exchange, timed: Exchange, startAt: nat, endAt: nat)
    requires HttpResult(warmup, timed, startAt, endAt).Some?
    requires startAt <= endAt && forall i | 0 <= i < |timed.lines| :: startAt <= timed.lines[i].at <= endAt
    ensures var m := HttpResult(warmup, timed, startAt, endAt).value;
      m.totalTime >= 0 && (m.ttfb.Some? ==> 0 <= m.ttfb.value <= m.totalTime)
  {
    var s := LineSteps(timed.lines);
    MapEach(LineTimed, timed.lines);
    MetricsReadEveryLine(warmup, timed, startAt, endAt);
    MeasureBounds(s, |s|, startAt, endAt);
  }

  /** A line with nothing to do, inserted anywhere, changes nothing. */
  lemma SkippedLineChangesNothing(pre: seq<Line>, l: Line, post: seq<Line>, readFailed: bool,
                                  startAt: nat, endAt: nat)
    requires LineStep(l).Skip?
    ensures Outcome(LineSteps(pre + [l] + post), !readFailed, startAt, endAt) ==
            Outcome(LineSteps(pre + post), !readFailed, startAt, endAt)
  {
    MapAppend(LineTimed, pre + [l], post);
    MapAppend(LineTimed, pre, [l]);
    MapAppend(LineTimed, pre, post);
    assert Map(LineTimed, [l]) == [LineTimed(l)] by {
      assert [l][..0] == [];
    }
    InsertSkip(Map(LineTimed, pre), LineTimed(l), Map(LineTimed, post), !readFailed, startAt, endAt);
  }

  /** Lines blank after stripping are skipped. */
  lemma BlankLineSkipped(pre: seq<Line>, l: Line, post: seq<Line>, readFailed: bool, startAt: nat, endAt: nat)
    requires Sentences.Strip(l.raw) == []
    ensures Outcome(LineSteps(pre + [l] + post), !readFailed, startAt, endAt) ==
            Outcome(LineSteps(pre + post), !readFailed, startAt, endAt)
  {
    SkippedLineChangesNothing(pre, l, post, readFailed, startAt, endAt);
  }

  /** Lines that are not JSON are skipped, and so are lines that do not raise and whose
      `result` is falsy or has no `audioContent`. */
  lemma NonAudioLineSkipped(pre: seq<Line>, l: Line, post: seq<Line>, readFailed: bool, startAt: nat, endAt: nat)
    requires l.frame.NonJson? || (!l.raises && (!l.frame.result.Present? || l.frame.result.res.audioContent.None?))
    ensures Outcome(LineSteps(pre + [l] + post), !readFailed, startAt, endAt) ==
            Outcome(LineSteps(pre + post), !readFailed, startAt, endAt)
  {
    SkippedLineChangesNothing(pre, l, post, readFailed, startAt, endAt);
  }

  /** A line whose `result` carries `audioContent` decoding to `bytes`. */
  function AudioLine(bytes: seq<bv8>, at: nat): Line
  {
    Line("{..}", Object(false, Present(Res(false, false, None, Some(Content("..", bytes)))), false), false, at)
  }

  /** Two audio lines of 1000 and 2000 bytes around a line that is not JSON: 3000 bytes,
      timed at the first, however the warmup was answered. */
  lemma HttpScenario(first: seq<bv8>, second: seq<bv8>, warmupStatus: nat, warmupLines: seq<Line>)
    requires |first| == 1000 && |second| == 2000
    ensures
      var timed := Response(200, [AudioLine(first, 15), Line("{", NonJson, false, 20), AudioLine(second, 30)], false);
      HttpResult(Response(warmupStatus, warmupLines, false), timed, 10, 40) == Some(Metrics(Some(5), 30, 3000))
  {
    var a := AudioLine(first, 15);
    var bad := Line("{", NonJson, false, 20);
    var b := AudioLine(second, 30);
    assert !Sentences.AllSpace(a.raw) by {
      assert !Sentences.IsSpace(a.raw[0]);
    }
    assert [a] + [bad] + [b] == [a, bad, b];
    SkippedLineChangesNothing([a], bad, [b], false, 10, 40);
    assert [a] + [b] == [a, b];
    var s := LineSteps([a, b]);
    MapIndex(LineTimed, [a, b], 0);
    MapIndex(LineTimed, [a, b], 1);
    FirstFromIs(s, 0, IsAudio, 0);
    assert s[0] == Timed(Audio(first), 15);
    assert s[1] == Timed(Audio(second), 30);
    FirstFromIs(s, 0, Ends, 2);
    assert AudioBytes(s, 1) == 1000;
    assert AudioBytes(s, 2) == 3000;
  }
}
