/**
 * `websocket_tts` of python/example_tts_low_latency_ws.py: the low-latency WebSocket client.
 *
 * With the connection open it sends `create` for the context "ctx-latency-test" and reads
 * frames until one acknowledges `contextCreated`. Only then does it read the clock, send
 * one flushing `send_text` per sentence and a `close_context`, and read the remaining
 * frames into time to first byte, total time and audio byte count.
 *
 * The inbound traffic is the sequence `frames`, each frame with the clock reading taken
 * while it is handled; `endsNormally` says whether the connection closes cleanly after the
 * last of them (a clean close ends `async for` without an exception; `recv` raises on any
 * close). `startAt` and `endAt` are the readings of `start_time` and of the final clock call.
 * The result is the returned dictionary, or `None`; the trace lists the requests sent, the
 * frames read and the reading of `start_time`, in order.
 */
module LowLatencyWs {
  import opened Wrappers
  import opened Seqs
  import opened Messages
  import opened Latency
  import opened LatencyFacts
  import Sentences

  const ContextId: string := "ctx-latency-test"

  /** OGG_OPUS at 24000 Hz and 32000 bit/s. */
  const Config: AudioConfig := AudioConfig("OGG_OPUS", 24000, Some(32000))

  function CreateMessage(voiceId: string, modelId: string): Outbound
  {
    Create(ContextId, voiceId, modelId, Config, None)
  }

  /** `send_text` with `flush_context`, for one sentence. */
  function TextMessage(sentence: string): Outbound
  {
    SendText(ContextId, sentence, true)
  }

  const CloseMessage: Outbound := CloseContext(ContextId)

  /** The requests sent once the context exists: the sentences in order, then the close. */
  function TimedRequests(text: string): seq<Outbound>
  {
    Map(TextMessage, Sentences.SplitSentences(text)) + [CloseMessage]
  }

  datatype Setup = Wait | Fail | Ready

  /** One frame of the setup loop: a frame that is not JSON makes `json.loads` raise and an
      `error` returns `None`; a `null` result makes the `in` test raise, which also returns
      `None`; `contextCreated` ends the loop; anything else is ignored. */
  function SetupStep(f: Frame): Setup
  {
    match f
    case NonJson => Fail
    case Object(hasError, result, _) =>
      if hasError || result.Null? then Fail
      else if result.Present? && result.res.contextCreated then Ready
      else Wait
  }

  predicate SetupDecides(x: Inbound)
  {
    SetupStep(x.frame) != Wait
  }

  /** The index of the frame that ends the setup loop, or `|frames|` when none does. */
  function SetupEnd(frames: seq<Inbound>): nat
  {
    FirstFrom(frames, 0, SetupDecides)
  }

  /** Whether the setup loop reaches `contextCreated`: no error, no frame that is not JSON,
      no `null` result, and no close of the connection before it. */
  predicate SetupSucceeds(frames: seq<Inbound>)
  {
    SetupEnd(frames) < |frames| && SetupStep(frames[SetupEnd(frames)].frame) == Ready
  }

  /** One frame of the streaming loop. `json.loads` raising is caught by the outer handler,
      so a frame that is not JSON abandons the call. An `error`, a falsy `result` with `done`,
      and `contextClosed` end the loop, in that order of precedence; `contextClosed` is tested
      before `audioChunk`. Audio counts only when the nested `audioContent` is non-empty. */
  function StreamStep(f: Frame): Step
  {
    match f
    case NonJson => Abort
    case Object(hasError, result, done) =>
      if hasError then Stop
      else if !result.Present? then (if done then Stop else Skip)
      else if result.res.contextClosed then Stop
      else if result.res.audioChunk.Some? && Truthy(result.res.audioChunk.value.audioContent) then
        Audio(result.res.audioChunk.value.audioContent.value.decoded)
      else Skip
  }

  function StreamTimed(x: Inbound): Timed
  {
    Timed(StreamStep(x.frame), x.at)
  }

  /** The frames the streaming loop reads: those after the acknowledgment. */
  function StreamSteps(frames: seq<Inbound>): seq<Timed>
    requires SetupSucceeds(frames)
  {
    Map(StreamTimed, frames[SetupEnd(frames) + 1..])
  }

  /** The frames the setup loop reads. */
  function SetupReads(frames: seq<Inbound>): nat
  {
    if SetupEnd(frames) < |frames| then SetupEnd(frames) + 1 else |frames|
  }

  /** What the setup loop does: read frames until one decides. */
  function SetupTrace(frames: seq<Inbound>): seq<Event>
  {
    Receipts(0, SetupReads(frames))
  }

  /** What the send loop does. */
  function SendTrace(sentences: seq<string>): seq<Event>
  {
    Sends(Map(TextMessage, sentences) + [CloseMessage])
  }

  /** What the streaming loop does: read the frames after the acknowledgment, up to and
      including the one that ends the stream. */
  function StreamTrace(frames: seq<Inbound>): seq<Event>
    requires SetupSucceeds(frames)
  {
    Receipts(SetupEnd(frames) + 1, SetupEnd(frames) + 1 + ReadCount(StreamSteps(frames)))
  }

  /** What `websocket_tts` returns. */
  function TtsResult(connected: bool, frames: seq<Inbound>, endsNormally: bool, startAt: nat, endAt: nat)
    : Option<Metrics>
  {
    if !connected || !SetupSucceeds(frames) then None
    else Outcome(StreamSteps(frames), endsNormally, startAt, endAt)
  }

  /** The requests sent, the frames read and the clock start over an open connection,
      starting with `create`; once the context exists, the clock starts and `sentences` are
      sent. */
  function SessionTrace(create: Outbound, frames: seq<Inbound>, sentences: seq<string>): seq<Event>
  {
    if !SetupSucceeds(frames) then [Sent(create)] + SetupTrace(frames)
    else [Sent(create)] + SetupTrace(frames) + ([Started] + (SendTrace(sentences) + StreamTrace(frames)))
  }

  /** The requests sent, the frames read and the clock start of `websocket_tts`, in order. */
  function TtsTrace(text: string, voiceId: string, modelId: string, connected: bool, frames: seq<Inbound>)
    : seq<Event>
  {
    if !connected then []
    else SessionTrace(CreateMessage(voiceId, modelId), frames, Sentences.SplitSentences(text))
  }

  /** `websocket_tts(api_key, text, voice_id, model_id)`: the body of `async with`, in three
      phases, or `None` when the connection cannot be opened. */
  method WebSocketTts(text: string, voiceId: string, modelId: string, connected: bool,
                      frames: seq<Inbound>, endsNormally: bool, startAt: nat, endAt: nat)
    returns (result: Option<Metrics>, trace: seq<Event>)
    ensures result == TtsResult(connected, frames, endsNormally, startAt, endAt)
    ensures trace == TtsTrace(text, voiceId, modelId, connected, frames)
  {
    if !connected {
      return None, [];
    }
    var ready, setupTrace := AwaitContext(frames);
    trace := [Sent(CreateMessage(voiceId, modelId))] + setupTrace;
    if !ready {
      return None, trace;
    }
    // `start_time` is read here, with the context ready and before any text is sent.
    var sent := SendSentences(Sentences.SplitSentences(text));
    var streamTrace;
    result, streamTrace := ReceiveAudio(frames, endsNormally, startAt, endAt);
    trace := trace + ([Started] + (sent + streamTrace));
  }

  /** The `while True` loop that waits for `contextCreated`. */
  method AwaitContext(frames: seq<Inbound>) returns (ready: bool, trace: seq<Event>)
    ensures ready == SetupSucceeds(frames)
    ensures trace == SetupTrace(frames)
  {
    FirstFromSkips(frames, 0, SetupDecides);
    trace := [];
    var c := 0;
    while true
      invariant c <= SetupEnd(frames)
      invariant trace == Receipts(0, c)
      decreases |frames| - c
    {
      if c == |frames| {
        return false, trace;
      }
      trace := trace + [Received(c)];
      var setup := SetupStep(frames[c].frame);
      if setup == Fail {
        return false, trace;
      }
      if setup == Ready {
        return true, trace;
      }
      c := c + 1;
    }
  }

  /** One flushing `send_text` per sentence, in order, then `close_context`. */
  method SendSentences(sentences: seq<string>) returns (trace: seq<Event>)
    ensures trace == SendTrace(sentences)
  {
    trace := [];
    for k := 0 to |sentences|
      invariant trace == Sends(Map(TextMessage, sentences[..k]))
    {
      MapSnoc(TextMessage, sentences, k);
      SendsSnoc(Map(TextMessage, sentences[..k]), TextMessage(sentences[k]));
      trace := trace + [Sent(TextMessage(sentences[k]))];
    }
    assert sentences[..|sentences|] == sentences;
    SendsSnoc(Map(TextMessage, sentences), CloseMessage);
    trace := trace + [Sent(CloseMessage)];
  }

  /** The `async for` loop over the frames after the acknowledgment. */
  method ReceiveAudio(frames: seq<Inbound>, endsNormally: bool, startAt: nat, endAt: nat)
    returns (result: Option<Metrics>, trace: seq<Event>)
    requires SetupSucceeds(frames)
    ensures result == Outcome(StreamSteps(frames), endsNormally, startAt, endAt)
    ensures trace == StreamTrace(frames)
  {
    var first := SetupEnd(frames) + 1;
    var rest := frames[first..];
    ghost var s := Map(StreamTimed, rest);
    assert s == StreamSteps(frames);
    var ttfb: Option<int> := None;
    var total: nat := 0;
    var n := 0;
    trace := [];
    while n < |rest|
      invariant n <= StopIndex(s)
      invariant Metrics(ttfb, endAt - startAt, total) == Measure(s, n, startAt, endAt)
      invariant trace == Receipts(first, first + n)
    {
      trace := trace + [Received(first + n)];
      var step := StreamStep(rest[n].frame);
      MapIndex(StreamTimed, rest, n);
      if step.Abort? {
        StopsAt(s, n, endsNormally);
        return None, trace;
      }
      if step.Stop? {
        StopsAt(s, n, endsNormally);
        return Some(Metrics(ttfb, endAt - startAt, total)), trace;
      }
      MeasureStep(s, n, startAt, endAt);
      if step.Audio? {
        if ttfb.None? {
          ttfb := Some(rest[n].at - startAt);
        }
        total := total + |step.bytes|;
      }
      n := n + 1;
    }
    if !endsNormally {
      return None, trace;
    }
    result := Some(Metrics(ttfb, endAt - startAt, total));
  }
}
