# Inworld text-to-speech streaming clients, modelled in Dafny

This project models the client logic of three Inworld text-to-speech examples, with the network, JSON,
base64 and the wall clock abstracted away.

- **The sentence segmenter** `split_sentences`, from the low-latency WebSocket example
  (`sentences.dfy`). It is written as an explicit left-to-right scan for the non-overlapping matches of
  "non-terminators, a run of terminators, whitespace". Each match is stripped and blank ones are dropped.
  The stripped remainder is appended when it is not blank.
- **The low-latency WebSocket client** `websocket_tts` (`low_latency_ws.dfy`). It sends `create` and waits
  for `contextCreated`. It then starts the clock, sends one flushing `send_text` per sentence and a
  `close_context`, and reads frames into time to first byte, total time and audio byte count.
- **The multi-request context flow** `stream_tts_with_context`, and the header-stripping consumer
  `save_websocket_audio_to_file` (`context_flow.dfy`).
- **The low-latency HTTP client** `http_streaming_tts` (`low_latency_http.dfy`). It posts a warmup request,
  then a timed streaming request whose NDJSON lines it reads. The session is closed on every way out: a
  return, a caught `RequestException`, and an exception the client does not catch.

The shared pieces are the following:

- `Messages` (`messages.dfy`) holds the frames, the requests and the trace of sends and reads.
- `Latency` (`latency.dfy`) holds the recorder common to the two latency clients. Every frame or line is
  classified as a `Step`: nothing to do, an audio payload, the end of the stream, or a failure that
  abandons the call. The recorder's result is defined declaratively over the step sequence: the first
  ending step, the payloads before it, and the first audio payload.
- `Seqs` (`seqs.dfy`) holds generic sequence functions and lemmas. `Wrappers` (`wrappers.dfy`) holds `Option`.

## How each client is modelled

Each loop of the clients is a Dafny method with a `while` or `for` loop. Its postcondition ties its results
to a specification function:

- `LowLatencyWs.TtsResult` and `LowLatencyWs.TtsTrace` for the WebSocket client;
- `ContextFlow.FlowResult`, `ContextFlow.FlowTrace` and `ContextFlow.SaveResult` for the context flow;
- `LowLatencyHttp.HttpResult` and `LowLatencyHttp.HttpPosts` for the HTTP client.

The `*Facts` modules prove what the programs promise about those functions.

The inputs are modelled as follows:

- The inbound traffic is a sequence of frames or lines. Each carries the clock reading (a natural number
  of ticks) taken while it is handled.
- The readings of `start_time`, `recv_start` and the final `time.time()` are parameters.
- How the connection ends after the last frame is a boolean. A clean close ends `async for` normally; any
  other close raises.
- A connection that cannot be opened is a `connected` flag (WebSocket) or a `TransportError` exchange (HTTP).
- The reading of `start_time` in `websocket_tts` is a `Started` event in the trace of sends and reads. In
  `http_streaming_tts` it is the number of posts made when the clock is read.
- The HTTP `requests.Session` is a class whose fields record the posts made and whether it was closed.

### Behaviour of the code worth noting

- **An `error` frame while streaming.** The docstring of `websocket_tts` promises `None` on error, but the
  loop `break`s on such a frame and still returns the metrics gathered so far.
- **A frame that is not JSON while streaming.** It is not caught inside the loop, so it abandons the whole
  call with `None`. In `stream_tts_with_context` the same frame is skipped.
- **The stream ending without `contextClosed`, `done` or `error`.** A clean close returns metrics; only an
  abnormal close gives `None`.
- **The warmup response.** The code's comment says the warmup only establishes the connection. Its status is
  never checked, and the warmup matters only when it raises: in transport, or while its body is read, which a
  non-streaming post does before returning.
- **HTTP audio lines.** The HTTP client tests only that the `result` has an `audioContent` key. When that
  key holds a string, even an empty one, the line counts as audio; an empty one sets `ttfb` and adds zero
  bytes. When it holds anything else, `null` included, `base64.b64decode` raises. The WebSocket clients, in
  contrast, test the payload for truthiness first.
- **Exceptions the HTTP client does not catch.** Only a JSON decode error is caught per line, and only a
  `RequestException` for the whole call. A line whose JSON is not an object, whose `audioContent` is not a
  string, or whose base64 is invalid raises something else. That exception leaves `http_streaming_tts` after
  the `finally` clause has closed the session. The model marks such a line with an abstract `raises` flag.
- **NDJSON `error` or `done` lines.** The HTTP client does not end its loop on them; every line is read.
- **The `KeyError` handler** of the receive loop in `stream_tts_with_context` cannot be reached. Every
  lookup in that loop is a `.get`, or is guarded by an `in` test or by the `error` test.

## Model

| member | source | states |
|---|---|---|
| Sentences.Matches | python/example_tts_low_latency_ws.py:26 | definition of the left-to-right scan for the non-overlapping matches from a position; characterised by FindAllTilesText, MatchesKeepRunsWhole and FindAllCountsRuns |
| Sentences.FindAll | python/example_tts_low_latency_ws.py:26 | definition of `re.findall` with the sentence pattern; characterised by FindAllTilesText, RemainderHasNoTerminator and FindAllCountsRuns |
| Sentences.SplitSentences | python/example_tts_low_latency_ws.py:23-32 | definition of `split_sentences`; characterised by SplitKeepsEveryMatch, SplitFragmentsTrimmed, SplitFragmentsTerminated and SplitWithoutTerminator |
| Sentences.Strip | python/example_tts_low_latency_ws.py:27-29 | the stripped string is empty exactly when the input is all whitespace, has no leading or trailing whitespace, and is no longer than the input |
| Sentences.Remainder | python/example_tts_low_latency_ws.py:28-29 | definition of `text[matched_len:]`, the text after the matches; characterised by FindAllTilesText and RemainderHasNoTerminator |
| Sentences.StripNonBlank | python/example_tts_low_latency_ws.py:27 | definition of the comprehension that strips the matches and keeps the non-blank ones; characterised by SplitKeepsEveryMatch and SplitFragmentsTrimmed |
| SentenceFacts.FindAllTilesText | python/example_tts_low_latency_ws.py:26-29 | the matches of `re.findall`, concatenated, followed by `text[matched_len:]`, give back the text: the matches tile a prefix with no gap |
| SentenceFacts.RemainderHasNoTerminator | python/example_tts_low_latency_ws.py:26-29 | the text after the last match holds no terminator |
| SentenceFacts.MatchesKeepRunsWhole | python/example_tts_low_latency_ws.py:26 | no two neighbouring matches meet inside a run of terminators, so `?!` or `...` stays in one match |
| SentenceFacts.FindAllCountsRuns | python/example_tts_low_latency_ws.py:26 | `re.findall` finds exactly one match per maximal run of terminators |
| SentenceFacts.SplitFragmentsTrimmed | python/example_tts_low_latency_ws.py:27-31 | every returned fragment is non-empty and has no leading or trailing whitespace |
| SentenceFacts.SplitKeepsEveryMatch | python/example_tts_low_latency_ws.py:26-31 | the fragments are the stripped matches in order, then the stripped remainder exactly when it is not blank |
| SentenceFacts.SplitFragmentsTerminated | python/example_tts_low_latency_ws.py:26-31 | there is one fragment per maximal terminator run, plus one when a non-blank tail remains; each run fragment ends with a terminator and the tail fragment holds none |
| SentenceFacts.SplitWithoutTerminator | python/example_tts_low_latency_ws.py:26-31 | text without a terminator gives `[]` when blank and `[text.strip()]` otherwise |
| Messages.SendsThenReceipts | python/example_websocket.py:55-64 | sending a request list then reading frames: the requests come in list order, every send precedes every read, and the reads are numbered in order |
| Latency.Measure | python/example_tts_low_latency_ws.py:131-140 | definition of the metrics of the first `n` steps; characterised by MeasureStep, AudioBytesIsSumLen, FirstAudioIsFirstChunk and MeasureBounds |
| Latency.Outcome | python/example_tts_low_latency_ws.py:115-141 | definition of what a latency loop returns; characterised by EndsAt, StopsAt, OutcomeIgnoresRest and InsertSkip |
| LatencyFacts.MeasureStep | python/example_tts_low_latency_ws.py:131-138 | one more non-ending step adds its payload length to the byte total and sets the time to first byte only when it is audio and none was set before |
| LatencyFacts.StopsAt | python/example_tts_low_latency_ws.py:115-129 | when the step at `n` ends the stream and no earlier one did, exactly `n + 1` frames are read and the call fails exactly when that step aborts |
| LatencyFacts.AudioBytesIsSumLen | python/example_tts_low_latency_ws.py:137-138 | the byte total equals the sum of the lengths of the audio payloads |
| LatencyFacts.FirstAudioIsFirstChunk | python/example_tts_low_latency_ws.py:134-136 | the first-audio reading is unset exactly when there is no payload, and is otherwise taken at the step that delivered the first payload |
| LatencyFacts.MeasureBounds | python/example_tts_low_latency_ws.py:135-140 | with readings between the start and the final reading, the total time is not negative and the time to first byte lies between zero and the total time |
| LatencyFacts.MeasurePrefix | python/example_tts_low_latency_ws.py:115-139 | steps appended after the first `n` change neither the payloads nor the metrics of the first `n` |
| LatencyFacts.OutcomeIgnoresRest | python/example_tts_low_latency_ws.py:115-129 | after the step that ends the stream nothing more is read, and how the connection closes afterwards does not matter |
| LatencyFacts.EndsAt | python/example_tts_low_latency_ws.py:115-141 | the stream ends at the first ending step: `None` when it aborts, otherwise the metrics of the steps before it |
| LatencyFacts.InsertSkip | python/example_tts_low_latency_ws.py:122-126 | inserting a step with nothing to do changes neither the payloads, nor the metrics, nor whether the call fails |
| LowLatencyWs.TimedRequests | python/example_tts_low_latency_ws.py:97-109 | definition of the timed requests: one flushing `send_text` per sentence, then `close_context`; characterised by TimedRequestsShape |
| LowLatencyWs.SetupStep | python/example_tts_low_latency_ws.py:83-91 | definition of one setup frame: fails on a frame that is not JSON, an `error` or a `null` result, is ready on `contextCreated`, and waits otherwise; characterised by AwaitContext, SetupFailure and SetupIgnoresWaiting |
| LowLatencyWs.StreamStep | python/example_tts_low_latency_ws.py:115-138 | definition of one streaming frame; characterised by StreamEndsAt, ErrorStillMeasures, NonJsonAborts and ClosedAddsNoAudio |
| LowLatencyWs.TtsResult | python/example_tts_low_latency_ws.py:65-148 | definition of what `websocket_tts` returns; characterised by WebSocketTts, SetupFailure, StreamEndsAt and TtsMetrics |
| LowLatencyWs.SessionTrace | python/example_tts_low_latency_ws.py:80-115 | definition of the order of sends, reads and the clock reading over an open connection; characterised by SessionRequests and SessionClock |
| LowLatencyWs.TtsTrace | python/example_tts_low_latency_ws.py:65-115 | definition of the order of sends, reads and the clock reading of `websocket_tts`; characterised by WebSocketTts, RequestsSent, SetupFailure and ClockStartsAfterAck |
| LowLatencyWs.WebSocketTts | python/example_tts_low_latency_ws.py:65-148 | the returned metrics or `None`, and the requests and reads in order, are `TtsResult` and `TtsTrace` |
| LowLatencyWs.AwaitContext | python/example_tts_low_latency_ws.py:83-91 | the setup loop succeeds exactly when `contextCreated` arrives before an `error`, a frame that is not JSON, a `null` result, or the end of the frames; it reads up to and including the deciding frame |
| LowLatencyWs.SendSentences | python/example_tts_low_latency_ws.py:97-109 | one flushing `send_text` per sentence in order, then one `close_context` |
| LowLatencyWs.ReceiveAudio | python/example_tts_low_latency_ws.py:112-141 | the streaming loop returns the recorder outcome of the frames after the acknowledgment and reads exactly those up to the ending one |
| LowLatencyWsFacts.StreamStepsAfter | python/example_tts_low_latency_ws.py:83-115 | the frames after the acknowledgment are exactly what the streaming loop reads |
| LowLatencyWsFacts.StreamEndsAt | python/example_tts_low_latency_ws.py:115-141 | after the acknowledgment the stream ends at the first ending frame: `None` when it is not JSON, otherwise the metrics of the frames before it, whatever follows |
| LowLatencyWsFacts.ErrorStillMeasures | python/example_tts_low_latency_ws.py:118-120 | an `error` frame while streaming still returns the metrics gathered so far |
| LowLatencyWsFacts.NonJsonAborts | python/example_tts_low_latency_ws.py:116 | a frame that is not JSON while streaming makes the call return `None` |
| LowLatencyWsFacts.ClosedAddsNoAudio | python/example_tts_low_latency_ws.py:128-131 | a result with `contextClosed` ends the stream and its `audioChunk` adds nothing |
| LowLatencyWsFacts.StreamRunsOut | python/example_tts_low_latency_ws.py:115-145 | when no frame ends the stream, a clean close returns the metrics of every frame and any other close returns `None` |
| LowLatencyWsFacts.SetupIgnoresWaiting | python/example_tts_low_latency_ws.py:83-91 | frames `SetupStep` judges `Wait` change nothing during setup: JSON objects without `error` whose `result` is missing or empty, or is an object without `contextCreated` |
| LowLatencyWsFacts.SetupFailure | python/example_tts_low_latency_ws.py:83-90 | an `error`, a frame that is not JSON, or a `null` result before `contextCreated` returns `None`, after sending only `create` and reading up to that frame |
| LowLatencyWsFacts.SessionRequests | python/example_tts_low_latency_ws.py:80-109 | the requests are `create`, then, only after `contextCreated`, the sentence requests in order and one `close_context` |
| LowLatencyWsFacts.RequestsSent | python/example_tts_low_latency_ws.py:80-109 | the requests of `websocket_tts` are `create` followed by the timed requests exactly when setup succeeds |
| LowLatencyWsFacts.SessionClock | python/example_tts_low_latency_ws.py:80-99 | over an open connection the clock is read exactly when `contextCreated` arrives, and then once: after `create` and the setup reads, and right before the first request that follows |
| LowLatencyWsFacts.ClockStartsAfterAck | python/example_tts_low_latency_ws.py:80-99 | `start_time` is read only after the acknowledging frame, which the setup loop judged ready, and before the first timed request, and nowhere else |
| LowLatencyWsFacts.TimedRequestsShape | python/example_tts_low_latency_ws.py:97-109 | the i-th timed request is the flushing `send_text` of the i-th sentence and the last is `close_context` for the same context |
| LowLatencyWsFacts.TtsMetrics | python/example_tts_low_latency_ws.py:112-141 | `ttfb` is unset exactly when no non-empty `audioChunk` arrived and is otherwise timed at the first; `audio_bytes` sums the decoded payloads; with a non-decreasing clock `0 <= ttfb <= total_time` |
| LowLatencyWsFacts.LatencyScenario | python/example_tts_low_latency_ws.py:83-141 | an acknowledgment, one three-byte chunk at tick 80 and `contextClosed` at tick 420 give time to first byte 80, total time 420 and three bytes |
| ContextFlow.Payload | python/example_websocket.py:90 | definition of the payload of a result with `audioChunk`; characterised by PayloadFallback |
| ContextFlow.FlowStep | python/example_websocket.py:64-115 | definition of one frame of the receive loop; characterised by FlowEndsAt, ContextClosedContinues, ResultNeverEndsFlow, NonJsonSkipped and PayloadFallback |
| ContextFlow.FlowResult | python/example_websocket.py:55-117 | definition of what the generator yields and how it ends; characterised by StreamTtsWithContext, FlowCounters and FlowEndsAt |
| ContextFlow.Contribution | python/example_websocket.py:141-145 | definition of what one chunk adds to the buffer; characterised by ContributionDropsHeader |
| ContextFlow.Saved | python/example_websocket.py:139-145 | definition of the buffer; characterised by SavedAppend and SavedLength |
| ContextFlow.SaveResult | python/example_websocket.py:136-158 | definition of what the consumer saves; characterised by SaveWebSocketAudio and SavedFromStream |
| ContextFlow.FlowTrace | python/example_websocket.py:55-64 | definition of the order of sends and reads of the generator; characterised by StreamTtsWithContext and RequestsBeforeFrames |
| ContextFlow.StreamTtsWithContext | python/example_websocket.py:45-127 | the yielded chunks, counters and ending, and the sends and reads in order, are `FlowResult` and `FlowTrace` |
| ContextFlow.SendRequests | python/example_websocket.py:55-56 | every request is sent, in list order |
| ContextFlow.ReceiveFrames | python/example_websocket.py:59-117 | the receive loop yields the payloads, counts them, sums their lengths and times the first, up to the first ending frame, and reads exactly the frames up to it |
| ContextFlow.SaveWebSocketAudio | python/example_websocket.py:136-145 | the buffer is the in-order concatenation of each chunk's contribution, the count is the number of chunks, and nothing is saved when the generator raises |
| ContextFlow.SynthesizeAndSave | python/example_websocket.py:161-164 | what is saved is the consumer's result over the generator's chunks |
| ContextFlowFacts.RequestsBeforeFrames | python/example_websocket.py:55-64 | all requests are sent in list order before any frame is read |
| ContextFlowFacts.FlowCounters | python/example_websocket.py:87-99 | `chunk_count` is the number of yielded chunks, `total_audio_size` the sum of their lengths, and `first_chunk_time` is unset exactly when none is yielded and is otherwise timed at the first chunk |
| ContextFlowFacts.SkippedFrameChangesNothing | python/example_websocket.py:74-80 | a frame with nothing to do, inserted anywhere, changes neither the chunks, nor the counters, nor how the generator ends |
| ContextFlowFacts.NonJsonSkipped | python/example_websocket.py:110-112 | a JSON decode error skips the frame and leaves every counter unchanged |
| ContextFlowFacts.ContextClosedContinues | python/example_websocket.py:69-99 | `contextClosed` does not end the loop: such a frame without audio is skipped |
| ContextFlowFacts.ResultNeverEndsFlow | python/example_websocket.py:69-99 | without an `error`, a frame with a truthy `result` never ends the loop, whether it reports `contextClosed` or carries `done` |
| ContextFlowFacts.FlowEndsAt | python/example_websocket.py:69-80 | an `error`, or a result-less frame with `done`, ends the loop with what came before it, whatever follows and however the connection closes |
| ContextFlowFacts.PayloadFallback | python/example_websocket.py:87-99 | a result with `audioChunk` yields the nested `audioContent` when it is non-empty, else the top-level one when that is non-empty, else nothing; `done` makes no difference |
| ContextFlowFacts.ContributionDropsHeader | python/example_websocket.py:141-145 | a chunk longer than 44 bytes starting with `RIFF` loses exactly its first 44 bytes; every other chunk, a 44-byte `RIFF` chunk included, is kept whole |
| ContextFlowFacts.SavedAppend | python/example_websocket.py:139-145 | the buffer of two runs of chunks is the buffer of the first followed by that of the second |
| ContextFlowFacts.SavedLength | python/example_websocket.py:136-145 | the buffer length is the sum of the contributions' lengths, which is the chunks' total length less 44 per chunk that had a header |
| ContextFlowFacts.SavedFromStream | python/example_websocket.py:136-154 | the saved chunk count equals the generator's `chunk_count`, and the audio length is `total_audio_size` less 44 per stripped header |
| LowLatencyHttp.ErrorStatus | python/example_tts_low_latency_http.py:91 | definition of the statuses on which `raise_for_status` raises; characterised by FailureGivesNone |
| LowLatencyHttp.PostRaises | python/example_tts_low_latency_http.py:83 | definition of when the non-streaming warmup post raises: in transport or while its body is read; characterised by FailureGivesNone and ClockStartsAfterWarmup |
| LowLatencyHttp.LineStep | python/example_tts_low_latency_http.py:93-104 | definition of one response line: blank and non-JSON lines are skipped, a line that raises aborts, and a string `audioContent` is audio; characterised by LinesEndOnlyOnRaise, BlankLineSkipped, NonAudioLineSkipped and HttpMetrics |
| LowLatencyHttp.RaisesOut | python/example_tts_low_latency_http.py:94-104 | definition of a response with a line that raises out of the loop; characterised by LinesEndOnlyOnRaise |
| LowLatencyHttp.HttpRaises | python/example_tts_low_latency_http.py:83-119 | definition of a call that ends with an exception it does not catch; characterised by HttpStreamingTts and RaisingLineEscapes |
| LowLatencyHttp.HttpResult | python/example_tts_low_latency_http.py:65-119 | definition of what `http_streaming_tts` returns; characterised by FailureGivesNone, WarmupNotCounted, HttpMetrics and HttpTimingBounds |
| LowLatencyHttp.HttpPosts | python/example_tts_low_latency_http.py:83-90 | definition of the posts made; characterised by HttpStreamingTts and ClockStartsAfterWarmup |
| LowLatencyHttp.ClockAt | python/example_tts_low_latency_http.py:83-90 | definition of how many posts have been made when `start_time` is read; characterised by ClockStartsAfterWarmup and HttpStreamingTts |
| LowLatencyHttp.Session.constructor | python/example_tts_low_latency_http.py:65-66 | a new session has made no posts and is open |
| LowLatencyHttp.Session.Post | python/example_tts_low_latency_http.py:83 | a post through an open session is appended to its posts |
| LowLatencyHttp.Session.Close | python/example_tts_low_latency_http.py:118-119 | closing marks the session closed and keeps its posts |
| LowLatencyHttp.HttpStreamingTts | python/example_tts_low_latency_http.py:65-119 | the result is `HttpResult`; the session posts the warmup and then, unless that raised, the timed request; the clock is read exactly when the warmup did not raise, after the warmup and before the timed post, and metrics imply that it was read; `raised` holds exactly when a line raises out of the call, which then returns nothing; the session is closed on every way out, that one included |
| LowLatencyHttp.ReadLines | python/example_tts_low_latency_http.py:93-107 | the line loop returns the recorder outcome of the classified lines: `None` when a line raises, or when reading fails part-way; it reports a raise exactly when some line raises |
| LowLatencyHttp.LinesEndOnlyOnRaise | python/example_tts_low_latency_http.py:93-104 | only a line that raises ends the loop early: every line is read unless one raises, and then reading stops at the first that does |
| LowLatencyHttpFacts.WarmupNotCounted | python/example_tts_low_latency_http.py:83 | any two warmup responses that do not raise, whatever their status and lines, give the same result: the warmup is neither status-checked nor counted |
| LowLatencyHttpFacts.FailureGivesNone | python/example_tts_low_latency_http.py:83-117 | there are no metrics exactly when the warmup post raises in transport or while its body is read, the timed post raises, its status is 400 to 599, reading its lines fails, or one of its lines raises |
| LowLatencyHttpFacts.MetricsReadEveryLine | python/example_tts_low_latency_http.py:93-107 | metrics come only from a response whose every line was read without raising |
| LowLatencyHttpFacts.RaisingLineEscapes | python/example_tts_low_latency_http.py:93-119 | a line that raises out of the loop leaves the call after both posts, with the clock read between them and no metrics; reading stops at the first such line |
| LowLatencyHttpFacts.ClockStartsAfterWarmup | python/example_tts_low_latency_http.py:83-90 | both posts are made, and the clock is read, exactly when the warmup does not raise; the posts made before the reading are the warmup alone and the next one is the timed request; metrics come only from a session whose clock was read |
| LowLatencyHttpFacts.HttpMetrics | python/example_tts_low_latency_http.py:87-102 | `ttfb` is unset exactly when no line carries audio and is otherwise timed at the first such line; `audio_bytes` sums the decoded lengths |
| LowLatencyHttpFacts.HttpTimingBounds | python/example_tts_low_latency_http.py:86-106 | with a clock read after the warmup, at each line and at the end, `0 <= ttfb <= total_time` |
| LowLatencyHttpFacts.SkippedLineChangesNothing | python/example_tts_low_latency_http.py:93-104 | a line with nothing to do, inserted anywhere, changes nothing |
| LowLatencyHttpFacts.BlankLineSkipped | python/example_tts_low_latency_http.py:94 | a line that is blank after stripping is skipped |
| LowLatencyHttpFacts.NonAudioLineSkipped | python/example_tts_low_latency_http.py:95-104 | a line that is not JSON contributes nothing, and neither does a line that does not raise and whose `result` is falsy or lacks `audioContent` |
| LowLatencyHttpFacts.HttpScenario | python/example_tts_low_latency_http.py:83-107 | two audio lines of 1000 and 2000 bytes around a malformed line give 3000 bytes, timed at the first, whatever the warmup status |

## Left out

- Network I/O (`websockets.connect`, `send`, `recv`, `requests.Session.post`): the inbound traffic is a given sequence and the requests sent are a trace. The asyncio and async-generator mechanics are left out; the generator is a method returning its chunks and how it ends.
- A failing `send`: in the model every WebSocket `send` succeeds. In the code, a `send` after the server has closed the connection raises `ConnectionClosed`. In `websocket_tts` (sends at python/example_tts_low_latency_ws.py:80, 106 and 109) the handler at lines 143-145 then makes the call return `None`. In `stream_tts_with_context` (send at python/example_websocket.py:56) the handlers at lines 117-125 re-raise it from the generator.
- JSON parsing: a frame is either not JSON or an object reduced to the keys the clients test. Its `result` is missing or empty, `null`, or a non-empty object; a `null` result makes the setup loop's `in` test raise, and the streaming loops treat it as falsy. `hasError` is the presence of the `error` key; in `stream_tts_with_context` it stands for an `error` that is an object, since that generator calls `.get` on it. `done` is its truthiness. An `audioChunk`, when present, is an object.
- JSON shapes outside that model. In the HTTP client, those that raise are the abstract `raises` flag of a line, and those that do not raise behave as a line without `audioContent`. In the two WebSocket clients they are not covered:
  - a top-level value that is not an object;
  - a `result` that is a string, list, number or boolean, on which the `in` tests are substring or membership tests, or raise;
  - an `audioChunk` that is `null` or not an object, on which `.get` raises: `websocket_tts` then returns `None` and `stream_tts_with_context` re-raises;
  - an `error` that is not an object in `stream_tts_with_context`, on which `.get` raises and the generator re-raises;
  - an `audioContent` that is truthy but not a string, which `base64.b64decode` rejects. In `http_streaming_tts` even a falsy one such as `null` raises, since only the key is tested; that case is `raises` there.
- Base64 decoding: each `audioContent` string carries the bytes it decodes to. An invalid base64 string raises. In the HTTP client that case is `raises`; in the WebSocket clients it is not modelled.
- The wall clock: readings are natural-number ticks given as inputs, not floating-point seconds, and the millisecond formatting of the `main` drivers is left out.
- The line framing inside `response.iter_lines`: the response is taken as a sequence of lines.
- Writing the WAV file (`wave.open`, python/example_websocket.py:148-152): the model stops at the buffer that would be written.
- Console printing, the `status` and `timestampInfo` logging, the API-key environment check and the `main` drivers.
- The `KeyError` handler of python/example_websocket.py:113-115: no lookup in the receive loop can raise it, so no frame takes that path.
- The `bytearray` that `save_websocket_audio_to_file` extends in place is a local sequence.
