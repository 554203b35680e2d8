/**
 * `stream_tts_with_context` and `save_websocket_audio_to_file` of python/example_websocket.py:
 * the multi-request context flow.
 *
 * With the connection open the generator sends every request of a given list, in order,
 * and only then reads frames. A frame that is not JSON is skipped; an `error` or a
 * result-less `done` ends the loop; `contextClosed` does not. Each non-empty audio payload
 * is yielded, counted and timed against the clock reading `recvStart` taken before the
 * first read. A clean close after the last frame ends the generator normally; any other
 * close, or a connection that cannot be opened, makes it raise.
 *
 * The consumer concatenates the yielded chunks into one buffer, dropping the 44-byte WAV
 * header of every chunk longer than 44 bytes that starts with `RIFF`.
 */
module ContextFlow {
  import opened Wrappers
  import opened Seqs
  import opened Messages
  import opened Latency
  import opened LatencyFacts

  /** The base64 payload of a result: the nested `audioChunk.audioContent` when it is
      non-empty, the top-level `audioContent` otherwise. */
  function Payload(r: Res): Option<Content>
    requires r.audioChunk.Some?
  {
    if Truthy(r.audioChunk.value.audioContent) then r.audioChunk.value.audioContent else r.audioContent
  }

  /** One frame of the receive loop. `json.loads` raising is caught per frame, so a frame
      that is not JSON is skipped; only a result with `audioChunk` can carry audio. */
  function FlowStep(f: Frame): Step
  {
    match f
    case NonJson => Skip
    case Object(hasError, result, done) =>
      if hasError then Stop
      else if !result.Present? then (if done then Stop else Skip)
      else if result.res.audioChunk.Some? && Truthy(Payload(result.res)) then
        Audio(Payload(result.res).value.decoded)
      else Skip
  }

  function FlowTimed(x: Inbound): Timed
  {
    Timed(FlowStep(x.frame), x.at)
  }

  function FlowSteps(frames: seq<Inbound>): seq<Timed>
  {
    Map(FlowTimed, frames)
  }

  /** How the generator ends: it returns, or it raises. */
  datatype Ending = Finished | Raised

  /** What the generator produces: the yielded chunks, its counters and how it ends. */
  datatype Stream = Stream(chunks: seq<seq<bv8>>, chunkCount: nat, totalAudioSize: nat,
                           firstChunkTime: Option<int>, ending: Ending)

  /** What `stream_tts_with_context` yields and counts. */
  function FlowResult(connected: bool, frames: seq<Inbound>, endsNormally: bool, recvStart: nat): Stream
  {
    if !connected then Stream([], 0, 0, None, Raised)
    else
      var s := FlowSteps(frames);
      var k := StopIndex(s);
      Stream(ChunksTo(s, k), |ChunksTo(s, k)|, AudioBytes(s, k), Since(FirstAudioAt(s, k), recvStart),
             if Failed(s, endsNormally) then Raised else Finished)
  }

  /** The requests sent and the frames read, in order. */
  function FlowTrace(requests: seq<Outbound>, connected: bool, frames: seq<Inbound>): seq<Event>
  {
    if !connected then [] else Sends(requests) + Receipts(0, ReadCount(FlowSteps(frames)))
  }

  /** `stream_tts_with_context(api_key, requests)`, run to its end: every request is sent
      before the first frame is read. */
  method StreamTtsWithContext(requests: seq<Outbound>, connected: bool, frames: seq<Inbound>,
                              endsNormally: bool, recvStart: nat)
    returns (stream: Stream, trace: seq<Event>)
    ensures stream == FlowResult(connected, frames, endsNormally, recvStart)
    ensures trace == FlowTrace(requests, connected, frames)
  {
    if !connected {
      return Stream([], 0, 0, None, Raised), [];
    }
    var sent := SendRequests(requests);
    var received;
    stream, received := ReceiveFrames(frames, endsNormally, recvStart);
    trace := sent + received;
  }

  /** The `for request in requests` loop. */
  method SendRequests(requests: seq<Outbound>) returns (trace: seq<Event>)
    ensures trace == Sends(requests)
  {
    trace := [];
    for i := 0 to |requests|
      invariant trace == Sends(requests[..i])
    {
      assert requests[..i + 1] == requests[..i] + [requests[i]];
      SendsSnoc(requests[..i], requests[i]);
      trace := trace + [Sent(requests[i])];
    }
    assert requests[..|requests|] == requests;
  }

  /** The `while True` receive loop, from the first read to the end of the stream. */
  method ReceiveFrames(frames: seq<Inbound>, endsNormally: bool, recvStart: nat)
    returns (stream: Stream, trace: seq<Event>)
    ensures stream == FlowResult(true, frames, endsNormally, recvStart)
    ensures trace == Receipts(0, ReadCount(FlowSteps(frames)))
  {
    ghost var s := FlowSteps(frames);
    var chunks: seq<seq<bv8>> := [];
    var chunkCount := 0;
    var totalAudioSize := 0;
    var firstChunkTime: Option<int> := None;
    var n := 0;
    trace := [];
    while n < |frames|
      invariant n <= StopIndex(s)
      invariant chunks == ChunksTo(s, n) && chunkCount == |chunks|
      invariant totalAudioSize == AudioBytes(s, n)
      invariant firstChunkTime == Since(FirstAudioAt(s, n), recvStart)
      invariant trace == Receipts(0, n)
    {
      trace := trace + [Received(n)];
      var step := FlowStep(frames[n].frame);
      MapIndex(FlowTimed, frames, n);
      if step.Stop? {
        StopsAt(s, n, endsNormally);
        return Stream(chunks, chunkCount, totalAudioSize, firstChunkTime, Finished), trace;
      }
      FirstAudioAtStep(s, n);
      FirstAudioIsFirstChunk(s, n);
      if step.Audio? {
        chunkCount := chunkCount + 1;
        totalAudioSize := totalAudioSize + |step.bytes|;
        if chunkCount == 1 {
          firstChunkTime := Some(frames[n].at - recvStart);
        }
        chunks := chunks + [step.bytes];
      }
      n := n + 1;
    }
    var ending := if endsNormally then Finished else Raised;
    stream := Stream(chunks, chunkCount, totalAudioSize, firstChunkTime, ending);
  }

  /** The first four bytes of a WAV file. */
  const RiffTag: seq<bv8> := [0x52, 0x49, 0x46, 0x46]

  /** The header length the consumer drops. */
  const HeaderLength: nat := 44

  predicate HasHeader(chunk: seq<bv8>)
  {
    |chunk| > HeaderLength && chunk[..4] == RiffTag
  }

  /** What one chunk adds to the buffer. */
  function Contribution(chunk: seq<bv8>): seq<bv8>
  {
    if HasHeader(chunk) then chunk[HeaderLength..] else chunk
  }

  /** The buffer: the contributions of the chunks, in order. */
  function Saved(chunks: seq<seq<bv8>>): seq<bv8>
  {
    Concat(Map(Contribution, chunks))
  }

  /** The audio written to the file and the number of chunks processed. */
  datatype SavedAudio = SavedAudio(audio: seq<bv8>, chunkCount: nat)

  /** What `save_websocket_audio_to_file` writes, or `None` when the generator raises. */
  function SaveResult(stream: Stream): Option<SavedAudio>
  {
    if stream.ending == Raised then None else Some(SavedAudio(Saved(stream.chunks), |stream.chunks|))
  }

  /** `save_websocket_audio_to_file`: the loop that extends the buffer chunk by chunk. */
  method SaveWebSocketAudio(stream: Stream) returns (saved: Option<SavedAudio>)
    ensures saved == SaveResult(stream)
  {
    var rawAudio: seq<bv8> := [];
    var chunkCount := 0;
    for k := 0 to |stream.chunks|
      invariant rawAudio == Saved(stream.chunks[..k]) && chunkCount == k
    {
      var chunk := stream.chunks[k];
      chunkCount := chunkCount + 1;
      MapSnoc(Contribution, stream.chunks, k);
      ConcatSnoc(Map(Contribution, stream.chunks[..k]), Contribution(chunk));
      if |chunk| > HeaderLength && chunk[..4] == RiffTag {
        rawAudio := rawAudio + chunk[HeaderLength..];
      } else {
        rawAudio := rawAudio + chunk;
      }
    }
    assert stream.chunks[..|stream.chunks|] == stream.chunks;
    if stream.ending == Raised {
      return None;
    }
    saved := Some(SavedAudio(rawAudio, chunkCount));
  }

  /** `synthesize_and_save_with_context`: the generator feeding the consumer. */
  method SynthesizeAndSave(requests: seq<Outbound>, connected: bool, frames: seq<Inbound>,
                           endsNormally: bool, recvStart: nat)
    returns (saved: Option<SavedAudio>, trace: seq<Event>)
    ensures saved == SaveResult(FlowResult(connected, frames, endsNormally, recvStart))
    ensures trace == FlowTrace(requests, connected, frames)
  {
    var stream;
    stream, trace := StreamTtsWithContext(requests, connected, frames, endsNormally, recvStart);
    saved := SaveWebSocketAudio(stream);
  }
}


/** What the context flow promises, proved about `FlowResult`, `FlowTrace` and `Saved`. */
module ContextFlowFacts {
  import opened Wrappers
  import opened Seqs
  import opened Messages
  import opened Latency
  import opened LatencyFacts
  import opened ContextFlow

  /** Every request is sent, in list order, before any frame is read; then the frames are
      read in order. */
  lemma RequestsBeforeFrames(requests: seq<Outbound>, frames: seq<Inbound>)
    ensures var trace := FlowTrace(requests, true, frames);
      && Requests(trace) == requests
      && |requests| <= |trace|
      && (forall i | 0 <= i < |requests| :: trace[i] == Sent(requests[i]))
      && (forall i | |requests| <= i < |trace| :: trace[i] == Received(i - |requests|))
  {
    SendsThenReceipts(requests, ReadCount(FlowSteps(frames)));
  }

  /** The yielded chunks are the decoded payloads in arrival order: `chunk_count` is their
      number, `total_audio_size` the sum of their lengths, and `first_chunk_time` is unset
      exactly when there is none and is otherwise the reading at the first chunk. */
  lemma FlowCounters(frames: seq<Inbound>, endsNormally: bool, recvStart: nat)
    ensures var r := FlowResult(true, frames, endsNormally, recvStart);
      var s := FlowSteps(frames);
      && r.chunkCount == |r.chunks|
      && r.totalAudioSize == SumLen(r.chunks)
      && (r.firstChunkTime.None? <==> r.chunks == [])
      && (r.chunks != [] ==>
            r.chunks[0] == s[FirstAudio(s)].step.bytes &&
            r.firstChunkTime == Some(frames[FirstAudio(s)].at - recvStart))
  {
    var s := FlowSteps(frames);
    var k := StopIndex(s);
    AudioBytesIsSumLen(s, k);
    FirstAudioIsFirstChunk(s, k);
    if ChunksTo(s, k) != [] {
      MapIndex(FlowTimed, frames, FirstAudio(s));
    }
  }

  /** A frame with nothing to do, inserted anywhere, changes neither the chunks, nor the
      counters, nor how the generator ends. */
  lemma SkippedFrameChangesNothing(pre: seq<Inbound>, x: Inbound, post: seq<Inbound>,
                                   endsNormally: bool, recvStart: nat)
    requires FlowStep(x.frame).Skip?
    ensures FlowResult(true, pre + [x] + post, endsNormally, recvStart) ==
            FlowResult(true, pre + post, endsNormally, recvStart)
  {
    MapAppend(FlowTimed, pre + [x], post);
    MapAppend(FlowTimed, pre, [x]);
    MapAppend(FlowTimed, pre, post);
    assert Map(FlowTimed, [x]) == [FlowTimed(x)] by {
      assert [x][..0] == [];
    }
    InsertSkip(Map(FlowTimed, pre), FlowTimed(x), Map(FlowTimed, post), endsNormally, recvStart, recvStart);
  }

  /** A JSON decode error skips the frame and leaves every counter unchanged. */
  lemma NonJsonSkipped(pre: seq<Inbound>, at: nat, post: seq<Inbound>, endsNormally: bool, recvStart: nat)
    ensures FlowResult(true, pre + [Inbound(NonJson, at)] + post, endsNormally, recvStart) ==
            FlowResult(true, pre + post, endsNormally, recvStart)
  {
    SkippedFrameChangesNothing(pre, Inbound(NonJson, at), post, endsNormally, recvStart);
  }

  /** `contextClosed` does not end the loop: a result reporting it and carrying no audio is
      skipped like any other. */
  lemma ContextClosedContinues(pre: seq<Inbound>, x: Inbound, post: seq<Inbound>,
                               endsNormally: bool, recvStart: nat)
    requires x.frame.Object? && !x.frame.hasError && x.frame.result.Present?
    requires x.frame.result.res.contextClosed && x.frame.result.res.audioChunk.None?
    ensures FlowResult(true, pre + [x] + post, endsNormally, recvStart) ==
            FlowResult(true, pre + post, endsNormally, recvStart)
  {
    SkippedFrameChangesNothing(pre, x, post, endsNormally, recvStart);
  }

  /** An `error`, or a result-less frame with `done`, ends the loop: the generator returns
      what came before it, whatever follows and however the connection closes. */
  lemma FlowEndsAt(body: seq<Inbound>, x: Inbound, after: seq<Inbound>, endsNormally: bool, recvStart: nat)
    requires forall i | 0 <= i < |body| :: !FlowStep(body[i].frame).Stop?
    requires x.frame.Object? && (x.frame.hasError || (!x.frame.result.Present? && x.frame.done))
    ensures FlowResult(true, body + [x] + after, endsNormally, recvStart) ==
            FlowResult(true, body, true, recvStart)
  {
    var b := Map(FlowTimed, body);
    var tail := [FlowTimed(x)] + Map(FlowTimed, after);
    AppendAssoc3(body, [x], after);
    MapAppend(FlowTimed, body, [x] + after);
    MapAppend(FlowTimed, [x], after);
    assert Map(FlowTimed, [x]) == [FlowTimed(x)] by {
      assert [x][..0] == [];
    }
    MapEach(FlowTimed, body);
    FirstFromAfter(b, tail, Ends);
    FirstFromIs(b, 0, Ends, |b|);
    MeasurePrefix(b, tail, |b|, recvStart, recvStart);
  }

  /** A result with `audioChunk` yields the nested `audioContent` when it is non-empty, falls
      back to the top-level one when the nested one is absent or empty, and yields nothing
      when both are; `done` makes no difference to such a frame. */
  lemma PayloadFallback(r: Res, done: bool)
    requires r.audioChunk.Some?
    ensures FlowStep(Object(false, Present(r), done)) ==
      if Truthy(r.audioChunk.value.audioContent) then Audio(r.audioChunk.value.audioContent.value.decoded)
      else if Truthy(r.audioContent) then Audio(r.audioContent.value.decoded)
      else Skip
  {
  }

  /** Without an `error`, a frame with a truthy `result` never ends the loop, whatever it
      reports (`contextClosed` included) and whether or not it carries `done`. */
  lemma ResultNeverEndsFlow(x: Inbound)
    requires x.frame.Object? && !x.frame.hasError && x.frame.result.Present?
    ensures !Ends(FlowTimed(x))
  {
  }

  /** A chunk that starts with `RIFF` and is longer than the header loses exactly the
      header; any other chunk, a 44-byte `RIFF` chunk included, is kept whole. */
  lemma ContributionDropsHeader(chunk: seq<bv8>)
    ensures HasHeader(chunk) ==>
      |Contribution(chunk)| == |chunk| - HeaderLength && chunk == chunk[..HeaderLength] + Contribution(chunk)
    ensures !HasHeader(chunk) ==> Contribution(chunk) == chunk
    ensures |chunk| == HeaderLength && chunk[..4] == RiffTag ==> Contribution(chunk) == chunk
  {
  }

  /** Saving a stream chunk by chunk: the buffer of two runs of chunks is the buffer of the
      first followed by that of the second. */
  lemma SavedAppend(xs: seq<seq<bv8>>, ys: seq<seq<bv8>>)
    ensures Saved(xs + ys) == Saved(xs) + Saved(ys)
  {
    MapAppend(Contribution, xs, ys);
    ConcatAppend(Map(Contribution, xs), Map(Contribution, ys));
  }

  /** The number of chunks whose header is dropped. */
  function HeaderCount(chunks: seq<seq<bv8>>): nat
  {
    if chunks == [] then 0
    else HeaderCount(chunks[..|chunks| - 1]) + (if HasHeader(Last(chunks)) then 1 else 0)
  }

  /** The buffer is as long as the chunks together, less one header per chunk that has one. */
  lemma {:induction false} SavedLength(chunks: seq<seq<bv8>>)
    ensures |Saved(chunks)| == SumLen(chunks) - HeaderLength * HeaderCount(chunks)
    ensures |Saved(chunks)| == SumLen(Map(Contribution, chunks))
  {
    ConcatLength(Map(Contribution, chunks));
    if chunks != [] {
      var p := chunks[..|chunks| - 1];
      SavedLength(p);
      assert chunks == p + [Last(chunks)];
      SavedAppend(p, [Last(chunks)]);
      SumLenAppend(p, [Last(chunks)]);
      SumLenSingle(Last(chunks));
      assert Map(Contribution, [Last(chunks)]) == [Contribution(Last(chunks))] by {
        assert [Last(chunks)][..0] == [];
      }
      ConcatSnoc([], Contribution(Last(chunks)));
    }
  }

  /** What is saved: `None` when the generator raises, and otherwise the buffer of the
      yielded chunks together with their number. */
  lemma SavedFromStream(frames: seq<Inbound>, endsNormally: bool, recvStart: nat)
    ensures var r := FlowResult(true, frames, endsNormally, recvStart);
      SaveResult(r).Some? ==>
        (SaveResult(r).value.chunkCount == r.chunkCount &&
         |SaveResult(r).value.audio| == r.totalAudioSize - HeaderLength * HeaderCount(r.chunks))
  {
    var r := FlowResult(true, frames, endsNormally, recvStart);
    FlowCounters(frames, endsNormally, recvStart);
    SavedLength(r.chunks);
  }
}
