/**
 * The messages the three clients exchange with the Inworld text-to-speech service,
 * once JSON parsing and base64 decoding are abstracted away.
 *
 * An inbound WebSocket frame or an NDJSON line is either text that is not JSON,
 * or an object of which only the keys the clients inspect are kept. Its `result`
 * is missing or an empty object, `null`, or a non-empty object: the three behave
 * differently in the setup loop of the low-latency WebSocket client. A base64 string
 * is kept together with the bytes it decodes to; an empty string is falsy.
 */
module Messages {
  import opened Wrappers
  import opened Seqs

  /** A base64 `audioContent` string and the bytes `base64.b64decode` makes of it. */
  datatype Content = Content(encoded: string, decoded: seq<bv8>)

  /** The `audioChunk` object of a result. */
  datatype AudioChunk = AudioChunk(audioContent: Option<Content>)

  /** A non-empty `result` object: which of the keys the clients test for are present. */
  datatype Res = Res(
    contextCreated: bool,
    contextClosed: bool,
    audioChunk: Option<AudioChunk>,
    audioContent: Option<Content>)

  /** The `result` key of an object. A missing key and an empty object are both falsy, and
      `data.get("result", {})` makes the two alike; `null` is falsy too, but tests with `in`
      raise on it. */
  datatype ResultKey = Missing | Null | Present(res: Res)

  /** One inbound frame or line. */
  datatype Frame =
    | NonJson
    | Object(hasError: bool, result: ResultKey, done: bool)

  /** A frame together with the clock reading taken while it is handled. */
  datatype Inbound = Inbound(frame: Frame, at: nat)

  /** Python truthiness of an optional base64 string: present and non-empty. */
  predicate Truthy(c: Option<Content>)
  {
    c.Some? && c.value.encoded != []
  }

  datatype AudioConfig = AudioConfig(encoding: string, sampleRateHertz: nat, bitRate: Option<nat>)

  /** The WebSocket requests: `create`, `send_text` and `close_context`, each for one context. */
  datatype Outbound =
    | Create(contextId: string, voiceId: string, modelId: string, config: AudioConfig,
             bufferCharThreshold: Option<nat>)
    | SendText(contextId: string, text: string, flush: bool)
    | CloseContext(contextId: string)

  /** What a WebSocket client does, in order: send a request, read the inbound frame with
      the given index, or read the clock that starts the measurement. */
  datatype Event = Sent(msg: Outbound) | Received(index: nat) | Started

  /** Reading the frames `lo` up to `hi`, one after the other. */
  function Receipts(lo: nat, hi: nat): (r: seq<Event>)
    requires lo <= hi
    ensures |r| == hi - lo
    decreases hi - lo
  {
    if lo == hi then [] else Receipts(lo, hi - 1) + [Received(hi - 1)]
  }

  /** Sending the requests of `msgs`, one after the other. */
  function Sends(msgs: seq<Outbound>): (r: seq<Event>)
    ensures |r| == |msgs|
  {
    if msgs == [] then [] else Sends(msgs[..|msgs| - 1]) + [Sent(Last(msgs))]
  }

  lemma {:induction false} ReceiptsEach(lo: nat, hi: nat)
    requires lo <= hi
    ensures forall k | 0 <= k < hi - lo :: Receipts(lo, hi)[k] == Received(lo + k)
    decreases hi - lo
  {
    if lo < hi {
      ReceiptsEach(lo, hi - 1);
    }
  }

  lemma {:induction false} SendsEach(msgs: seq<Outbound>)
    ensures forall k | 0 <= k < |msgs| :: Sends(msgs)[k] == Sent(msgs[k])
  {
    if msgs != [] {
      SendsEach(msgs[..|msgs| - 1]);
    }
  }

  /** Sending one more request appends its event. */
  lemma SendsSnoc(msgs: seq<Outbound>, m: Outbound)
    ensures Sends(msgs + [m]) == Sends(msgs) + [Sent(m)]
  {
    assert (msgs + [m])[..|msgs|] == msgs;
  }

  /** The requests of a trace, in the order they are sent. */
  function Requests(trace: seq<Event>): seq<Outbound>
  {
    if trace == [] then []
    else Requests(trace[..|trace| - 1]) + (if Last(trace).Sent? then [Last(trace).msg] else [])
  }

  lemma {:induction false} RequestsAppend(a: seq<Event>, b: seq<Event>)
    ensures Requests(a + b) == Requests(a) + Requests(b)
    decreases |b|
  {
    if b == [] {
      assert a + b == a;
    } else {
      var b' := b[..|b| - 1];
      assert (a + b)[..|a + b| - 1] == a + b';
      RequestsAppend(a, b');
    }
  }

  /** Reading frames sends nothing. */
  lemma {:induction false} RequestsOfReceipts(lo: nat, hi: nat)
    requires lo <= hi
    ensures Requests(Receipts(lo, hi)) == []
    decreases hi - lo
  {
    if lo < hi {
      RequestsOfReceipts(lo, hi - 1);
      assert Receipts(lo, hi)[..hi - lo - 1] == Receipts(lo, hi - 1);
    }
  }

  /** Sending `msgs` sends exactly `msgs`, in order. */
  lemma {:induction false} RequestsOfSends(msgs: seq<Outbound>)
    ensures Requests(Sends(msgs)) == msgs
  {
    if msgs != [] {
      RequestsOfSends(msgs[..|msgs| - 1]);
      assert Sends(msgs)[..|msgs| - 1] == Sends(msgs[..|msgs| - 1]);
    }
  }

  /** A request followed by reads sends just that request. */
  lemma RequestsOfOpening(m: Outbound, lo: nat, hi: nat)
    requires lo <= hi
    ensures Requests([Sent(m)] + Receipts(lo, hi)) == [m]
  {
    assert [Sent(m)][..0] == [];
    RequestsOfReceipts(lo, hi);
    RequestsAppend([Sent(m)], Receipts(lo, hi));
  }

  /** A request, some reads, the clock start, the requests `msgs`, then more reads send the
      first request followed by `msgs`. */
  lemma {:induction false} RequestsOfSession(m: Outbound, lo: nat, hi: nat, msgs: seq<Outbound>, lo': nat, hi': nat)
    requires lo <= hi && lo' <= hi'
    ensures Requests([Sent(m)] + Receipts(lo, hi) + ([Started] + (Sends(msgs) + Receipts(lo', hi')))) == [m] + msgs
  {
    var body := Sends(msgs) + Receipts(lo', hi');
    RequestsOfSends(msgs);
    RequestsOfReceipts(lo', hi');
    RequestsAppend(Sends(msgs), Receipts(lo', hi'));
    assert Requests([Started]) == [] by {
      assert [Started][..0] == [];
    }
    RequestsAppend([Started], body);
    RequestsOfOpening(m, lo, hi);
    RequestsAppend([Sent(m)] + Receipts(lo, hi), [Started] + body);
  }

  /** A request followed by reads: the request, then the reads in order, and no clock start. */
  lemma OpeningLayout(m: Outbound, lo: nat, hi: nat)
    requires lo <= hi
    ensures var opening := [Sent(m)] + Receipts(lo, hi);
      && |opening| == 1 + (hi - lo) && opening[0] == Sent(m)
      && (forall i | 1 <= i < |opening| :: opening[i] == Received(lo + i - 1))
      && Started !in opening
  {
    ReceiptsEach(lo, hi);
    var opening := [Sent(m)] + Receipts(lo, hi);
    forall i | 1 <= i < |opening|
      ensures opening[i] == Received(lo + i - 1)
    {
      assert opening[i] == Receipts(lo, hi)[i - 1];
    }
  }

  /** Requests followed by reads: the requests first, in order, and no clock start. */
  lemma BodyLayout(msgs: seq<Outbound>, lo: nat, hi: nat)
    requires lo <= hi
    ensures var body := Sends(msgs) + Receipts(lo, hi);
      && (forall j | 0 <= j < |msgs| :: body[j] == Sent(msgs[j]))
      && Started !in body
  {
    SendsEach(msgs);
    ReceiptsEach(lo, hi);
    var body := Sends(msgs) + Receipts(lo, hi);
    forall j | |msgs| <= j < |body|
      ensures body[j] == Received(lo + j - |msgs|)
    {
      assert body[j] == Receipts(lo, hi)[j - |msgs|];
    }
  }

  /** The trace reads the clock at index `k` and nowhere else. */
  predicate StartsOnlyAt(trace: seq<Event>, k: nat)
  {
    k < |trace| && trace[k] == Started && forall i | 0 <= i < |trace| && i != k :: trace[i] != Started
  }

  /** A clock start between two runs of events that hold none is the only one. */
  lemma StartedOnce(opening: seq<Event>, body: seq<Event>)
    requires Started !in opening && Started !in body
    ensures var trace := opening + ([Started] + body);
      && trace[|opening|] == Started
      && (forall i | 0 <= i < |opening| :: trace[i] == opening[i])
      && (forall j | 0 <= j < |body| :: trace[|opening| + 1 + j] == body[j])
      && (forall i | 0 <= i < |trace| && i != |opening| :: trace[i] != Started)
  {
    var trace := opening + ([Started] + body);
    forall i | 0 <= i < |trace| && i != |opening|
      ensures trace[i] != Started
    {
      if i < |opening| {
        assert trace[i] == opening[i];
      } else {
        assert trace[i] == body[i - |opening| - 1];
      }
    }
  }

  /** In a session the clock starts exactly once: after the first request and the `n` reads
      of the opening, and right before the requests `msgs`. */
  lemma {:induction false} StartedOnceBetween(m: Outbound, n: nat, msgs: seq<Outbound>, lo: nat, hi: nat)
    requires lo <= hi
    ensures var trace := [Sent(m)] + Receipts(0, n) + ([Started] + (Sends(msgs) + Receipts(lo, hi)));
      && StartsOnlyAt(trace, n + 1)
      && trace[0] == Sent(m)
      && (forall i | 1 <= i < n + 1 :: trace[i] == Received(i - 1))
      && (|msgs| > 0 ==> n + 2 < |trace| && trace[n + 2] == Sent(msgs[0]))
  {
    var opening := [Sent(m)] + Receipts(0, n);
    var body := Sends(msgs) + Receipts(lo, hi);
    var trace := opening + ([Started] + body);
    OpeningLayout(m, 0, n);
    BodyLayout(msgs, lo, hi);
    StartedOnce(opening, body);
    forall i | 1 <= i < n + 1
      ensures trace[i] == Received(i - 1)
    {
      assert trace[i] == opening[i];
    }
    if |msgs| > 0 {
      assert trace[n + 2] == body[0];
    }
  }

  /** Sending `msgs` and then reading `n` frames: the requests are `msgs`, in order, and
      every read comes after every send. */
  lemma SendsThenReceipts(msgs: seq<Outbound>, n: nat)
    ensures var trace := Sends(msgs) + Receipts(0, n);
      && Requests(trace) == msgs
      && |trace| == |msgs| + n
      && (forall i | 0 <= i < |msgs| :: trace[i] == Sent(msgs[i]))
      && (forall i | |msgs| <= i < |trace| :: trace[i] == Received(i - |msgs|))
  {
    var trace := Sends(msgs) + Receipts(0, n);
    RequestsOfSends(msgs);
    RequestsOfReceipts(0, n);
    RequestsAppend(Sends(msgs), Receipts(0, n));
    SendsEach(msgs);
    ReceiptsEach(0, n);
    forall i | |msgs| <= i < |trace|
      ensures trace[i] == Received(i - |msgs|)
    {
      assert trace[i] == Receipts(0, n)[i - |msgs|];
    }
  }
}
