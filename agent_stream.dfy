/**
 * The conversation with the hosted agent that both language-model callers share: one
 * invocation is sent, and the reply's completion stream is read chunk by chunk, each
 * chunk's bytes decoded as UTF-8 text and appended to the completion. Chunk events that
 * carry no chunk are skipped; a reply without a completion stream reads as "".
 */
module AgentStream {
  import opened Wrappers

  /** One event of the completion stream; `chunk` is the decoded text, when present. */
  datatype ChunkEvent = ChunkEvent(chunk: Option<string>)

  /**
   * One invocation of the agent: the session identifier (a timestamp rendering in the
   * application, here a number chosen by the caller), the input text, and for image
   * recognition the base64 image sent along as a file.
   */
  datatype Invocation = Invocation(session: int, inputText: string, image: Option<string>)

  /**
   * What the agent does with an invocation: sending fails, or a response arrives with or
   * without a completion stream, or the stream fails after delivering some events.
   */
  datatype Reply =
    | SendFailed(cause: string)
    | Response(completion: Option<seq<ChunkEvent>>)
    | StreamFailed(received: seq<ChunkEvent>, cause: string)

  /** The agent itself, which the model does not see: a function from invocations to replies. */
  type Agent = Invocation -> Reply

  /** The texts the events carry, in stream order, skipping events without a chunk. */
  function DefinedTexts(events: seq<ChunkEvent>): (texts: seq<string>)
    ensures |texts| <= |events|
    ensures forall t :: t in texts ==> ChunkEvent(Some(t)) in events
  {
    if events == [] then []
    else
      var last := events[|events| - 1];
      var init := DefinedTexts(events[..|events| - 1]);
      if last.chunk.Some? then init + [last.chunk.value] else init
  }

  /** The concatenation of a sequence of strings. */
  function Flatten(texts: seq<string>): string
  {
    if texts == [] then "" else Flatten(texts[..|texts| - 1]) + texts[|texts| - 1]
  }

  /** The completion a stream of events amounts to. */
  function Completion(events: seq<ChunkEvent>): string
  {
    Flatten(DefinedTexts(events))
  }

  /**
   * The read loop: walks the events in order, appending each defined chunk's text.
   * The result is the completion of the whole stream.
   */
  method Accumulate(events: seq<ChunkEvent>) returns (completion: string)
    ensures completion == Completion(events)
  {
    completion := "";
    var i := 0;
    while i < |events|
      invariant 0 <= i <= |events|
      invariant completion == Completion(events[..i])
    {
      var chunk := events[i].chunk;
      if chunk.Some? {
        completion := completion + chunk.value;
      }
      assert events[..i + 1][..i] == events[..i];
      i := i + 1;
    }
    assert events[..i] == events;
  }

  lemma {:induction false} FlattenAppend(xs: seq<string>, ys: seq<string>)
    ensures Flatten(xs + ys) == Flatten(xs) + Flatten(ys)
    decreases |ys|
  {
    if ys == [] {
      assert xs + ys == xs;
    } else {
      var ys' := ys[..|ys| - 1];
      FlattenAppend(xs, ys');
      assert (xs + ys)[..|xs + ys| - 1] == xs + ys';
    }
  }

  lemma {:induction false} DefinedTextsAppend(a: seq<ChunkEvent>, b: seq<ChunkEvent>)
    ensures DefinedTexts(a + b) == DefinedTexts(a) + DefinedTexts(b)
    decreases |b|
  {
    if b == [] {
      assert a + b == a;
    } else {
      var b', last := b[..|b| - 1], b[|b| - 1];
      DefinedTextsAppend(a, b');
      var ab := a + b;
      assert ab[..|ab| - 1] == a + b' && ab[|ab| - 1] == last;
      var tail := if last.chunk.Some? then [last.chunk.value] else [];
      assert DefinedTexts(ab) == DefinedTexts(a + b') + tail;
      assert DefinedTexts(b) == DefinedTexts(b') + tail;
    }
  }

  /** Reading a stream in two parts and concatenating gives the completion of the whole. */
  lemma CompletionAppend(a: seq<ChunkEvent>, b: seq<ChunkEvent>)
    ensures Completion(a + b) == Completion(a) + Completion(b)
  {
    DefinedTextsAppend(a, b);
    FlattenAppend(DefinedTexts(a), DefinedTexts(b));
  }

  /** An event without a chunk, wherever it arrives, leaves the completion unchanged. */
  lemma CompletionSkipsEmptyEvent(a: seq<ChunkEvent>, b: seq<ChunkEvent>)
    ensures Completion(a + [ChunkEvent(None)] + b) == Completion(a + b)
  {
    CompletionAppend(a + [ChunkEvent(None)], b);
    CompletionAppend(a, [ChunkEvent(None)]);
    CompletionAppend(a, b);
    assert [ChunkEvent(None)][..0] == [];
  }

  /** A stream of one defined chunk completes to that chunk's text. */
  lemma CompletionOfOne(t: string)
    ensures Completion([ChunkEvent(Some(t))]) == t
  {
    DefinedTextsOfOne(ChunkEvent(Some(t)));
    FlattenOfOne(t);
  }

  lemma DefinedTextsOfOne(e: ChunkEvent)
    ensures DefinedTexts([e]) == if e.chunk.Some? then [e.chunk.value] else []
  {
    assert [e][..0] == [];
  }

  lemma FlattenOfOne(t: string)
    ensures Flatten([t]) == t
  {
    assert [t][..0] == [];
    assert Flatten([t]) == Flatten([]) + t;
  }

  /**
   * The text one agent reply yields, or the error it raises: a failed send and a stream
   * that fails part-way both raise their cause (text already received is lost); a
   * response without a stream yields "".
   */
  function ReplyText(reply: Reply): (r: Result<string, string>)
    ensures r.Failure? <==> !reply.Response?
    ensures reply.SendFailed? ==> r == Failure(reply.cause)
    ensures reply.StreamFailed? ==> r == Failure(reply.cause)
    ensures reply.Response? && reply.completion.None? ==> r == Success("")
    ensures reply.Response? && reply.completion.Some? ==> r == Success(Completion(reply.completion.value))
  {
    match reply
    case SendFailed(cause) => Failure(cause)
    case StreamFailed(_, cause) => Failure(cause)
    case Response(None) => Success("")
    case Response(Some(events)) => Success(Completion(events))
  }

  /** Sends nothing itself: reads one reply as the callers do, with the read loop. */
  method ReadReply(reply: Reply) returns (r: Result<string, string>)
    ensures r == ReplyText(reply)
  {
    match reply {
      case SendFailed(cause) =>
        r := Failure(cause);
      case StreamFailed(received, cause) =>
        var partial := Accumulate(received);
        r := Failure(cause);
      case Response(stream) =>
        var completion := "";
        if stream.Some? {
          completion := Accumulate(stream.value);
        }
        r := Success(completion);
    }
  }
}
