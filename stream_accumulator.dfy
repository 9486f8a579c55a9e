/**
 * accumulate (runtime/aiservice/GuardrailsSupport.java): turns a stream of
 * chat events into accumulated responses for the output guardrails of a
 * streaming method. Without a configured OutputTokenAccumulator, the whole
 * stream is collected into one AccumulatedResponseEvent; with one, the
 * partial-response chunks are handed to it. A Multi is modelled as the
 * finite sequence of the events it emits.
 */
module StreamAccumulator {
  import opened Wrappers
  import opened ChatEvents
  import opened GuardrailCache

  /** The chunks of the partial responses, in stream order; every other kind of event is skipped. */
  function Chunks(events: seq<ChatEvent>): (chunks: seq<string>)
    ensures |chunks| <= |events|
    decreases |events|
  {
    if |events| == 0 then []
    else
      var e := events[|events| - 1];
      Chunks(events[..|events| - 1]) + (if EventType(e) == PartialResponse then [e.chunk] else [])
  }

  /** StringBuilder.append over a sequence of chunks. */
  function Concat(chunks: seq<string>): string
    decreases |chunks|
  {
    if |chunks| == 0 then "" else Concat(chunks[..|chunks| - 1]) + chunks[|chunks| - 1]
  }

  /** The metadata of the last completed response in the stream, or null when none completed. */
  function LastCompletedMetadata(events: seq<ChatEvent>): Option<ChatResponseMetadata>
    decreases |events|
  {
    if |events| == 0 then None
    else
      var e := events[|events| - 1];
      if EventType(e) == Completed then Some(e.chatResponse.metadata) else LastCompletedMetadata(events[..|events| - 1])
  }

  /** ChatResponseAccumulator: the text collected so far and the metadata last seen. */
  class ChatResponseAccumulator {
    var text: string
    var metadata: Option<ChatResponseMetadata>

    constructor ()
      ensures text == "" && metadata == None
    {
      text := "";
      metadata := None;
    }

    /** The collector's accumulating step for one event. */
    method Accept(e: ChatEvent)
      modifies this
      ensures text == old(text) + (if EventType(e) == PartialResponse then e.chunk else "")
      ensures metadata == if EventType(e) == Completed then Some(e.chatResponse.metadata) else old(metadata)
    {
      if EventType(e) == PartialResponse {
        text := text + e.chunk;
      }
      if EventType(e) == Completed {
        metadata := Some(e.chatResponse.metadata);
      }
    }
  }

  /**
   * The default accumulation: one event carrying every partial chunk,
   * concatenated in stream order, and the metadata of the last completed
   * response.
   */
  method CollectDefault(upstream: seq<ChatEvent>) returns (emitted: seq<ChatEvent>)
    ensures emitted == [AccumulatedResponseEvent(Concat(Chunks(upstream)), LastCompletedMetadata(upstream))]
  {
    var acc := new ChatResponseAccumulator();
    for i := 0 to |upstream|
      invariant acc.text == Concat(Chunks(upstream[..i]))
      invariant acc.metadata == LastCompletedMetadata(upstream[..i])
    {
      assert upstream[..i + 1][..i] == upstream[..i];
      ghost var chunks := Chunks(upstream[..i]);
      if EventType(upstream[i]) == PartialResponse {
        assert Chunks(upstream[..i + 1]) == chunks + [upstream[i].chunk];
        assert (chunks + [upstream[i].chunk])[..|chunks|] == chunks;
      } else {
        assert Chunks(upstream[..i + 1]) == chunks;
      }
      acc.Accept(upstream[i]);
    }
    assert upstream[..|upstream|] == upstream;
    emitted := [AccumulatedResponseEvent(acc.text, acc.metadata)];
  }

  /** Chunks distributes over the concatenation of two streams. */
  lemma {:induction false} ChunksAppend(a: seq<ChatEvent>, b: seq<ChatEvent>)
    ensures Chunks(a + b) == Chunks(a) + Chunks(b)
    decreases |b|
  {
    if |b| > 0 {
      var e := b[|b| - 1];
      assert (a + b)[..|a + b| - 1] == a + b[..|b| - 1];
      ChunksAppend(a, b[..|b| - 1]);
    } else {
      assert a + b == a;
    }
  }

  /** Concat distributes over the concatenation of two chunk sequences. */
  lemma {:induction false} ConcatAppend(x: seq<string>, y: seq<string>)
    ensures Concat(x + y) == Concat(x) + Concat(y)
    decreases |y|
  {
    if |y| > 0 {
      assert (x + y)[..|x + y| - 1] == x + y[..|y| - 1];
      ConcatAppend(x, y[..|y| - 1]);
    } else {
      assert x + y == x;
    }
  }

  /** The metadata of a longer stream is the one its tail completed with, if any, else the head's. */
  lemma {:induction false} LastMetadataAppend(a: seq<ChatEvent>, b: seq<ChatEvent>)
    ensures LastCompletedMetadata(a + b)
         == if LastCompletedMetadata(b).Some? then LastCompletedMetadata(b) else LastCompletedMetadata(a)
    decreases |b|
  {
    if |b| > 0 {
      assert (a + b)[..|a + b| - 1] == a + b[..|b| - 1];
      LastMetadataAppend(a, b[..|b| - 1]);
    } else {
      assert a + b == a;
    }
  }

  /**
   * Collecting is compositional: the text collected from two consecutive
   * stream segments is the text of the first followed by the text of the
   * second, and events that are neither partial nor completed responses
   * change nothing.
   */
  lemma CollectedTextComposes(a: seq<ChatEvent>, b: seq<ChatEvent>, e: ChatEvent)
    requires EventType(e) != PartialResponse && EventType(e) != Completed
    ensures Concat(Chunks(a + b)) == Concat(Chunks(a)) + Concat(Chunks(b))
    ensures Chunks(a + [e] + b) == Chunks(a + b)
    ensures LastCompletedMetadata(a + [e] + b) == LastCompletedMetadata(a + b)
  {
    ChunksAppend(a, b);
    ConcatAppend(Chunks(a), Chunks(b));
    ChunksAppend(a, [e]);
    ChunksAppend(a + [e], b);
    LastMetadataAppend(a, [e]);
    LastMetadataAppend(a + [e], b);
    LastMetadataAppend(a, b);
    assert Chunks([e]) == Chunks([]) by { assert [e][..0] == []; }
    assert LastCompletedMetadata([e]) == None by { assert [e][..0] == []; }
  }

  /**
   * A stream "Hel", a tool execution, "lo", then completion, collects to
   * "Hello" with the completed response's metadata.
   */
  lemma CollectsHello(execution: ToolExecution, response: ChatResponse)
    ensures var upstream := [PartialResponseEvent("Hel"), ToolExecutedEvent(execution), PartialResponseEvent("lo"),
                             ChatCompletedEvent(response)];
      Concat(Chunks(upstream)) == "Hello" && LastCompletedMetadata(upstream) == Some(response.metadata)
  {
    var hel, tool, lo, done := PartialResponseEvent("Hel"), ToolExecutedEvent(execution), PartialResponseEvent("lo"),
                               ChatCompletedEvent(response);
    SingleEvent(hel);
    SingleEvent(tool);
    SingleEvent(lo);
    SingleEvent(done);
    ChunksAppend([hel], [tool]);
    LastMetadataAppend([hel], [tool]);
    ChunksAppend([hel] + [tool], [lo]);
    LastMetadataAppend([hel] + [tool], [lo]);
    ChunksAppend([hel] + [tool] + [lo], [done]);
    LastMetadataAppend([hel] + [tool] + [lo], [done]);
    assert [hel] + [tool] + [lo] + [done] == [hel, tool, lo, done];
    assert ["Hel"] + [] + ["lo"] + [] == ["Hel", "lo"];
    assert ["Hel", "lo"][..1] == ["Hel"] && ["Hel"][..0] == [];
  }

  /** A stream of one event. */
  lemma SingleEvent(e: ChatEvent)
    ensures Chunks([e]) == if EventType(e) == PartialResponse then [e.chunk] else []
    ensures LastCompletedMetadata([e]) == if EventType(e) == Completed then Some(e.chatResponse.metadata) else None
  {
    assert [e][..0] == [];
  }

  /** What accumulate returns: the collected events, or the configured accumulator and the chunks it is fed. */
  datatype Accumulation =
    | Collected(events: seq<ChatEvent>)
    | Delegated(accumulator: OutputTokenAccumulator, chunks: seq<string>)

  /**
   * accumulate, on the method's accumulator cache and configured class
   * name: a cached accumulator is used as is; with no class name the stream
   * is collected; otherwise the class is loaded, or its absence reported.
   */
  function AccumulationOf(className: Option<string>, cached: Option<OutputTokenAccumulator>,
                          registry: map<string, OutputTokenAccumulator>, upstream: seq<ChatEvent>): Result<Accumulation, string>
  {
    match cached
    case Some(a) => Ok(Delegated(a, Chunks(upstream)))
    case None =>
      match className
      case None => Ok(Collected([AccumulatedResponseEvent(Concat(Chunks(upstream)), LastCompletedMetadata(upstream))]))
      case Some(cn) =>
        if cn in registry then Ok(Delegated(registry[cn], Chunks(upstream)))
        else Err(NotFound(OutputTokenAccumulatorKind, cn))
  }

  /** The accumulator cache after one call: set once the configured class has been loaded. */
  function AccumulatorAfter(className: Option<string>, cached: Option<OutputTokenAccumulator>,
                            registry: map<string, OutputTokenAccumulator>): Option<OutputTokenAccumulator>
  {
    if cached.None? && className.Some? && className.value in registry then Some(registry[className.value]) else cached
  }

  /** accumulate. */
  method Accumulate(info: MethodCreateInfo, registry: Registry, upstream: seq<ChatEvent>)
    returns (r: Result<Accumulation, string>)
    modifies info`outputTokenAccumulator
    ensures r == AccumulationOf(info.outputTokenAccumulatorClassName, old(info.outputTokenAccumulator),
                                registry.accumulators, upstream)
    ensures info.outputTokenAccumulator
         == AccumulatorAfter(info.outputTokenAccumulatorClassName, old(info.outputTokenAccumulator), registry.accumulators)
  {
    var accumulator := info.outputTokenAccumulator;
    if accumulator.None? {
      var cn := info.outputTokenAccumulatorClassName;
      if cn.None? {
        var emitted := CollectDefault(upstream);
        return Ok(Collected(emitted));
      }
      if cn.value !in registry.accumulators {
        return Err(NotFound(OutputTokenAccumulatorKind, cn.value));
      }
      accumulator := Some(registry.accumulators[cn.value]);
      info.outputTokenAccumulator := accumulator;
    }
    r := Ok(Delegated(accumulator.value, Chunks(upstream)));
  }

  /**
   * Both paths see the same chunks: a configured accumulator is fed exactly
   * the partial chunks the default collector would have concatenated; and
   * once loaded, the accumulator is reused by every later call.
   */
  lemma AccumulatorSeesCollectedChunks(className: Option<string>, cached: Option<OutputTokenAccumulator>,
                                       registry: map<string, OutputTokenAccumulator>,
                                       upstream: seq<ChatEvent>, later: seq<ChatEvent>)
    requires className.Some? || cached.Some?
    requires AccumulationOf(className, cached, registry, upstream).Ok?
    ensures var a := AccumulationOf(className, cached, registry, upstream).value;
      && a.Delegated? && a.chunks == Chunks(upstream)
      && AccumulatorAfter(className, cached, registry) == Some(a.accumulator)
      && AccumulationOf(className, AccumulatorAfter(className, cached, registry), registry, later)
         == Ok(Delegated(a.accumulator, Chunks(later)))
  {
  }

  /** Without a configured accumulator, the stream yields exactly one accumulated response. */
  lemma DefaultYieldsOneEvent(registry: map<string, OutputTokenAccumulator>, upstream: seq<ChatEvent>)
    ensures var a := AccumulationOf(None, None, registry, upstream);
      && a.Ok? && a.value.Collected? && |a.value.events| == 1
      && EventType(a.value.events[0]) == AccumulatedResponse
      && a.value.events[0].message == Concat(Chunks(upstream))
  {
  }
}
