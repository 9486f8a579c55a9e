# Guardrail engine of quarkus-langchain4j, in Dafny

This project models the guardrail engine of the Quarkus LangChain4j AI
services runtime, `GuardrailsSupport` and the `ChatEvent` hierarchy, and
proves properties of the model.

- **Input guardrails** run on the user message before the model is called. The
  message passes through, possibly rewritten, or a `GuardrailException` is thrown.
- **Output guardrails** run on the model's answer. While they ask for a retry,
  the model is re-prompted through the chat memory, up to the configured
  number of attempts.
- **The shared fold** (`guardrailResult` / `compose`) runs the guardrails in
  order:
  - each guardrail sees the text rewritten by the guardrails before it;
  - the first fatal result stops the chain;
  - every other result is composed into the accumulated one.
- **Class caches.** Guardrail classes are resolved by name once per AI
  service method and cached on the method's create-info.
- **Streaming.** A stream of chat events is accumulated into
  `AccumulatedResponseEvent`s. Without a configured `OutputTokenAccumulator`,
  everything is collected into one event. With one, the accumulator is fed
  the partial chunks.

Modules, in dependency order:

| file | module | what it holds |
|---|---|---|
| `wrappers.dfy` | `Wrappers` | `Option` (a Java reference that may be null) and `Result` (a value or a thrown exception) |
| `chat_event.dfy` | `ChatEvents` | the five event kinds and their tags |
| `guardrails.dfy` | `Guardrails` | what the engine observes of guardrail results, the params, the chat memory, the engine's exceptions |
| `guardrail_chain.dfy` | `GuardrailChain` | `compose`, the fold (`Chain`) and the loop that computes it (`RunChain`), with their lemmas |
| `guardrail_cache.dfy` | `GuardrailCache` | class resolution, the create-info caches, `invokeInputGuardRails` / `invokeOutputGuardRails` |
| `input_guardrails.dfy` | `InputGuardrails` | `invokeInputGuardrails` |
| `output_guardrails.dfy` | `OutputGuardrails` | `invokeOutputGuardrails`, its retry loop, `OutputGuardrailResponse` |
| `stream_accumulator.dfy` | `StreamAccumulator` | `accumulate` and the default `ChatResponseAccumulator` |

### How the model is built

- Each loop of the source is a `method` with that loop. It is proved equal to
  a recursive specification function, and the lemmas are stated about that
  function:
  - the guardrail loop: `RunChain` against `Chain`;
  - the retry loop: `InvokeOutputGuardrails` against `RetryLoop`;
  - the source's cache fill: `FillAsWritten` against `FirstMissing` and
    `Lookup`;
  - the corrected cache fill (see "## Findings"): `ResolveAll` against
    `Resolve`;
  - the default collector: `CollectDefault` against `Chunks` / `Concat` /
    `LastCompletedMetadata`.
- **State updated in place** is a class with `modifies` clauses:
  - the chat memory: `Guardrails.ChatMemory`;
  - the create-info caches: `GuardrailCache.MethodCreateInfo`;
  - the default accumulator: `StreamAccumulator.ChatResponseAccumulator`.
- **Collaborators the engine only calls** are parameters. This covers the
  guardrails themselves (functions from params to result), the result classes'
  `success()`, `failure(list)` and `blockRetry()`, `params.withText`,
  `rewriteUserMessage`, and the chat model.
- **The audit events** fired per executed guardrail are the ghost log
  `Executed` returned by `RunChain`.

### Behaviour of the source worth noting

- **`blockRetry` applies to input chains too.** A fatal result that
  follows an accumulated rewrite is returned through `blockRetry()`. This
  rule sits in the fold that both chains share, so it applies to input
  chains as well as output chains (`GuardrailsSupport.java:212-214`).
- **A retry result stops the chain only when it is fatal.** A non-fatal
  retry result is composed like any other failure
  (`GuardrailsSupport.java:212-218`).
- **An earlier rewrite can be lost.** When every guardrail succeeds, the
  chain returns the last guardrail's result, because `compose` keeps the newer
  of two successes (`GuardrailsSupport.java:226-227`). An earlier rewrite is
  therefore lost unless the last guardrail rewrites too
  (`GuardrailChain.LastSuccessWins`). The rewritten text still reaches the
  later guardrails through `withText` (`GuardrailChain.RewritePropagates`).
- **When every evaluation asks for a retry,** the model is invoked `max`
  times. Its last answer is recorded in the memory but never evaluated
  (`GuardrailsSupport.java:82-122`, `OutputGuardrails.ExhaustsRetries`).

## Model

| member | source | states |
|---|---|---|
| `ChatEvents.EventType` | core/runtime/src/main/java/io/quarkiverse/langchain4j/runtime/aiservice/ChatEvent.java:21-102 | each tag belongs to exactly one event kind (both directions), so a consumer that tests the tag may downcast |
| `ChatEvents.ExactlyFiveKinds` | core/runtime/src/main/java/io/quarkiverse/langchain4j/runtime/aiservice/ChatEvent.java:12-19 | there are exactly five distinct event types and every tag is one of them |
| `ChatEvents.ConstructorsFixTagAndFields` | core/runtime/src/main/java/io/quarkiverse/langchain4j/runtime/aiservice/ChatEvent.java:31-102 | each subclass constructor fixes its tag and its getters return the constructor's arguments |
| `Guardrails.ChatMemory.Add` | core/runtime/src/main/java/io/quarkiverse/langchain4j/runtime/aiservice/GuardrailsSupport.java:97-102 | adding to the chat memory appends exactly that message and changes nothing else |
| `GuardrailChain.Compose` | core/runtime/src/main/java/io/quarkiverse/langchain4j/runtime/aiservice/GuardrailsSupport.java:224-236 | success is the identity of the fold on the left; a success composed after a failure keeps the failure |
| `GuardrailChain.ComposeConcatenates` | core/runtime/src/main/java/io/quarkiverse/langchain4j/runtime/aiservice/GuardrailsSupport.java:232-235 | two failures compose to a failure reporting the older failures followed by the newer ones |
| `GuardrailChain.RunChain` | core/runtime/src/main/java/io/quarkiverse/langchain4j/runtime/aiservice/GuardrailsSupport.java:194-222 | the loop returns the fold `Chain` of the guardrails, and its audit log is exactly one entry per validated guardrail (`Executed`) |
| `GuardrailChain.LoopTurn` | core/runtime/src/main/java/io/quarkiverse/langchain4j/runtime/aiservice/GuardrailsSupport.java:198-219 | one turn of the loop: a fatal result ends the fold with `Halt` and one last audit entry, any other result advances it |
| `GuardrailChain.OutcomeShift` | core/runtime/src/main/java/io/quarkiverse/langchain4j/runtime/aiservice/GuardrailsSupport.java:198-218 | the result of guardrail k+1 is the result of guardrail k of the rest of the chain, run from the state after the first |
| `GuardrailChain.StateAtStep` | core/runtime/src/main/java/io/quarkiverse/langchain4j/runtime/aiservice/GuardrailsSupport.java:215-218 | the state before guardrail k+1 is the state before guardrail k advanced by its result |
| `GuardrailChain.ExecutedEntries` | core/runtime/src/main/java/io/quarkiverse/langchain4j/runtime/aiservice/GuardrailsSupport.java:198-213 | audit entry j records the params guardrail j saw and its result; at most one entry per guardrail; only the last entry can be fatal |
| `GuardrailChain.ChainRunsToEnd` | core/runtime/src/main/java/io/quarkiverse/langchain4j/runtime/aiservice/GuardrailsSupport.java:198-221 | without a fatal result every guardrail runs and the chain returns the accumulated result |
| `GuardrailChain.ChainStopsAtFirstFatal` | core/runtime/src/main/java/io/quarkiverse/langchain4j/runtime/aiservice/GuardrailsSupport.java:212-214 | the first fatal result stops the chain: later guardrails never run, and the result is `blockRetry()` of it exactly when a rewrite was already accumulated |
| `GuardrailChain.RewritePropagates` | core/runtime/src/main/java/io/quarkiverse/langchain4j/runtime/aiservice/GuardrailsSupport.java:215-217 | every guardrail after a rewrite sees the rewritten text, until the next rewrite |
| `GuardrailChain.AccumulatedFailures` | core/runtime/src/main/java/io/quarkiverse/langchain4j/runtime/aiservice/GuardrailsSupport.java:218-235 | folding from success, the accumulated result succeeds exactly when every result so far did, and otherwise reports all their failures in execution order |
| `GuardrailChain.LastSuccessWins` | core/runtime/src/main/java/io/quarkiverse/langchain4j/runtime/aiservice/GuardrailsSupport.java:226-228 | when every guardrail succeeds, the chain returns the last guardrail's result |
| `GuardrailCache.FirstMissing` | core/runtime/src/main/java/io/quarkiverse/langchain4j/runtime/aiservice/GuardrailsSupport.java:176-186 | the first class name that cannot be loaded: every name before it loads, and it does not |
| `GuardrailCache.Lookup` | core/runtime/src/main/java/io/quarkiverse/langchain4j/runtime/aiservice/GuardrailsSupport.java:176-179 | the loaded guardrails are the registered ones, one per name, in configuration order |
| `GuardrailCache.FillAsWritten` | core/runtime/src/main/java/io/quarkiverse/langchain4j/runtime/aiservice/GuardrailsSupport.java:172-188 | the fill as written leaves in the cache every class loaded before the first missing one, and fails exactly when one is missing, with that class's message |
| `GuardrailCache.ResolveAll` | core/runtime/src/main/java/io/quarkiverse/langchain4j/runtime/aiservice/GuardrailsSupport.java:148-158 | the corrected fill returns every guardrail in order, or the "Could not find" error of the first missing class |
| `GuardrailCache.EvaluateRunsResolved` | core/runtime/src/main/java/io/quarkiverse/langchain4j/runtime/aiservice/GuardrailsSupport.java:167-191 | once every name resolves, an invocation runs exactly the resolved guardrails, whether they came from the cache or not |
| `GuardrailCache.FillIsStable` | core/runtime/src/main/java/io/quarkiverse/langchain4j/runtime/aiservice/GuardrailsSupport.java:172-188 | with the corrected fill, filling is idempotent and later invocations evaluate exactly as the first did |
| `GuardrailCache.PartialFillSkipsGuardrail` | core/runtime/src/main/java/io/quarkiverse/langchain4j/runtime/aiservice/GuardrailsSupport.java:176-186 | the fill as written, with a second name that does not load: the call fails, but the next call runs the first guardrail alone |
| `GuardrailCache.InvokeInputGuardRails` | core/runtime/src/main/java/io/quarkiverse/langchain4j/runtime/aiservice/GuardrailsSupport.java:166-192 | success without guardrails; otherwise the fold from `success()` of the cached or newly loaded input guardrails; the cache follows the corrected fill, so it is filled only when every name resolves (see "## Findings") |
| `GuardrailCache.InvokeOutputGuardRails` | core/runtime/src/main/java/io/quarkiverse/langchain4j/runtime/aiservice/GuardrailsSupport.java:138-164 | success without guardrails; otherwise the fold from `success()` of the cached or newly loaded output guardrails; the cache follows the corrected fill, so it is filled only when every name resolves |
| `GuardrailCache.InvokeOutputGuardrailsForStream` | core/runtime/src/main/java/io/quarkiverse/langchain4j/runtime/aiservice/GuardrailsSupport.java:302-305 | the streaming entry point evaluates exactly as the output chain does, with the same corrected cache fill |
| `InputGuardrails.InvokeInputGuardrails` | core/runtime/src/main/java/io/quarkiverse/langchain4j/runtime/aiservice/GuardrailsSupport.java:44-67 | the caller gets `InputOutcome` of the chain: an evaluation error wrapped, a failure rejected, a success rewritten only when it carries a rewrite |
| `InputGuardrails.NoGuardrailsKeepMessage` | core/runtime/src/main/java/io/quarkiverse/langchain4j/runtime/aiservice/GuardrailsSupport.java:169-171 | without input guardrails the user message passes through untouched |
| `InputGuardrails.AcceptedWhenAllPass` | core/runtime/src/main/java/io/quarkiverse/langchain4j/runtime/aiservice/GuardrailsSupport.java:59-66 | when every guardrail passes, the original message goes through, rewritten with the last guardrail's text exactly when that guardrail rewrote |
| `InputGuardrails.RejectedWithAllFailures` | core/runtime/src/main/java/io/quarkiverse/langchain4j/runtime/aiservice/GuardrailsSupport.java:59-61 | with no fatal result and at least one failure, the message is rejected with every failure, in execution order |
| `InputGuardrails.MissingClassIsWrapped` | core/runtime/src/main/java/io/quarkiverse/langchain4j/runtime/aiservice/GuardrailsSupport.java:56-58 | a guardrail class that cannot be loaded fails the call with the loader's message, wrapped |
| `OutputGuardrails.OutputGuardrailResponse.GetRewrittenResult` | core/runtime/src/main/java/io/quarkiverse/langchain4j/runtime/aiservice/GuardrailsSupport.java:127-136 | the rewritten object is present exactly when the result exists and carries a rewrite |
| `OutputGuardrails.NormalizedMax` | core/runtime/src/main/java/io/quarkiverse/langchain4j/runtime/aiservice/GuardrailsSupport.java:75-79 | a configured maximum of zero or less means exactly one attempt; a positive configured maximum is kept |
| `OutputGuardrails.Messages` | core/runtime/src/main/java/io/quarkiverse/langchain4j/runtime/aiservice/GuardrailsSupport.java:113-116 | the failure messages, one per failure, in order |
| `OutputGuardrails.RetryLoopShape` | core/runtime/src/main/java/io/quarkiverse/langchain4j/runtime/aiservice/GuardrailsSupport.java:82-110 | the history only grows, by one or two messages per model invocation; there are never more evaluations than attempts left; a returned response always carries a successful result |
| `OutputGuardrails.FirstRetryShifts` | core/runtime/src/main/java/io/quarkiverse/langchain4j/runtime/aiservice/GuardrailsSupport.java:93-109 | after the first of k retries, the other k-1 are retries from the next state and end at the same state |
| `OutputGuardrails.RetriesAdvance` | core/runtime/src/main/java/io/quarkiverse/langchain4j/runtime/aiservice/GuardrailsSupport.java:82-110 | k retries in a row: the loop ends as it would from k attempts later, with k more evaluations and model invocations |
| `OutputGuardrails.RetryUnfolds` | core/runtime/src/main/java/io/quarkiverse/langchain4j/runtime/aiservice/GuardrailsSupport.java:93-109 | a retry hands the loop to the next state, counting one evaluation and one invocation |
| `OutputGuardrails.SucceedsAfterRetries` | core/runtime/src/main/java/io/quarkiverse/langchain4j/runtime/aiservice/GuardrailsSupport.java:89-91 | a success after k retries returns the last answer with that result, after k+1 evaluations and k invocations |
| `OutputGuardrails.RejectedAfterRetries` | core/runtime/src/main/java/io/quarkiverse/langchain4j/runtime/aiservice/GuardrailsSupport.java:103-105 | a failure that asks for no retry is thrown as is, and the model is not invoked again |
| `OutputGuardrails.ExhaustsRetries` | core/runtime/src/main/java/io/quarkiverse/langchain4j/runtime/aiservice/GuardrailsSupport.java:112-122 | when every allowed evaluation asks for a retry, the loop throws the exhaustion message built from the last evaluated result, after max invocations |
| `OutputGuardrails.RetryStepReprompts` | core/runtime/src/main/java/io/quarkiverse/langchain4j/runtime/aiservice/GuardrailsSupport.java:95-109 | a reprompt is added to the memory right before the model is invoked, the answer right after, and only the answer of the params changes |
| `OutputGuardrails.SplitJoin` | core/runtime/src/main/java/io/quarkiverse/langchain4j/runtime/aiservice/GuardrailsSupport.java:113-117 | joining lines with the line separator can be undone by splitting, when no line contains it |
| `OutputGuardrails.ExhaustionMessageLines` | core/runtime/src/main/java/io/quarkiverse/langchain4j/runtime/aiservice/GuardrailsSupport.java:112-121 | the exhaustion message is the fixed heading and a line separator, then one line per failure message of the last result (one empty line when there are none) |
| `OutputGuardrails.Reinvoke` | core/runtime/src/main/java/io/quarkiverse/langchain4j/runtime/aiservice/GuardrailsSupport.java:93-102 | the retry branch adds the reprompt, if any, invokes the model on that history and records its answer |
| `OutputGuardrails.EvaluationIsStable` | core/runtime/src/main/java/io/quarkiverse/langchain4j/runtime/aiservice/GuardrailsSupport.java:83-84 | every attempt evaluates as the first did, since the cache only moves from its initial to its filled value |
| `OutputGuardrails.AttemptUnfolds` | core/runtime/src/main/java/io/quarkiverse/langchain4j/runtime/aiservice/GuardrailsSupport.java:82-107 | one attempt: an evaluation error is wrapped, a success ends the loop, a retry continues with one more evaluation and one more model call, any other failure is thrown |
| `OutputGuardrails.InvokeOutputGuardrails` | core/runtime/src/main/java/io/quarkiverse/langchain4j/runtime/aiservice/GuardrailsSupport.java:69-125 | the while loop returns, and leaves in the chat memory, exactly what `RetryLoop` describes; it evaluates the guardrails and calls the model exactly as many times as `RetryLoop` counts (so `max` times each when every evaluation asks for a retry); it fills the class cache at most once |
| `StreamAccumulator.Chunks` | core/runtime/src/main/java/io/quarkiverse/langchain4j/runtime/aiservice/GuardrailsSupport.java:258-263 | at most one chunk per event: the partial responses' chunks in stream order |
| `StreamAccumulator.ChatResponseAccumulator.constructor` | core/runtime/src/main/java/io/quarkiverse/langchain4j/runtime/aiservice/GuardrailsSupport.java:242-245 | an accumulator starts with empty text and null metadata |
| `StreamAccumulator.ChatResponseAccumulator.Accept` | core/runtime/src/main/java/io/quarkiverse/langchain4j/runtime/aiservice/GuardrailsSupport.java:257-269 | a partial response appends its chunk, a completed response replaces the metadata, any other event changes nothing |
| `StreamAccumulator.CollectDefault` | core/runtime/src/main/java/io/quarkiverse/langchain4j/runtime/aiservice/GuardrailsSupport.java:257-272 | the default accumulation emits one event with all partial chunks concatenated in order and the metadata of the last completed response |
| `StreamAccumulator.ChunksAppend` | core/runtime/src/main/java/io/quarkiverse/langchain4j/runtime/aiservice/GuardrailsSupport.java:258-263 | the chunks of two consecutive stream segments are the chunks of the first followed by those of the second |
| `StreamAccumulator.ConcatAppend` | core/runtime/src/main/java/io/quarkiverse/langchain4j/runtime/aiservice/GuardrailsSupport.java:260-262 | appending chunk sequences one after the other appends their texts |
| `StreamAccumulator.LastMetadataAppend` | core/runtime/src/main/java/io/quarkiverse/langchain4j/runtime/aiservice/GuardrailsSupport.java:264-268 | the metadata kept is the one of the last completed response, the later segment's when it has one |
| `StreamAccumulator.CollectedTextComposes` | core/runtime/src/main/java/io/quarkiverse/langchain4j/runtime/aiservice/GuardrailsSupport.java:257-269 | collected text is compositional over stream segments, and tool, content and accumulated events change neither text nor metadata |
| `StreamAccumulator.SingleEvent` | core/runtime/src/main/java/io/quarkiverse/langchain4j/runtime/aiservice/GuardrailsSupport.java:258-268 | what a single event contributes to the text and to the metadata |
| `StreamAccumulator.CollectsHello` | core/runtime/src/main/java/io/quarkiverse/langchain4j/runtime/aiservice/GuardrailsSupport.java:257-272 | "Hel", a tool execution, "lo", then completion collect to "Hello" with the completed response's metadata |
| `StreamAccumulator.Accumulate` | core/runtime/src/main/java/io/quarkiverse/langchain4j/runtime/aiservice/GuardrailsSupport.java:249-300 | a cached accumulator is reused; with no class name the stream is collected; otherwise the class is loaded and cached, or its absence reported |
| `StreamAccumulator.AccumulatorSeesCollectedChunks` | core/runtime/src/main/java/io/quarkiverse/langchain4j/runtime/aiservice/GuardrailsSupport.java:274-296 | a configured accumulator is fed exactly the chunks the default collector concatenates, and once loaded it is reused by every later call |
| `StreamAccumulator.DefaultYieldsOneEvent` | core/runtime/src/main/java/io/quarkiverse/langchain4j/runtime/aiservice/GuardrailsSupport.java:256-272 | without a configured accumulator the stream yields exactly one accumulated response, carrying the concatenated text |

## Findings

| source | as written | input that shows it | evidently intended | confidence | as-written member | corrected member |
|---|---|---|---|---|---|---|
| core/runtime/src/main/java/io/quarkiverse/langchain4j/runtime/aiservice/GuardrailsSupport.java:172-188 (same at 144-160) | each class is appended to the method's cached list as soon as it loads. A later name that fails to load throws, but the classes already added stay cached. | input guardrails `["First", "Missing"]` where only `First` loads: the first call fails, but the cache now holds `[First]`. The next call sees a non-empty cache and runs `First` alone, so the missing guardrail is silently skipped (`GuardrailCache.PartialFillSkipsGuardrail`). | the cache is published only when every class has loaded, so every call fails until the configuration is fixed (`GuardrailCache.FillIsStable`) | medium, not executed | `GuardrailCache.FillAsWritten` | `GuardrailCache.ResolveAll` |

This finding assumes that `getInputGuardrailsClasses()` and
`getOutputGuardrailsClasses()` return the list stored on the create-info,
which the fill-when-empty idiom requires. `AiServiceMethodCreateInfo` is not
part of this model. The invoke methods of the model use the corrected fill.

## Left out

- **Class loading and CDI.** `Class.forName` and the CDI lookup are one
  lookup table, `GuardrailCache.Registry`. Exceptions from a guardrail's
  constructor or from CDI at validation time are not modelled.
- **Guardrails are pure functions of their params.** A guardrail cannot
  read the chat memory's contents through the `ChatMemory` reference in its
  params.
- **Exceptions from a guardrail's own `validate()`** are not modelled,
  because a guardrail is a function that always returns a result. In the
  source such an exception is caught and wrapped in a `GuardrailException`
  (`GuardrailsSupport.java:56-58` and `:85-86`). The model wraps only the
  class-loading error.
- **The `synchronized` blocks** around the caches are not modelled.
  Invocations are sequential in the model.
- **Audit events.** The `BeanManager` audit events are the ghost log of
  `GuardrailChain.RunChain`. Their delivery to observers is not modelled.
- **Not modelled at all:** `validatedBy(bean)`, `GuardrailResult.toString()`
  and `getFirstFailureException()`. A rejection carries the whole result
  instead.
- **`executeRequest`** is a deterministic function of the chat history. Its
  tool specifications, request building and failures are not modelled.
- **`System.lineSeparator()`** is taken to be `"\n"`.
- **The custom `OutputTokenAccumulator` path** is modelled as the
  accumulator and the chunk sequence it is fed. Left out:
  - the Mutiny pipeline (`plug`);
  - the strings the accumulator emits;
  - the metadata each emitted event carries. It is read from an
    `AtomicReference` at emission time, with an empty default, so it depends
    on timing.
- **`GuardrailRetryException`** is declared but not used by the core. It is
  not modelled.
- **Null values.** Not modelled:
  - a bare `ChatEvent` of the base class;
  - a null chunk (a `StringBuilder` would append `"null"`);
  - a null `ChatResponse`.
- GuardrailChain.Compose: reads a null failures list as the empty list,
  where the source would throw a `NullPointerException`.
- InputGuardrails.InvokeInputGuardrails: the rewritten message is built by
  `rewriteUserMessage`, which is a parameter, so its own behaviour is not
  modelled.
- GuardrailCache.InvokeInputGuardRails: uses the corrected cache fill. When
  a configured class cannot be loaded, the cache is left as it was. The
  source instead leaves in it every class loaded before the missing one
  (`GuardrailsSupport.java:175-185`). That as-written fill is
  `GuardrailCache.FillAsWritten`, recorded under "## Findings".
- GuardrailCache.InvokeOutputGuardRails: uses the corrected cache fill in
  the same way. The source's partial fill at `GuardrailsSupport.java:147-158`
  is not what this contract states.
- GuardrailCache.InvokeOutputGuardrailsForStream: inherits the corrected
  cache fill of `GuardrailCache.InvokeOutputGuardRails`.
- InputGuardrails.InvokeInputGuardrails: its cache post-state is the
  corrected fill's (`GuardrailCache.CacheAfter`), not the loaded prefix the
  source leaves after a failed load.
- OutputGuardrails.InvokeOutputGuardrails: its cache post-state is the
  corrected fill's. The retry loop itself is the source's.
- **Result and params classes.** `InputGuardrailResult`,
  `OutputGuardrailResult`, their params classes and `isFatal()` are
  observations or parameters, because their classes are not part of this
  model.
