/**
 * Guardrail resolution and its per-method cache, and the two private
 * entry points invokeInputGuardRails / invokeOutputGuardRails of
 * runtime/aiservice/GuardrailsSupport.java. Class loading and the CDI
 * container are one lookup table from class name to guardrail (or
 * accumulator); the AiServiceMethodCreateInfo that owns the caches is a
 * class whose cache fields are filled in place.
 */
module GuardrailCache {
  import opened Wrappers
  import opened Guardrails
  import opened GuardrailChain

  /** An OutputTokenAccumulator bean. */
  type OutputTokenAccumulator(==)

  /** What Class.forName followed by a CDI lookup finds for a class name. */
  datatype Registry = Registry(
    inputGuardrails: map<string, Validator<InputGuardrailParams>>,
    outputGuardrails: map<string, Validator<OutputGuardrailParams>>,
    accumulators: map<string, OutputTokenAccumulator>)

  // Simple names of the interfaces, as they appear in "could not find" messages.
  const InputGuardrailKind := "InputGuardrail"
  const OutputGuardrailKind := "OutputGuardrail"
  const OutputTokenAccumulatorKind := "OutputTokenAccumulator"

  /** The message of the RuntimeException raised when a class cannot be loaded. */
  function NotFound(kind: string, className: string): string {
    "Could not find " + kind + " implementation class: " + className
  }

  /** The per-method configuration and its caches (AiServiceMethodCreateInfo). */
  class MethodCreateInfo {
    const userMessageTemplate: string
    const inputGuardrailsClassNames: seq<string>
    const outputGuardrailsClassNames: seq<string>
    const guardrailsMaxRetry: int
    const outputTokenAccumulatorClassName: Option<string>
    var inputGuardrailsClasses: seq<Validator<InputGuardrailParams>>
    var outputGuardrailsClasses: seq<Validator<OutputGuardrailParams>>
    var outputTokenAccumulator: Option<OutputTokenAccumulator>

    constructor (userMessageTemplate: string, inputNames: seq<string>, outputNames: seq<string>,
                 maxRetry: int, accumulatorClassName: Option<string>)
      ensures this.userMessageTemplate == userMessageTemplate
      ensures inputGuardrailsClassNames == inputNames && outputGuardrailsClassNames == outputNames
      ensures guardrailsMaxRetry == maxRetry && outputTokenAccumulatorClassName == accumulatorClassName
      ensures |inputGuardrailsClasses| == 0 && |outputGuardrailsClasses| == 0 && outputTokenAccumulator == None
    {
      this.userMessageTemplate := userMessageTemplate;
      inputGuardrailsClassNames := inputNames;
      outputGuardrailsClassNames := outputNames;
      guardrailsMaxRetry := maxRetry;
      outputTokenAccumulatorClassName := accumulatorClassName;
      inputGuardrailsClasses := [];
      outputGuardrailsClasses := [];
      outputTokenAccumulator := None;
    }
  }

  /** The index of the first name the registry does not know, or |names| when it knows them all. */
  function FirstMissing<V>(names: seq<string>, registry: map<string, V>): (k: nat)
    ensures k <= |names|
    ensures forall j :: 0 <= j < k ==> names[j] in registry
    ensures k < |names| ==> names[k] !in registry
    decreases |names|
  {
    if |names| == 0 || names[0] !in registry then 0 else 1 + FirstMissing(names[1..], registry)
  }

  /** The guardrails registered under the given names, in order. */
  function Lookup<V>(names: seq<string>, registry: map<string, V>): (vs: seq<V>)
    requires forall j :: 0 <= j < |names| ==> names[j] in registry
    ensures |vs| == |names|
    ensures forall j :: 0 <= j < |names| ==> vs[j] == registry[names[j]]
  {
    seq(|names|, j requires 0 <= j < |names| => registry[names[j]])
  }

  /** Loading every named class: all of them, in order, or the error for the first that is missing. */
  function Resolve<V>(kind: string, names: seq<string>, registry: map<string, V>): Result<seq<V>, string> {
    var k := FirstMissing(names, registry);
    if k == |names| then Ok(Lookup(names, registry)) else Err(NotFound(kind, names[k]))
  }

  /**
   * The resolution loop as written: each class is appended to the cached
   * list as soon as it loads, so when a later name fails the classes before
   * it stay cached.
   */
  method FillAsWritten<V>(kind: string, names: seq<string>, registry: map<string, V>, cache: seq<V>)
    returns (filled: seq<V>, error: Option<string>)
    ensures filled == cache + Lookup(names[..FirstMissing(names, registry)], registry)
    ensures error.None? <==> Resolve(kind, names, registry).Ok?
    ensures error.Some? ==> error.value == Resolve(kind, names, registry).error
  {
    var k := FirstMissing(names, registry);
    filled := cache;
    for i := 0 to |names|
      invariant i <= k
      invariant filled == cache + Lookup(names[..i], registry)
    {
      if names[i] !in registry {
        return filled, Some(NotFound(kind, names[i]));
      }
      assert names[..i + 1] == names[..i] + [names[i]];
      filled := filled + [registry[names[i]]];
    }
    assert names[..|names|] == names;
    error := None;
  }

  /**
   * The resolution loop, corrected: the classes are loaded into a fresh
   * list, which is published only once every name has resolved.
   */
  method ResolveAll<V>(kind: string, names: seq<string>, registry: map<string, V>)
    returns (r: Result<seq<V>, string>)
    ensures r == Resolve(kind, names, registry)
  {
    var k := FirstMissing(names, registry);
    var resolved: seq<V> := [];
    for i := 0 to |names|
      invariant i <= k
      invariant resolved == Lookup(names[..i], registry)
    {
      if names[i] !in registry {
        return Err(NotFound(kind, names[i]));
      }
      assert names[..i + 1] == names[..i] + [names[i]];
      resolved := resolved + [registry[names[i]]];
    }
    assert names[..|names|] == names;
    r := Ok(resolved);
  }

  /** The cache after one invocation: filled when it was empty and every name resolved. */
  function CacheAfter<V>(kind: string, names: seq<string>, cache: seq<V>, registry: map<string, V>): seq<V> {
    if |names| == 0 || |cache| > 0 then cache
    else match Resolve(kind, names, registry)
      case Ok(vs) => vs
      case Err(_) => cache
  }

  /**
   * One invocation of a guardrail chain: success when no guardrail is
   * configured; otherwise the fold of the cached guardrails, from success(),
   * after loading them if the cache is empty.
   */
  function Evaluate<P>(kind: string, names: seq<string>, cache: seq<Validator<P>>,
                       registry: map<string, Validator<P>>, params: P, ops: ResultOps<P>): Result<GuardrailResult, string>
  {
    if |names| == 0 then Ok(ops.success)
    else if |cache| > 0 then Ok(Chain(ChainState(params, ops.success), cache, ops))
    else match Resolve(kind, names, registry)
      case Ok(vs) => Ok(Chain(ChainState(params, ops.success), vs, ops))
      case Err(m) => Err(m)
  }

  /**
   * With the corrected fill, filling is idempotent and invisible: every
   * later invocation evaluates as the first one did, and a name that failed
   * to load fails again instead of being skipped.
   */
  lemma FillIsStable<P>(kind: string, names: seq<string>, cache: seq<Validator<P>>,
                        registry: map<string, Validator<P>>, params: P, ops: ResultOps<P>)
    ensures CacheAfter(kind, names, CacheAfter(kind, names, cache, registry), registry)
         == CacheAfter(kind, names, cache, registry)
    ensures Evaluate(kind, names, CacheAfter(kind, names, cache, registry), registry, params, ops)
         == Evaluate(kind, names, cache, registry, params, ops)
  {
  }

  /**
   * The source's fill, from an empty cache, with a second name that does
   * not load: the call fails, but the first guardrail stays cached, and the
   * next invocation runs that guardrail alone instead of failing again.
   */
  lemma PartialFillSkipsGuardrail<P>(v: Validator<P>, params: P, ops: ResultOps<P>)
    ensures var names, registry := ["First", "Missing"], map["First" := v];
      && Resolve(InputGuardrailKind, names, registry) == Err(NotFound(InputGuardrailKind, "Missing"))
      && [] + Lookup(names[..FirstMissing(names, registry)], registry) == [v]
      && Evaluate(InputGuardrailKind, names, [v], registry, params, ops) == Ok(Chain(ChainState(params, ops.success), [v], ops))
      && CacheAfter(InputGuardrailKind, names, [], registry) == []
  {
  }

  /**
   * Once every name resolves, an invocation runs exactly the resolved
   * guardrails, in configuration order, whether or not they were cached.
   */
  lemma EvaluateRunsResolved<P>(kind: string, names: seq<string>, cache: seq<Validator<P>>,
                                registry: map<string, Validator<P>>, params: P, ops: ResultOps<P>, gs: seq<Validator<P>>)
    requires 0 < |names| && Resolve(kind, names, registry) == Ok(gs)
    requires |cache| == 0 || cache == gs
    ensures |gs| == |names| && (forall j :: 0 <= j < |gs| ==> gs[j] == registry[names[j]])
    ensures Evaluate(kind, names, cache, registry, params, ops) == Ok(Chain(ChainState(params, ops.success), gs, ops))
  {
  }

  /** invokeInputGuardRails: the input chain of one call, with the corrected fill. */
  method InvokeInputGuardRails(info: MethodCreateInfo, params: InputGuardrailParams, registry: Registry,
                               ops: ResultOps<InputGuardrailParams>)
    returns (r: Result<GuardrailResult, string>)
    modifies info`inputGuardrailsClasses
    ensures r == Evaluate(InputGuardrailKind, info.inputGuardrailsClassNames, old(info.inputGuardrailsClasses),
                          registry.inputGuardrails, params, ops)
    ensures info.inputGuardrailsClasses
         == CacheAfter(InputGuardrailKind, info.inputGuardrailsClassNames, old(info.inputGuardrailsClasses),
                       registry.inputGuardrails)
  {
    if |info.inputGuardrailsClassNames| == 0 {
      return Ok(ops.success);
    }
    if |info.inputGuardrailsClasses| == 0 {
      var resolved := ResolveAll(InputGuardrailKind, info.inputGuardrailsClassNames, registry.inputGuardrails);
      if resolved.Err? {
        return Err(resolved.error);
      }
      info.inputGuardrailsClasses := resolved.value;
    }
    var result;
    ghost var audit;
    result, audit := RunChain(params, info.inputGuardrailsClasses, ops.success, ops);
    r := Ok(result);
  }

  /** invokeOutputGuardRails: the output chain of one evaluation, with the corrected fill. */
  method InvokeOutputGuardRails(info: MethodCreateInfo, params: OutputGuardrailParams, registry: Registry,
                                ops: ResultOps<OutputGuardrailParams>)
    returns (r: Result<GuardrailResult, string>)
    modifies info`outputGuardrailsClasses
    ensures r == Evaluate(OutputGuardrailKind, info.outputGuardrailsClassNames, old(info.outputGuardrailsClasses),
                          registry.outputGuardrails, params, ops)
    ensures info.outputGuardrailsClasses
         == CacheAfter(OutputGuardrailKind, info.outputGuardrailsClassNames, old(info.outputGuardrailsClasses),
                       registry.outputGuardrails)
  {
    if |info.outputGuardrailsClassNames| == 0 {
      return Ok(ops.success);
    }
    if |info.outputGuardrailsClasses| == 0 {
      var resolved := ResolveAll(OutputGuardrailKind, info.outputGuardrailsClassNames, registry.outputGuardrails);
      if resolved.Err? {
        return Err(resolved.error);
      }
      info.outputGuardrailsClasses := resolved.value;
    }
    var result;
    ghost var audit;
    result, audit := RunChain(params, info.outputGuardrailsClasses, ops.success, ops);
    r := Ok(result);
  }

  /** invokeOutputGuardrailsForStream: the same evaluation, its exception left unwrapped. */
  method InvokeOutputGuardrailsForStream(info: MethodCreateInfo, params: OutputGuardrailParams, registry: Registry,
                                         ops: ResultOps<OutputGuardrailParams>)
    returns (r: Result<GuardrailResult, string>)
    modifies info`outputGuardrailsClasses
    ensures r == Evaluate(OutputGuardrailKind, info.outputGuardrailsClassNames, old(info.outputGuardrailsClasses),
                          registry.outputGuardrails, params, ops)
    ensures info.outputGuardrailsClasses
         == CacheAfter(OutputGuardrailKind, info.outputGuardrailsClassNames, old(info.outputGuardrailsClasses),
                       registry.outputGuardrails)
  {
    r := InvokeOutputGuardRails(info, params, registry, ops);
  }
}
