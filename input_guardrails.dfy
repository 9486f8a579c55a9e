/**
 * invokeInputGuardrails (runtime/aiservice/GuardrailsSupport.java): runs
 * the input chain on the user message before the model is called, and
 * either lets the message through, possibly rewritten, or raises a
 * GuardrailException.
 */
module InputGuardrails {
  import opened Wrappers
  import opened Guardrails
  import opened GuardrailChain
  import opened GuardrailCache

  /**
   * What the caller gets from one evaluation of the input chain: an
   * exception raised while evaluating is wrapped, a non-success result is
   * rejected, and a successful rewrite replaces the text of the original
   * user message.
   */
  function InputOutcome(evaluation: Result<GuardrailResult, string>, userMessage: UserMessage,
                        rewriteUserMessage: (UserMessage, string) -> UserMessage): Result<UserMessage, GuardrailError>
  {
    match evaluation
    case Err(m) => Err(Wrapped(m))
    case Ok(result) =>
      if !result.isSuccess then Err(Rejected(result))
      else if result.HasRewrittenResult() then Ok(rewriteUserMessage(userMessage, result.SuccessfulText()))
      else Ok(userMessage)
  }

  /** invokeInputGuardrails, with the user message template taken from the method's configuration. */
  method InvokeInputGuardrails(info: MethodCreateInfo, userMessage: UserMessage, chatMemory: ChatMemory,
                               augmentationResult: AugmentationResult, templateVariables: map<string, TemplateValue>,
                               registry: Registry, ops: ResultOps<InputGuardrailParams>,
                               rewriteUserMessage: (UserMessage, string) -> UserMessage)
    returns (r: Result<UserMessage, GuardrailError>)
    modifies info`inputGuardrailsClasses
    ensures r == InputOutcome(
      Evaluate(InputGuardrailKind, info.inputGuardrailsClassNames, old(info.inputGuardrailsClasses), registry.inputGuardrails,
               InputGuardrailParams(userMessage, chatMemory, augmentationResult, info.userMessageTemplate, templateVariables), ops),
      userMessage, rewriteUserMessage)
    ensures info.inputGuardrailsClasses
         == CacheAfter(InputGuardrailKind, info.inputGuardrailsClassNames, old(info.inputGuardrailsClasses), registry.inputGuardrails)
  {
    var params := InputGuardrailParams(userMessage, chatMemory, augmentationResult, info.userMessageTemplate, templateVariables);
    var evaluation := InvokeInputGuardRails(info, params, registry, ops);
    if evaluation.Err? {
      return Err(Wrapped(evaluation.error));
    }
    var result := evaluation.value;
    if !result.isSuccess {
      return Err(Rejected(result));
    }
    var message := userMessage;
    if result.HasRewrittenResult() {
      message := rewriteUserMessage(userMessage, result.SuccessfulText());
    }
    r := Ok(message);
  }

  /** A method without input guardrails passes its user message through untouched. */
  lemma NoGuardrailsKeepMessage(cache: seq<Validator<InputGuardrailParams>>, registry: map<string, Validator<InputGuardrailParams>>,
                                params: InputGuardrailParams, ops: ResultOps<InputGuardrailParams>,
                                rewriteUserMessage: (UserMessage, string) -> UserMessage)
    requires SuccessIsPlain(ops)
    ensures InputOutcome(Evaluate(InputGuardrailKind, [], cache, registry, params, ops), params.userMessage, rewriteUserMessage)
         == Ok(params.userMessage)
  {
  }

  /**
   * When every configured guardrail passes, the message goes through; it is
   * rewritten, from the original message, with the text of the last
   * guardrail if and only if that guardrail rewrote it.
   */
  lemma AcceptedWhenAllPass(names: seq<string>, cache: seq<Validator<InputGuardrailParams>>,
                            registry: map<string, Validator<InputGuardrailParams>>, gs: seq<Validator<InputGuardrailParams>>,
                            params: InputGuardrailParams, ops: ResultOps<InputGuardrailParams>,
                            rewriteUserMessage: (UserMessage, string) -> UserMessage)
    requires 0 < |names| && Resolve(InputGuardrailKind, names, registry) == Ok(gs) && (|cache| == 0 || cache == gs)
    requires SuccessIsPlain(ops)
    requires forall j :: 0 <= j < |gs| ==>
      OutcomeAt(ChainState(params, ops.success), gs, ops, j).isSuccess && !OutcomeAt(ChainState(params, ops.success), gs, ops, j).isFatal
    ensures var last := OutcomeAt(ChainState(params, ops.success), gs, ops, |gs| - 1);
      InputOutcome(Evaluate(InputGuardrailKind, names, cache, registry, params, ops), params.userMessage, rewriteUserMessage)
      == Ok(if last.HasRewrittenResult() then rewriteUserMessage(params.userMessage, last.SuccessfulText()) else params.userMessage)
  {
    EvaluateRunsResolved(InputGuardrailKind, names, cache, registry, params, ops, gs);
    LastSuccessWins(ChainState(params, ops.success), gs, ops);
  }

  /**
   * When no guardrail is fatal but at least one fails, the message is
   * rejected with a failure result that reports the failures of every
   * failing guardrail, in execution order.
   */
  lemma RejectedWithAllFailures(names: seq<string>, cache: seq<Validator<InputGuardrailParams>>,
                                registry: map<string, Validator<InputGuardrailParams>>, gs: seq<Validator<InputGuardrailParams>>,
                                params: InputGuardrailParams, ops: ResultOps<InputGuardrailParams>,
                                rewriteUserMessage: (UserMessage, string) -> UserMessage, k: nat)
    requires 0 < |names| && Resolve(InputGuardrailKind, names, registry) == Ok(gs) && (|cache| == 0 || cache == gs)
    requires SuccessIsPlain(ops) && BuildsFailure(ops.failure)
    requires NoFatalBefore(ChainState(params, ops.success), gs, ops, |gs|)
    requires k < |gs| && !OutcomeAt(ChainState(params, ops.success), gs, ops, k).isSuccess
    ensures var outcome := InputOutcome(Evaluate(InputGuardrailKind, names, cache, registry, params, ops),
                                        params.userMessage, rewriteUserMessage);
      && outcome.Err? && outcome.error.Rejected?
      && outcome.error.result.FailureList() == CollectedFailures(ChainState(params, ops.success), gs, ops, |gs|)
  {
    var s := ChainState(params, ops.success);
    EvaluateRunsResolved(InputGuardrailKind, names, cache, registry, params, ops, gs);
    ChainRunsToEnd(s, gs, ops);
    AccumulatedFailures(s, gs, ops, |gs|);
  }

  /** A configured guardrail that cannot be loaded makes the call fail with the loader's message, wrapped. */
  lemma MissingClassIsWrapped(names: seq<string>, registry: map<string, Validator<InputGuardrailParams>>,
                              params: InputGuardrailParams, ops: ResultOps<InputGuardrailParams>,
                              rewriteUserMessage: (UserMessage, string) -> UserMessage)
    requires FirstMissing(names, registry) < |names|
    ensures InputOutcome(Evaluate(InputGuardrailKind, names, [], registry, params, ops), params.userMessage, rewriteUserMessage)
         == Err(Wrapped(NotFound(InputGuardrailKind, names[FirstMissing(names, registry)])))
  {
  }
}
