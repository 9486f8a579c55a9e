/**
 * invokeOutputGuardrails (runtime/aiservice/GuardrailsSupport.java): runs
 * the output chain on the model's answer and, while the chain asks for a
 * retry, re-prompts the model through the chat memory, up to the configured
 * number of attempts.
 */
module OutputGuardrails {
  import opened Wrappers
  import opened ChatEvents
  import opened Guardrails
  import opened GuardrailChain
  import opened GuardrailCache

  /** OutputGuardrailResponse: the final model response and the result that accepted it (null allowed). */
  datatype OutputGuardrailResponse = OutputGuardrailResponse(response: ChatResponse, result: Option<GuardrailResult>)
  {
    predicate HasRewrittenResult() {
      result.Some? && result.value.HasRewrittenResult()
    }

    /** getRewrittenResult: the rewritten object, or null when there is none. */
    function GetRewrittenResult(): (r: Option<RewrittenResult>)
      ensures r.Some? <==> HasRewrittenResult()
      ensures r.Some? ==> r.value == result.value.rewrite.value.result
    {
      if HasRewrittenResult() then Some(result.value.rewrite.value.result) else None
    }
  }

  /** One evaluation of the output chain on the given params. */
  type Evaluator = OutputGuardrailParams -> Result<GuardrailResult, string>

  /** The chat model as the loop uses it: the response to the current history. */
  type ChatModel = seq<ChatMessage> -> ChatResponse

  /** The evaluation every attempt performs, with the method's configuration and registry. */
  function OutputEvaluator(names: seq<string>, cache: seq<Validator<OutputGuardrailParams>>,
                           registry: map<string, Validator<OutputGuardrailParams>>,
                           ops: ResultOps<OutputGuardrailParams>): Evaluator
  {
    p => Evaluate(OutputGuardrailKind, names, cache, registry, p, ops)
  }

  /** The number of attempts: a configured maximum below one means a single attempt. */
  function NormalizedMax(configured: int): (max: nat)
    ensures 1 <= max
    ensures 1 <= configured ==> max == configured
    ensures configured <= 0 ==> max == 1
  {
    if configured <= 0 then 1 else configured
  }

  // The separator of the exhaustion message; System.lineSeparator() is taken to be "\n".
  const LineSeparator: string := "\n"

  const MaxRetriesPrefix: string :=
    "Output validation failed. The guardrails have reached the maximum number of retries. Guardrail messages:"

  /** Collectors.joining(lineSeparator). */
  function JoinLines(lines: seq<string>): string
    decreases |lines|
  {
    if |lines| == 0 then ""
    else if |lines| == 1 then lines[0]
    else lines[0] + LineSeparator + JoinLines(lines[1..])
  }

  /** The message of each failure, in order. */
  function Messages(failures: seq<Failure>): (ms: seq<string>)
    ensures |ms| == |failures|
    ensures forall i :: 0 <= i < |failures| ==> ms[i] == failures[i].message
  {
    seq(|failures|, i requires 0 <= i < |failures| => failures[i].message)
  }

  /** The message of the exception raised when the retries are used up. */
  function MaxRetriesMessage(result: GuardrailResult): string {
    MaxRetriesPrefix + LineSeparator + JoinLines(Messages(result.FailureList()))
  }

  /** The loop's variables between two attempts. */
  datatype RetryState = RetryState(messages: seq<ChatMessage>, response: ChatResponse, output: OutputGuardrailParams)

  /**
   * How the loop ends: the chat history, what is returned or thrown, and
   * how many times the chain was evaluated and the model invoked.
   */
  datatype RetryOutcome = RetryOutcome(
    messages: seq<ChatMessage>,
    result: Result<OutputGuardrailResponse, GuardrailError>,
    evaluations: nat,
    invocations: nat)

  /** The history after a retry result: its reprompt, if any, is added as a user message. */
  function Reprompted(messages: seq<ChatMessage>, result: GuardrailResult): seq<ChatMessage> {
    if result.reprompt.Some? then messages + [UserText(result.reprompt.value)] else messages
  }

  /** One retry: re-prompt, invoke the model on the history, record its answer, and validate that answer next. */
  function RetryStep(s: RetryState, result: GuardrailResult, chatModel: ChatModel): RetryState {
    var history := Reprompted(s.messages, result);
    var response := chatModel(history);
    RetryState(history + [Ai(response.aiMessage)], response, s.output.(responseFromLLM := response.aiMessage))
  }

  /**
   * The loop from the given attempt on; last is the result of the previous
   * evaluation. The history only grows, each model invocation adds one or
   * two messages, there is at most one evaluation more than invocations, and
   * what is returned always carries a successful result.
   */
  function RetryLoop(eval: Evaluator, chatModel: ChatModel, s: RetryState, attempt: nat, max: nat,
                     last: Option<GuardrailResult>): RetryOutcome
    requires attempt < max || last.Some?
    decreases max - attempt
  {
    if attempt >= max then RetryOutcome(s.messages, Err(RetriesExhausted(MaxRetriesMessage(last.value))), 0, 0)
    else match eval(s.output)
      case Err(m) => RetryOutcome(s.messages, Err(Wrapped(m)), 1, 0)
      case Ok(result) =>
        if result.isSuccess then RetryOutcome(s.messages, Ok(OutputGuardrailResponse(s.response, Some(result))), 1, 0)
        else if result.isRetry then
          var next := RetryLoop(eval, chatModel, RetryStep(s, result, chatModel), attempt + 1, max, Some(result));
          next.(evaluations := next.evaluations + 1, invocations := next.invocations + 1)
        else RetryOutcome(s.messages, Err(Rejected(result)), 1, 0)
  }

  /**
   * The loop from any attempt on: the history only grows, each model
   * invocation adds one or two messages, there is at most one evaluation
   * more than invocations and never more than the attempts left, and what is
   * returned always carries a successful result.
   */
  lemma {:induction false} RetryLoopShape(eval: Evaluator, chatModel: ChatModel, s: RetryState, attempt: nat, max: nat,
                                          last: Option<GuardrailResult>)
    requires attempt < max || last.Some?
    ensures var o := RetryLoop(eval, chatModel, s, attempt, max, last);
      && o.evaluations <= (if attempt < max then max - attempt else 0)
      && o.invocations <= o.evaluations <= o.invocations + 1
      && |s.messages| + o.invocations <= |o.messages| <= |s.messages| + 2 * o.invocations
      && o.messages[..|s.messages|] == s.messages
      && (o.result.Ok? ==> o.result.value.result.Some? && o.result.value.result.value.isSuccess)
    decreases max - attempt
  {
    if attempt < max {
      var e := eval(s.output);
      if e.Ok? && !e.value.isSuccess && e.value.isRetry {
        var next := RetryStep(s, e.value, chatModel);
        RetryLoopShape(eval, chatModel, next, attempt + 1, max, Some(e.value));
        var o := RetryLoop(eval, chatModel, next, attempt + 1, max, Some(e.value));
        assert next.messages[..|s.messages|] == s.messages;
        assert o.messages[..|s.messages|] == o.messages[..|next.messages|][..|s.messages|];
      }
    }
  }

  /** The state after n retry steps, each driven by the evaluation of the answer before it. */
  function Walk(eval: Evaluator, chatModel: ChatModel, s: RetryState, n: nat): RetryState
    decreases n
  {
    if n == 0 then s
    else match eval(s.output)
      case Ok(result) => Walk(eval, chatModel, RetryStep(s, result, chatModel), n - 1)
      case Err(_) => s
  }

  /** The j-th evaluation of the loop (counting from zero), when the ones before it asked for retries. */
  function EvaluationAt(eval: Evaluator, chatModel: ChatModel, s: RetryState, j: nat): Result<GuardrailResult, string> {
    eval(Walk(eval, chatModel, s, j).output)
  }

  /** The evaluations 0 .. k-1 all asked for a retry. */
  ghost predicate RetriesThrough(eval: Evaluator, chatModel: ChatModel, s: RetryState, k: nat) {
    forall j :: 0 <= j < k ==>
      EvaluationAt(eval, chatModel, s, j).Ok? && !EvaluationAt(eval, chatModel, s, j).value.isSuccess
      && EvaluationAt(eval, chatModel, s, j).value.isRetry
  }

  /** The last result seen after k retries. */
  function LastRetry(eval: Evaluator, chatModel: ChatModel, s: RetryState, k: nat, last: Option<GuardrailResult>): Option<GuardrailResult> {
    if k == 0 then last
    else match EvaluationAt(eval, chatModel, s, k - 1)
      case Ok(result) => Some(result)
      case Err(_) => last
  }

  /**
   * k retries in a row: the loop ends as it would starting k attempts
   * later from the state those retries reached, after k more evaluations
   * and k more model invocations.
   */
  lemma {:induction false} RetriesAdvance(eval: Evaluator, chatModel: ChatModel, s: RetryState, attempt: nat, max: nat,
                                          last: Option<GuardrailResult>, k: nat)
    requires attempt + k <= max && (attempt < max || last.Some?)
    requires RetriesThrough(eval, chatModel, s, k)
    ensures attempt + k < max || LastRetry(eval, chatModel, s, k, last).Some?
    ensures var o := RetryLoop(eval, chatModel, s, attempt, max, last);
      var rest := RetryLoop(eval, chatModel, Walk(eval, chatModel, s, k), attempt + k, max, LastRetry(eval, chatModel, s, k, last));
      o == Counted(rest, k)
    decreases k
  {
    if k > 0 {
      var result := FirstRetryShifts(eval, chatModel, s, last, k);
      RetryUnfolds(eval, chatModel, s, attempt, max, last, result);
      RetriesAdvance(eval, chatModel, RetryStep(s, result, chatModel), attempt + 1, max, Some(result), k - 1);
    }
  }

  /** An outcome reached after n more evaluations and n more model invocations. */
  function Counted(o: RetryOutcome, n: nat): RetryOutcome {
    o.(evaluations := o.evaluations + n, invocations := o.invocations + n)
  }

  /** An attempt that asks for a retry hands the loop over to the next state, counting one evaluation and one invocation. */
  lemma RetryUnfolds(eval: Evaluator, chatModel: ChatModel, s: RetryState, attempt: nat, max: nat,
                     last: Option<GuardrailResult>, result: GuardrailResult)
    requires attempt < max && eval(s.output) == Ok(result) && !result.isSuccess && result.isRetry
    ensures RetryLoop(eval, chatModel, s, attempt, max, last)
         == Counted(RetryLoop(eval, chatModel, RetryStep(s, result, chatModel), attempt + 1, max, Some(result)), 1)
  {
  }

  /** The first of k retries, taken: the remaining k - 1 are retries from the next state, and end where the k did. */
  lemma FirstRetryShifts(eval: Evaluator, chatModel: ChatModel, s: RetryState, last: Option<GuardrailResult>, k: nat)
    returns (result: GuardrailResult)
    requires 0 < k && RetriesThrough(eval, chatModel, s, k)
    ensures eval(s.output) == Ok(result) && !result.isSuccess && result.isRetry
    ensures var next := RetryStep(s, result, chatModel);
      && RetriesThrough(eval, chatModel, next, k - 1)
      && Walk(eval, chatModel, next, k - 1) == Walk(eval, chatModel, s, k)
      && LastRetry(eval, chatModel, next, k - 1, Some(result)) == LastRetry(eval, chatModel, s, k, last)
  {
    assert EvaluationAt(eval, chatModel, s, 0) == eval(s.output);
    result := eval(s.output).value;
    var next := RetryStep(s, result, chatModel);
    forall j | 0 <= j < k - 1
      ensures EvaluationAt(eval, chatModel, next, j) == EvaluationAt(eval, chatModel, s, j + 1)
    {
      assert Walk(eval, chatModel, s, j + 1) == Walk(eval, chatModel, next, j);
    }
    assert Walk(eval, chatModel, s, k) == Walk(eval, chatModel, next, k - 1);
  }

  /**
   * After k retries, an evaluation that succeeds within the allowed
   * attempts ends the loop: the last answer is returned with that result,
   * after k + 1 evaluations and k model invocations.
   */
  lemma SucceedsAfterRetries(eval: Evaluator, chatModel: ChatModel, s: RetryState, max: nat, k: nat, result: GuardrailResult)
    requires k < max && RetriesThrough(eval, chatModel, s, k)
    requires EvaluationAt(eval, chatModel, s, k) == Ok(result) && result.isSuccess
    ensures var w := Walk(eval, chatModel, s, k);
      RetryLoop(eval, chatModel, s, 0, max, None)
      == RetryOutcome(w.messages, Ok(OutputGuardrailResponse(w.response, Some(result))), k + 1, k)
  {
    RetriesAdvance(eval, chatModel, s, 0, max, None, k);
  }

  /**
   * After k retries, an evaluation that fails without asking for a retry
   * ends the loop with that result as the rejection; the model is not
   * invoked again.
   */
  lemma RejectedAfterRetries(eval: Evaluator, chatModel: ChatModel, s: RetryState, max: nat, k: nat, result: GuardrailResult)
    requires k < max && RetriesThrough(eval, chatModel, s, k)
    requires EvaluationAt(eval, chatModel, s, k) == Ok(result) && !result.isSuccess && !result.isRetry
    ensures RetryLoop(eval, chatModel, s, 0, max, None)
         == RetryOutcome(Walk(eval, chatModel, s, k).messages, Err(Rejected(result)), k + 1, k)
  {
    RetriesAdvance(eval, chatModel, s, 0, max, None, k);
  }

  /**
   * When every allowed evaluation asks for a retry, the loop gives up: the
   * model has been invoked max times, its last answer is never evaluated,
   * and the exception lists the failures of the last evaluated result.
   */
  lemma ExhaustsRetries(eval: Evaluator, chatModel: ChatModel, s: RetryState, max: nat)
    requires 1 <= max && RetriesThrough(eval, chatModel, s, max)
    ensures RetryLoop(eval, chatModel, s, 0, max, None)
         == RetryOutcome(Walk(eval, chatModel, s, max).messages,
                         Err(RetriesExhausted(MaxRetriesMessage(EvaluationAt(eval, chatModel, s, max - 1).value))), max, max)
  {
    RetriesAdvance(eval, chatModel, s, 0, max, None, max);
  }

  /** A retry step re-prompts the model with the reprompt, when there is one, right before its answer. */
  lemma RetryStepReprompts(s: RetryState, result: GuardrailResult, chatModel: ChatModel, reprompt: string)
    requires result.reprompt == Some(reprompt)
    ensures var t := RetryStep(s, result, chatModel);
      && t.response == chatModel(s.messages + [UserText(reprompt)])
      && t.messages == s.messages + [UserText(reprompt), Ai(t.response.aiMessage)]
      && t.output.responseFromLLM == t.response.aiMessage
      && t.output.(responseFromLLM := s.output.responseFromLLM) == s.output
  {
  }

  /** The index of the first line separator in text, or |text| when there is none. */
  function LineEnd(text: string): (k: nat)
    ensures k <= |text|
    ensures forall i :: 0 <= i < k ==> text[i] != '\n'
    ensures k < |text| ==> text[k] == '\n'
    decreases |text|
  {
    if |text| == 0 || text[0] == '\n' then 0 else 1 + LineEnd(text[1..])
  }

  /** The lines of a text, split at every line separator. */
  function SplitLines(text: string): seq<string>
    decreases |text|
  {
    var k := LineEnd(text);
    if k == |text| then [text] else [text[..k]] + SplitLines(text[k + 1..])
  }

  /** Splitting undoes joining, as long as no line contains the separator. */
  lemma {:induction false} SplitJoin(lines: seq<string>)
    requires 0 < |lines|
    requires forall i :: 0 <= i < |lines| ==> '\n' !in lines[i]
    ensures SplitLines(JoinLines(lines)) == lines
    decreases |lines|
  {
    var head := lines[0];
    assert LineEnd(head) == |head|;
    if |lines| > 1 {
      var rest := JoinLines(lines[1..]);
      var text := head + LineSeparator + rest;
      assert text[..|head|] == head;
      assert text[|head|] == '\n';
      assert LineEnd(text) == |head|;
      assert text[|head| + 1..] == rest;
      SplitJoin(lines[1..]);
    }
  }

  /**
   * The exhaustion message is the fixed heading, a line separator, then
   * text that reads back, line by line, as the failure messages of the last
   * result (one empty line when it has none), provided no failure message
   * spans several lines.
   */
  lemma ExhaustionMessageLines(result: GuardrailResult)
    requires forall f :: f in result.FailureList() ==> '\n' !in f.message
    ensures var message := MaxRetriesMessage(result);
      && message[..|MaxRetriesPrefix| + 1] == MaxRetriesPrefix + LineSeparator
      && SplitLines(message[|MaxRetriesPrefix| + 1..])
         == if |result.FailureList()| == 0 then [""] else Messages(result.FailureList())
  {
    var ms := Messages(result.FailureList());
    var message := MaxRetriesMessage(result);
    assert message[|MaxRetriesPrefix| + 1..] == JoinLines(ms);
    if |ms| == 0 {
      assert LineEnd("") == 0;
    } else {
      forall i | 0 <= i < |ms|
        ensures '\n' !in ms[i]
      {
        assert result.FailureList()[i] in result.FailureList();
      }
      SplitJoin(ms);
    }
  }

  /** The retry branch of one attempt: re-prompt when asked to, invoke the model, and record its answer. */
  method Reinvoke(chatMemory: ChatMemory, chatModel: ChatModel, result: GuardrailResult) returns (response: ChatResponse)
    modifies chatMemory
    ensures response == chatModel(Reprompted(old(chatMemory.messages), result))
    ensures chatMemory.messages == Reprompted(old(chatMemory.messages), result) + [Ai(response.aiMessage)]
  {
    if result.reprompt.Some? {
      chatMemory.Add(UserText(result.reprompt.value));
    }
    response := chatModel(chatMemory.messages);
    chatMemory.Add(Ai(response.aiMessage));
  }

  /** Every attempt evaluates as the first did: the cache only ever moves from its initial value to its filled value. */
  lemma EvaluationIsStable(names: seq<string>, cache0: seq<Validator<OutputGuardrailParams>>, cache: seq<Validator<OutputGuardrailParams>>,
                           registry: map<string, Validator<OutputGuardrailParams>>, params: OutputGuardrailParams,
                           ops: ResultOps<OutputGuardrailParams>)
    requires cache == cache0 || cache == CacheAfter(OutputGuardrailKind, names, cache0, registry)
    ensures Evaluate(OutputGuardrailKind, names, cache, registry, params, ops) == OutputEvaluator(names, cache0, registry, ops)(params)
    ensures CacheAfter(OutputGuardrailKind, names, cache, registry) == CacheAfter(OutputGuardrailKind, names, cache0, registry)
  {
    FillIsStable(OutputGuardrailKind, names, cache0, registry, params, ops);
  }

  /** One attempt of the loop, unfolded: what the evaluation of the current answer decides. */
  lemma AttemptUnfolds(eval: Evaluator, chatModel: ChatModel, s: RetryState, attempt: nat, max: nat,
                       last: Option<GuardrailResult>)
    requires attempt < max
    ensures var o := RetryLoop(eval, chatModel, s, attempt, max, last);
      match eval(s.output)
      case Err(m) => o == RetryOutcome(s.messages, Err(Wrapped(m)), 1, 0)
      case Ok(result) =>
        if result.isSuccess then o == RetryOutcome(s.messages, Ok(OutputGuardrailResponse(s.response, Some(result))), 1, 0)
        else if result.isRetry then
          o == Counted(RetryLoop(eval, chatModel, RetryStep(s, result, chatModel), attempt + 1, max, Some(result)), 1)
        else o == RetryOutcome(s.messages, Err(Rejected(result)), 1, 0)
  {
  }

  /** invokeOutputGuardrails. The model call of executeRequest is the chatModel parameter. */
  method InvokeOutputGuardrails(info: MethodCreateInfo, chatMemory: ChatMemory, chatModel: ChatModel,
                                response: ChatResponse, output: OutputGuardrailParams,
                                registry: Registry, ops: ResultOps<OutputGuardrailParams>)
    returns (r: Result<OutputGuardrailResponse, GuardrailError>, ghost evaluations: nat, ghost invocations: nat)
    modifies chatMemory, info`outputGuardrailsClasses
    ensures var o := RetryLoop(
      OutputEvaluator(info.outputGuardrailsClassNames, old(info.outputGuardrailsClasses), registry.outputGuardrails, ops),
      chatModel, RetryState(old(chatMemory.messages), response, output), 0, NormalizedMax(info.guardrailsMaxRetry), None);
      && r == o.result && chatMemory.messages == o.messages
      && evaluations == o.evaluations && invocations == o.invocations
    ensures info.outputGuardrailsClasses
         == CacheAfter(OutputGuardrailKind, info.outputGuardrailsClassNames, old(info.outputGuardrailsClasses), registry.outputGuardrails)
  {
    var max := info.guardrailsMaxRetry;
    if max <= 0 {
      max := 1;
    }
    ghost var names, cache0 := info.outputGuardrailsClassNames, info.outputGuardrailsClasses;
    ghost var eval := OutputEvaluator(names, cache0, registry.outputGuardrails, ops);
    ghost var goal := RetryLoop(eval, chatModel, RetryState(chatMemory.messages, response, output), 0, max, None);
    var attempt := 0;
    var result: Option<GuardrailResult> := None;
    var current, params := response, output;
    evaluations, invocations := 0, 0;
    while attempt < max
      invariant attempt <= max && (attempt < max || result.Some?)
      invariant RetryLoop(eval, chatModel, RetryState(chatMemory.messages, current, params), attempt, max, result).result == goal.result
      invariant RetryLoop(eval, chatModel, RetryState(chatMemory.messages, current, params), attempt, max, result).messages == goal.messages
      invariant evaluations + RetryLoop(eval, chatModel, RetryState(chatMemory.messages, current, params), attempt, max, result).evaluations
             == goal.evaluations
      invariant invocations + RetryLoop(eval, chatModel, RetryState(chatMemory.messages, current, params), attempt, max, result).invocations
             == goal.invocations
      invariant info.outputGuardrailsClasses
             == if attempt == 0 then cache0 else CacheAfter(OutputGuardrailKind, names, cache0, registry.outputGuardrails)
      decreases max - attempt
    {
      ghost var before, last := RetryState(chatMemory.messages, current, params), result;
      EvaluationIsStable(names, cache0, info.outputGuardrailsClasses, registry.outputGuardrails, params, ops);
      var evaluation := InvokeOutputGuardRails(info, params, registry, ops);
      evaluations := evaluations + 1;
      if evaluation.Err? {
        AttemptUnfolds(eval, chatModel, before, attempt, max, last);
        r := Err(Wrapped(evaluation.error));
        return;
      }
      result := Some(evaluation.value);
      if evaluation.value.isSuccess {
        AttemptUnfolds(eval, chatModel, before, attempt, max, last);
        break;
      }
      if evaluation.value.isRetry {
        current := Reinvoke(chatMemory, chatModel, evaluation.value);
        invocations := invocations + 1;
      } else {
        AttemptUnfolds(eval, chatModel, before, attempt, max, last);
        r := Err(Rejected(evaluation.value));
        return;
      }
      RetryUnfolds(eval, chatModel, before, attempt, max, last, evaluation.value);
      attempt := attempt + 1;
      params := params.(responseFromLLM := current.aiMessage);
    }
    if attempt == max {
      r := Err(RetriesExhausted(MaxRetriesMessage(result.value)));
      return;
    }
    r := Ok(OutputGuardrailResponse(current, result));
  }
}
