/**
 * The values the guardrail engine passes around: guardrail results as the
 * engine observes them, the params a guardrail validates, the chat history
 * and the errors the engine raises. The result and params classes live
 * outside runtime/aiservice/GuardrailsSupport.java; only what the engine
 * reads of them is modelled, and their factories and conversions are
 * abstract function values.
 */
module Guardrails {
  import opened Wrappers
  import opened ChatEvents

  // Values the engine only passes along.
  type Cause(==, !new)
  type RewrittenResult(==)
  type UserMessage(==)
  type AugmentationResult(==)
  type TemplateValue(==)
  type OtherMessage(==)

  /** One failure of a guardrail: its message and the exception it carries, if any. */
  datatype Failure = Failure(message: string, cause: Option<Cause>)

  /** A rewrite accepted by a guardrail: successfulText() and successfulResult(). */
  datatype Rewrite = Rewrite(text: string, result: RewrittenResult)

  /**
   * What the engine observes of a GuardrailResult. isFatal is defined by the
   * result classes and stays an independent observation; failures() may be
   * null; getReprompt() is meaningful for output results only.
   */
  datatype GuardrailResult = GuardrailResult(
    isSuccess: bool,
    isFatal: bool,
    isRetry: bool,
    failures: Option<seq<Failure>>,
    rewrite: Option<Rewrite>,
    reprompt: Option<string>)
  {
    predicate HasRewrittenResult() {
      rewrite.Some?
    }

    function SuccessfulText(): string
      requires HasRewrittenResult()
    {
      rewrite.value.text
    }

    /** failures(), with a null list read as the empty list. */
    function FailureList(): seq<Failure> {
      if failures.Some? then failures.value else []
    }
  }

  /** A resolved guardrail: the validate(params) of one guardrail instance. */
  type Validator<!P> = P -> GuardrailResult

  /**
   * The members of one result class (InputGuardrailResult or
   * OutputGuardrailResult) and of its params class that the engine calls:
   * the success() constant, the failure(list) factory, blockRetry() and
   * params.withText(text).
   */
  datatype ResultOps<!P> = ResultOps(
    success: GuardrailResult,
    failure: seq<Failure> -> GuardrailResult,
    blockRetry: GuardrailResult -> GuardrailResult,
    withText: (P, string) -> P)

  /** failure(list) builds a non-success result that reports exactly that list. */
  ghost predicate BuildsFailure(failure: seq<Failure> -> GuardrailResult) {
    forall fs :: !failure(fs).isSuccess && failure(fs).failures == Some(fs)
  }

  /** success() is a plain success: not fatal, and without a rewrite. */
  predicate SuccessIsPlain<P>(ops: ResultOps<P>) {
    ops.success.isSuccess && !ops.success.isFatal && !ops.success.HasRewrittenResult()
  }

  /** A message of the chat history. */
  datatype ChatMessage =
    | UserText(text: string)
    | Ai(aiMessage: AiMessage)
    | Other(other: OtherMessage)

  /** ChatMemory, seen as an append-only log of messages. */
  class ChatMemory {
    var messages: seq<ChatMessage>

    constructor (initial: seq<ChatMessage>)
      ensures messages == initial
    {
      messages := initial;
    }

    method Add(message: ChatMessage)
      modifies this
      ensures messages == old(messages) + [message]
    {
      messages := messages + [message];
    }
  }

  /** InputGuardrailParams: the user message and its context. */
  datatype InputGuardrailParams = InputGuardrailParams(
    userMessage: UserMessage,
    memory: ChatMemory,
    augmentationResult: AugmentationResult,
    userMessageTemplate: string,
    variables: map<string, TemplateValue>)

  /** OutputGuardrailParams: the model's answer and the same context. */
  datatype OutputGuardrailParams = OutputGuardrailParams(
    responseFromLLM: AiMessage,
    memory: ChatMemory,
    augmentationResult: AugmentationResult,
    userMessageTemplate: string,
    variables: map<string, TemplateValue>)

  /** The exceptions the engine throws to its caller. */
  datatype GuardrailError =
      /** GuardrailException(result.toString(), result.getFirstFailureException()) */
    | Rejected(result: GuardrailResult)
      /** GuardrailException(e.getMessage(), e) around an exception raised while evaluating */
    | Wrapped(message: string)
      /** GuardrailException(message) when the output retries are used up */
    | RetriesExhausted(message: string)
}
