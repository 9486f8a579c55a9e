/**
 * The events emitted on the streaming path of an AI service call
 * (runtime/aiservice/ChatEvent.java): a closed union of five kinds, each of
 * which fixes the tag it hands to the base class.
 */
module ChatEvents {
  import opened Wrappers

  // Payloads owned by the model library; the engine never looks inside them.
  type AiMessage(==)
  type ChatResponseMetadata(==)
  type ToolExecution(==)
  type Content(==)

  /** A model response, as the engine observes it: its AI message and its metadata. */
  datatype ChatResponse = ChatResponse(aiMessage: AiMessage, metadata: ChatResponseMetadata)

  /** ChatEventType: exactly five kinds. */
  datatype ChatEventType = Completed | ToolExecuted | PartialResponse | ContentFetched | AccumulatedResponse

  const AllEventTypes: seq<ChatEventType> :=
    [Completed, ToolExecuted, PartialResponse, ContentFetched, AccumulatedResponse]

  /**
   * One constructor per subclass, with that subclass's final fields; the
   * destructors are the getters. A metadata that may be null is an Option.
   */
  datatype ChatEvent =
    | ChatCompletedEvent(chatResponse: ChatResponse)
    | ToolExecutedEvent(execution: ToolExecution)
    | PartialResponseEvent(chunk: string)
    | ContentFetchedEvent(content: seq<Content>)
    | AccumulatedResponseEvent(message: string, metadata: Option<ChatResponseMetadata>)

  /**
   * getEventType: the tag fixed at construction. Each tag belongs to exactly
   * one kind, so a consumer that tests the tag may downcast to that kind.
   */
  function EventType(e: ChatEvent): (t: ChatEventType)
    ensures t == Completed <==> e.ChatCompletedEvent?
    ensures t == ToolExecuted <==> e.ToolExecutedEvent?
    ensures t == PartialResponse <==> e.PartialResponseEvent?
    ensures t == ContentFetched <==> e.ContentFetchedEvent?
    ensures t == AccumulatedResponse <==> e.AccumulatedResponseEvent?
  {
    match e
    case ChatCompletedEvent(_) => Completed
    case ToolExecutedEvent(_) => ToolExecuted
    case PartialResponseEvent(_) => PartialResponse
    case ContentFetchedEvent(_) => ContentFetched
    case AccumulatedResponseEvent(_, _) => AccumulatedResponse
  }

  /** There are five distinct kinds and every tag is one of them. */
  lemma ExactlyFiveKinds()
    ensures |AllEventTypes| == 5
    ensures forall t: ChatEventType :: t in AllEventTypes
    ensures forall i, j :: 0 <= i < j < |AllEventTypes| ==> AllEventTypes[i] != AllEventTypes[j]
  {
    forall t: ChatEventType ensures t in AllEventTypes {
      match t
      case Completed => assert AllEventTypes[0] == t;
      case ToolExecuted => assert AllEventTypes[1] == t;
      case PartialResponse => assert AllEventTypes[2] == t;
      case ContentFetched => assert AllEventTypes[3] == t;
      case AccumulatedResponse => assert AllEventTypes[4] == t;
    }
  }

  /** Each subclass's constructor fixes its tag, and its getters return what the constructor was given. */
  lemma ConstructorsFixTagAndFields(response: ChatResponse, execution: ToolExecution, chunk: string,
                                    content: seq<Content>, message: string, metadata: Option<ChatResponseMetadata>)
    ensures EventType(ChatCompletedEvent(response)) == Completed
    ensures EventType(ToolExecutedEvent(execution)) == ToolExecuted
    ensures EventType(PartialResponseEvent(chunk)) == PartialResponse
    ensures EventType(ContentFetchedEvent(content)) == ContentFetched
    ensures EventType(AccumulatedResponseEvent(message, metadata)) == AccumulatedResponse
    ensures ChatCompletedEvent(response).chatResponse == response
    ensures ToolExecutedEvent(execution).execution == execution
    ensures PartialResponseEvent(chunk).chunk == chunk
    ensures ContentFetchedEvent(content).content == content
    ensures AccumulatedResponseEvent(message, metadata).message == message
    ensures AccumulatedResponseEvent(message, metadata).metadata == metadata
  {
  }
}
