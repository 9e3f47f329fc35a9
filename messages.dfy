/**
  The values a query passes around: the output items and stream events of
  the language-model gateway (the Responses API), the conversation history
  the host resubmits every turn, and the records of response_model.py
  (ToolCall, LLMCall, Interaction, QueryResponse).
*/
module Messages {
  import opened Wrappers
  import opened Json

  /** One content part of a `message` output item. */
  datatype Content = OutputText(text: string) | Refusal(refusal: string)

  /** A `function_call` output item: tool name, JSON argument text, call id. */
  datatype FunctionCall = FunctionCall(name: string, arguments: string, callId: string)

  /** One item of a response's `output` list. */
  datatype OutputItem =
    | MessageItem(content: seq<Content>)
    | FunctionCallItem(call: FunctionCall)

  /** One entry of `openai_query_messages`. */
  datatype Message =
    | UserMessage(content: string)
    | ModelCall(call: FunctionCall)
    | FunctionCallOutput(callId: string, output: string)

  /** The request part of an `LLMCall` record. */
  datatype LlmRequest = LlmRequest(
    messages: seq<Message>,
    tools: seq<Json>,
    toolChoice: Option<Json>,
    parallelToolCalls: bool)

  /** The `details` of an `error` Interaction (and the error dicts a tool turn returns). */
  datatype ErrorDetail =
    | ToolFailure(error: string, tool: string, args: Json)
    | SourcedError(error: string, source: string)

  /** One entry of the flow. */
  datatype Interaction =
    | LlmApiCall(llm: string, request: LlmRequest, response: seq<OutputItem>)
    | ToolCallEntry(toolName: string, toolArgs: Json, toolResponse: Json)
    | ErrorEntry(details: ErrorDetail)

  /** `QueryResponse.model_dump()` plus the optional top-level `"error"` key. */
  datatype QueryResponse = QueryResponse(
    namesOfToolsUsed: seq<string>,
    flow: seq<Interaction>,
    finalAnswer: string,
    error: Option<string>)

  /** What one non-streaming gateway call gives: a response, or the exception it raised. */
  datatype Reply = Responded(output: seq<OutputItem>) | GatewayFailed(error: string)

  /** One event of a streamed response. */
  datatype StreamEvent =
    | OutputItemAdded(outputIndex: int, item: OutputItem)        // response.output_item.added
    | ArgumentsDelta(outputIndex: int, delta: string)            // response.function_call_arguments.delta
    | Completed(output: seq<OutputItem>)                         // response.completed
    | OtherEvent(kind: string)                                   // any other event type

  /**
    One server-sent frame of the streaming query: the echo of an event, the
    error frame for an event whose handling raised (a `KeyError` on the
    output index it names), and the closing `full_flow` result.
  */
  datatype Frame =
    | EventFrame(event: StreamEvent)
    | EventErrorFrame(missingIndex: int)
    | FullFlowFrame(result: QueryResponse)
}
