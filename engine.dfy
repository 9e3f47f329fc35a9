/**
  The conversation loop of `Host.process_query` as a function of its
  inputs: the registry, the gateway's replies (a finite script, one reply
  per model call) and the collaborators the host calls but does not define
  (`json.loads`, `str`, and the validation of a tool-call record). The
  imperative methods of class `Host` are proved equal to these functions.
*/
module Engine {
  import opened Wrappers
  import opened Json
  import opened Messages
  import opened Routing

  /** The model name recorded in every `LLMCall`. */
  const Model := "gpt-4.1"

  /** `str(e)` of the AttributeError raised when a `message` item is read as a function call. */
  const NoNameAttribute := "'ResponseOutputMessage' object has no attribute 'name'"

  /**
    Collaborators: `decode` is `json.loads` (Err carries `str(e)`), `show`
    is `str()` of a tool result, and `rejectArgs` is `str(e)` of the
    validation error raised when decoded arguments are not a dict.
  */
  datatype Env = Env(
    decode: string -> Result<Json, string>,
    show: Json -> string,
    rejectArgs: Json -> string)

  /** What every gateway call of one query carries besides the history. */
  datatype Params = Params(tools: seq<Json>, toolChoice: Option<Json>, parallelToolCalls: bool)

  /** The locals of the loop: history, flow, tool names, answer text and `error_info["error"]`. */
  datatype LoopState = LoopState(
    messages: seq<Message>,
    flow: seq<Interaction>,
    names: seq<string>,
    answer: string,
    errorInfo: Option<string>)

  /** How a query ends: with a result, or wanting another model call when the script has none. */
  datatype Outcome = Finished(response: QueryResponse) | ScriptExhausted(last: LoopState)

  /** What `process_openai_function_call_response` returns, or the exception it raises with the flow it had built. */
  datatype CallsOutcome =
    | CallsDone(names: seq<string>, results: seq<(string, string)>, errors: seq<ErrorDetail>, flow: seq<Interaction>)
    | CallsRaised(error: string, flow: seq<Interaction>)

  /** The state before the first model call. */
  function Start(query: string): LoopState {
    LoopState([UserMessage(query)], [], [], "", None)
  }

  /** The returned dict: `"error"` is present exactly when `error_info` is set. */
  function Respond(st: LoopState): QueryResponse {
    QueryResponse(st.names, st.flow, st.answer, st.errorInfo)
  }

  function Request(p: Params, messages: seq<Message>): LlmRequest {
    LlmRequest(messages, p.tools, p.toolChoice, p.parallelToolCalls)
  }

  /** `any(item.type == "function_call" for item in output)` */
  predicate HasFunctionCall(output: seq<OutputItem>) {
    exists i :: 0 <= i < |output| && output[i].FunctionCallItem?
  }

  /** The `function_call` items of an output, in order. */
  function RequestedCalls(output: seq<OutputItem>): (calls: seq<FunctionCall>)
    decreases |output|
  {
    if output == [] then []
    else
      var last := output[|output| - 1];
      RequestedCalls(output[..|output| - 1]) + if last.FunctionCallItem? then [last.call] else []
  }

  function AsItems(calls: seq<FunctionCall>): (items: seq<OutputItem>)
    ensures |items| == |calls| && forall i :: 0 <= i < |calls| ==> items[i] == FunctionCallItem(calls[i])
  {
    seq(|calls|, i requires 0 <= i < |calls| => FunctionCallItem(calls[i]))
  }

  function AsMessages(calls: seq<FunctionCall>): (ms: seq<Message>)
    ensures |ms| == |calls| && forall i :: 0 <= i < |calls| ==> ms[i] == ModelCall(calls[i])
  {
    seq(|calls|, i requires 0 <= i < |calls| => ModelCall(calls[i]))
  }

  /** The `function_call_output` messages for `(call_id, result)` pairs. */
  function Outputs(results: seq<(string, string)>): (ms: seq<Message>)
    ensures |ms| == |results|
    ensures forall i :: 0 <= i < |results| ==> ms[i] == FunctionCallOutput(results[i].0, results[i].1)
  {
    seq(|results|, i requires 0 <= i < |results| => FunctionCallOutput(results[i].0, results[i].1))
  }

  function ErrorEntries(errors: seq<ErrorDetail>): (entries: seq<Interaction>)
    ensures |entries| == |errors| && forall i :: 0 <= i < |errors| ==> entries[i] == ErrorEntry(errors[i])
  {
    seq(|errors|, i requires 0 <= i < |errors| => ErrorEntry(errors[i]))
  }

  /** The result a raising tool is given: `{"error": str(e)}`. */
  function ErrorPayload(e: string): Json {
    Obj([("error", Str(e))])
  }

  /** What a call's `tool_result` ends as: `_run_tool`'s value, or `{"error": str(e)}` when the tool raised. */
  function ResultOf(reg: Registry, name: string, args: Json): Json {
    var outcome := Dispatch(reg, name, args);
    if outcome.Ok? then outcome.value else ErrorPayload(outcome.error)
  }

  /** The text of the `output_text` parts of one message item, each followed by a newline. */
  function ContentText(parts: seq<Content>): string
    decreases |parts|
  {
    if parts == [] then ""
    else
      ContentText(parts[..|parts| - 1]) +
      match parts[|parts| - 1]
      case OutputText(t) => t + "\n"
      case Refusal(_) => ""
  }

  /** `process_openai_message_response`: the text of every message item, in output order. */
  function MessageText(output: seq<OutputItem>): string
    decreases |output|
  {
    if output == [] then ""
    else
      MessageText(output[..|output| - 1]) +
      match output[|output| - 1]
      case MessageItem(parts) => ContentText(parts)
      case FunctionCallItem(_) => ""
  }

  /** One iteration of the loop of `process_openai_function_call_response`. */
  function CallStep(reg: Registry, env: Env, prior: CallsOutcome, item: OutputItem): CallsOutcome
    requires prior.CallsDone?
  {
    match item
    case MessageItem(_) => CallsRaised(NoNameAttribute, prior.flow)
    case FunctionCallItem(c) =>
      match env.decode(c.arguments)
      case Err(e) => CallsRaised(e, prior.flow)
      case Ok(args) =>
        var outcome := Dispatch(reg, c.name, args);
        var result := ResultOf(reg, c.name, args);
        // the tool has run; recording it as a ToolCall validates `args` as a dict
        if !args.Obj? then CallsRaised(env.rejectArgs(args), prior.flow)
        else
          CallsDone(
            prior.names + [c.name],
            prior.results + [(c.callId, env.show(result))],
            prior.errors + (if outcome.Err? then [ToolFailure(outcome.error, c.name, args)] else []),
            prior.flow + [ToolCallEntry(c.name, args, result)])
  }

  /** `process_openai_function_call_response(items, flow)`; the flow list is extended in place. */
  function Calls(reg: Registry, env: Env, items: seq<OutputItem>, flow: seq<Interaction>): CallsOutcome
    decreases |items|
  {
    if items == [] then CallsDone([], [], [], flow)
    else
      var prior := Calls(reg, env, items[..|items| - 1], flow);
      if prior.CallsRaised? then prior else CallStep(reg, env, prior, items[|items| - 1])
  }

  /**
    The tool half of a turn: the requested calls join the history, the
    calls are processed, their outputs join the history, tool errors are
    logged after the turn's tool calls, and the first tool error of the
    query sets `error_info`. A raise ends the query. The boolean says
    whether the model is called again.
  */
  function ToolTurn(reg: Registry, env: Env, st: LoopState, requested: seq<FunctionCall>, processed: seq<OutputItem>): (LoopState, bool) {
    var messages := st.messages + AsMessages(requested);
    match Calls(reg, env, processed, st.flow)
    case CallsRaised(e, f) =>
      (LoopState(messages, f + [ErrorEntry(SourcedError(e, "tool_call_processing"))], st.names, "Tool call error: " + e, Some(e)), false)
    case CallsDone(ns, rs, es, f) =>
      var first := es != [] && st.errorInfo.None?;
      (LoopState(
         messages + Outputs(rs),
         f + ErrorEntries(es),
         st.names + ns,
         if first then "Tool call error: " + es[0].error else st.answer,
         if first then Some(es[0].error) else st.errorInfo),
       true)
  }

  /** One iteration of the `while need_query_openai` loop, given the gateway's reply. */
  function Turn(reg: Registry, env: Env, p: Params, st: LoopState, reply: Reply): (LoopState, bool) {
    match reply
    case GatewayFailed(e) =>
      (st.(flow := st.flow + [ErrorEntry(SourcedError(e, "openai_api"))], answer := "OpenAI API error: " + e, errorInfo := Some(e)), false)
    case Responded(output) =>
      var called := st.(flow := st.flow + [LlmApiCall(Model, Request(p, st.messages), output)]);
      if HasFunctionCall(output) then ToolTurn(reg, env, called, RequestedCalls(output), output)
      else (called.(answer := MessageText(output)), false)
  }

  /** `process_query`, consuming one scripted reply per model call. */
  function Run(reg: Registry, env: Env, p: Params, script: seq<Reply>, st: LoopState): Outcome
    decreases |script|
  {
    if script == [] then ScriptExhausted(st)
    else
      var (next, more) := Turn(reg, env, p, st, script[0]);
      if more then Run(reg, env, p, script[1..], next) else Finished(Respond(next))
  }
}
