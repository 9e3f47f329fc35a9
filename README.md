# MCP host: tool routing, the query loop, streaming accumulation, tool converters

This project models the core of an MCP host written in Python. The host
connects to several MCP servers. It records which server owns each
advertised tool. It answers a user query by calling an OpenAI-style model
in a loop, forwarding every function call the model requests to the server
that owns the tool. The model is called again until it answers in text.
Every step is logged in a `flow` of interactions. A separate streaming
variant relays the model's event stream and rebuilds function calls from
argument deltas. Two converters turn server tool descriptors into the tool
formats of OpenAI and of Claude.

Modules:

- `Wrappers`: `Option`, `Result`.
- `Json`: JSON values. A Python dict is modelled as a list of
  `(key, value)` pairs that keeps insertion order. `Get` reads the first
  match. `Put` replaces the value in place or appends the pair.
- `Messages`: the model's output items, the conversation messages, the
  `flow` interactions, the query result, and the stream events and frames.
- `Routing`: the registry (`clients`, `tool_to_client`, `tools`) as a
  value, how registration changes it, and `_run_tool` dispatch.
- `Engine`: `process_query` as pure functions. The model's replies are a
  finite script. `Calls` models `process_openai_function_call_response`,
  `ToolTurn` the tool half of an iteration, `Turn` one iteration and `Run`
  the loop.
- `EngineProperties`: what the loop guarantees. Every requested call is
  answered before the model is called again. An `"error"` key appears
  exactly when the flow logged an error. Tool calls are never logged after
  an error of the same iteration.
- `Streaming`: the per-event accumulation of
  `process_query_stream_function_calling`, the streaming loop, and the
  frames it yields, with reference definitions and the lemmas that connect
  the two.
- `OpenAIConverter`, `ClaudeConverter`: the two `convert_tools`.
- `Host`: `class Host`, with the three registry fields updated in place.
  Its methods are loops proved equal to the functions above.

## Model

| member | source | states |
|---|---|---|
| Host.Host.constructor | host.py:16-20 | a new host has no clients, no routes and no tools |
| Host.Host.AddClient | host.py:145-161 | the backend is stored under the server name; then every advertised tool with a truthy name is routed to that server and stored in `tools` (the loop is proved equal to `Register`) |
| Host.Host.AddClientsFromConfig | host.py:181-196 | the configured servers are added one after another, in configuration order |
| Host.Host.RunTool | host.py:305-310 | the result is `_run_tool`'s: the owning backend's answer, or the not-registered marker |
| Host.Host.ProcessFunctionCalls | host.py:267-300 | the loop over the output items computes `Calls`: names, results, errors and flow entries in call order; a raise stops the loop with the flow as far as it got |
| Host.Host.ProcessMessageResponse | host.py:314-325 | the answer is the text of every `output_text` part of every message item, each followed by a newline, in order |
| Host.Host.RunToolTurn | host.py:229-254 | one tool half of an iteration, including the error-logging loop, equals `ToolTurn` |
| Host.Host.QueryTurn | host.py:211-254 | one iteration of `process_query`, given the gateway's reply, equals `Turn` |
| Host.Host.ProcessQuery | host.py:199-264 | the whole query loop equals `Run` over the tools in insertion order and the scripted replies |
| Host.Host.ConsumeStream | host.py:40-64 | the event loop of one streamed model call equals `Accumulate` |
| Host.Host.StreamTurnStep | host.py:40-96 | one streamed model call: the event loop gives `Accumulate` of its events with the final response recorded, and the rest of the iteration equals `StreamTurn` |
| Host.Host.ProcessQueryStream | host.py:24-107 | the frames yielded and the final result equal `RunStream` |
| Routing.Dispatch | host.py:305-310 | an unknown name, or an owner that is empty or not connected, gives the marker `Tool '<name>' not registered`; only a call that reaches a backend can raise |
| Routing.RegisterAllLastWins | host.py:157-161 | after the tool loop, a name some tool carries is routed to the registering server and reads the last such tool; every other name reads as before; the clients are untouched |
| Routing.RegisterAllKeepsOrder | host.py:157-161 | registration never removes a tool name, and names already registered keep their place in `tools` |
| Routing.RegisterAllNameless | host.py:158-159 | tools with no truthy name change nothing |
| Routing.DispatchAfterRegister | host.py:155-161 | after a backend is added, a call to a tool it advertises reaches that backend |
| Routing.DispatchAfterOtherRegister | host.py:155-161 | after a backend is added, a call to any other tool is routed as before, except that tools the same server name owned now reach the new backend |
| Routing.SecondRegistrationWins | host.py:159-161 | when two servers advertise `ping`, the server added second receives the calls |
| Routing.RegisterEachConnects | host.py:186-196 | after a configuration is loaded, the connected servers are those connected before plus exactly the configured ones |
| EngineProperties.MessageTextAppend | host.py:319-325 | the answer text of concatenated outputs is the concatenation of their texts |
| EngineProperties.MessageTextEmpty | host.py:320-325 | an output with no `output_text` part gives the empty answer |
| EngineProperties.CallsDoneShape | host.py:279-300 | when processing completes, every item was a function call whose arguments parsed to an object, and each one gave, in order, its name, the pair `(call_id, str(result))` and the `tool_call` entry `(name, args, result)`, where the result is `_run_tool`'s value or `{"error": str(e)}` when the tool raised; the given flow is untouched and the errors are exactly those of the calls whose tool raised |
| EngineProperties.CallsDoneAt | host.py:281-296 | item `i` of a completed loop was a function call with object arguments; it gave the `i`-th name, the `i`-th pair `(call_id, str(result))` and the `i`-th new `tool_call` entry `(name, args, result)` |
| EngineProperties.CallStepDone | host.py:281-298 | an iteration that does not raise handled a function call with object arguments and appended its name, `(call_id, str(result))`, the `tool_call` entry `(name, args, result)`, and its error dict when its tool raised |
| EngineProperties.CallStepDoneIff | host.py:281-296 | an iteration over a completed prefix completes exactly when its item is a function call whose arguments parse to an object, whatever the tool does |
| EngineProperties.CallsDoneIff | host.py:279-300 | the call loop completes exactly when every item is a function call whose arguments parse to an object: a raising tool is reported and the loop goes on |
| EngineProperties.CallsRaisedShape | host.py:279-300 | when processing raises, the flow keeps its prefix and gains only `tool_call` entries, fewer than the items |
| EngineProperties.CallsRaisedSticks | host.py:279-300 | once a prefix of the items raises, the later items change nothing |
| EngineProperties.CallsRaiseOnMessage | host.py:279-282 | a reply that mixes a message with a function call makes processing raise (a message item has no `name`) |
| EngineProperties.RequestedCallsAll | host.py:231 | when every item is a function call, the calls recorded in the history are exactly those items' calls, in order |
| EngineProperties.ToolTurnAnswers | host.py:231-238 | after a completed tool turn, every function call in the history has a later output with its call id |
| EngineProperties.ResultsAnswerCalls | host.py:231-238 | a completed loop returns one result per call added to the history, in the same order, each with that call's id |
| EngineProperties.HistoryAnswered | host.py:231-238 | adding the calls and then one output per call with the same id keeps every call of the history answered |
| EngineProperties.ToolTurnDone | host.py:232-245 | a completed tool turn appends the call loop's `tool_call` entries, then one error entry per tool error, and adds the called names; the first tool error sets the answer to `Tool call error: <e>` and `error_info` only when no error was set before, otherwise both stay |
| EngineProperties.ToolTurnMessages | host.py:231-238 | the history gains the calls, then the outputs, position by position, each output carrying its call's id |
| EngineProperties.ContinuingTurn | host.py:209-245 | an iteration continues the loop only after a reply with a function call whose processing completed |
| EngineProperties.TurnContinuesIff | host.py:209-254 | an iteration continues exactly when the reply has a function call and its processing does not raise |
| EngineProperties.MixedReplyEndsQuery | host.py:249-254 | a mixed reply ends the query with an error and a final `tool_call_processing` error entry |
| EngineProperties.CalledCoherent | host.py:218-219 | logging a model call that was sent an answered history keeps the flow coherent |
| EngineProperties.ErrorAppendedCoherent | host.py:221-254 | logging an error keeps the flow ordered, and the result then carries an error |
| EngineProperties.ToolEntriesCoherent | host.py:232-245 | tool-call entries after a model call, followed by error entries, keep the flow coherent; an error is set exactly when one was logged |
| EngineProperties.ToolTurnCoherent | host.py:227-254 | a tool turn keeps the flow coherent and, when the loop continues, leaves every call in the history answered |
| EngineProperties.ToolTurnDoneCoherent | host.py:229-245 | a completed tool turn keeps the flow coherent, only appends to it, and leaves every call in the history answered |
| EngineProperties.ToolTurnRaisedCoherent | host.py:249-254 | a raising tool turn ends the loop with a coherent flow that only grew |
| EngineProperties.TurnCoherent | host.py:209-254 | one iteration keeps the loop invariant: the flow only grows and stays coherent, and the next model call sees an answered history |
| EngineProperties.RunCoherent | host.py:209-254 | the loop keeps the invariant to its end |
| EngineProperties.QueryCoherent | host.py:199-264 | a finished query returns an `"error"` key exactly when its flow logged an error; no tool call follows an error of the same iteration; every model call was sent a history in which each requested call had its output |
| EngineProperties.NoCallReplyEndsQuery | host.py:209-248 | a first reply without function calls ends the query after one model call, answering with the reply's text, no tools and no error |
| EngineProperties.GatewayFailureEndsQuery | host.py:221-225 | a failed model call ends the query with one `openai_api` error entry and the answer `OpenAI API error: <e>` |
| EngineProperties.WeatherCalls | host.py:279-300 | processing the single weather call gives its name, its result under `call_1`, no error and one `tool_call` entry |
| EngineProperties.WeatherFirstTurn | host.py:209-245 | the first iteration of the worked query logs the model call and the tool call, answers the call in the history, and continues |
| EngineProperties.WeatherSecondTurn | host.py:209-248 | the second iteration logs the model call, takes the reply's text as the answer, and stops |
| EngineProperties.WeatherQuery | host.py:199-264 | a worked query: a tool call and then a text answer give one tool name, the text, no error, a three-entry flow, and a second model call that saw the call and its output |
| Streaming.LastAdd | host.py:53-55 | the last `output_item.added` event announcing a function call at an index, if any |
| Streaming.IngestEchoes | host.py:49-64 | handling one event yields its echo and, exactly when it is a delta for an index that has no slot yet (the `KeyError`), one error frame for that index; nothing else |
| Streaming.EveryEventEchoed | host.py:43-64 | every event of a stream is echoed once and in order; there is one error frame for each delta whose index was not announced, in order; nothing else is yielded |
| Streaming.SlotExists | host.py:53-55 | an index has an accumulated call exactly when a function call was announced there |
| Streaming.SlotOrder | host.py:53-74 | the accumulated calls are keyed by the announced output indices, each once, in order of first announcement, which is the order the tool turn runs them in |
| Streaming.SlotsFollowAdds | host.py:49-59 | the call accumulated at an index is the last one announced there, with every later delta for that index appended to its arguments in order |
| Streaming.AnnouncedCallJoined | host.py:53-59 | a call announced and then streamed in pieces ends with its arguments followed by the pieces joined in order |
| Streaming.CompletedRecorded | host.py:60-61 | the final response is recorded exactly when the stream has a `response.completed` event |
| Streaming.OneFinalFrame | host.py:40-107 | a finished streamed query yields exactly one `full_flow` frame, and it is the last one |
| Streaming.NoFinalFrameInStream | host.py:49-64 | the event loop never yields a `full_flow` frame |
| Streaming.StreamTurnCoherent | host.py:65-96 | one streamed iteration keeps the loop invariant |
| Streaming.RunStreamCoherent | host.py:40-96 | the streaming loop keeps the invariant to its end |
| Streaming.StreamQueryCoherent | host.py:24-107 | a finished streamed query has the same guarantees as `process_query`: an error exactly when one was logged, ordered entries, answered calls |
| OpenAIConverter.PropertiesIn | converter/openai_converter.py:23 | the properties the converter iterates are name/dict pairs |
| OpenAIConverter.PropertyFields | converter/openai_converter.py:24-31 | a converted property has `type`, defaulting to `"string"`, and the `description` when present, else the `title` when present; never both, and no other key |
| OpenAIConverter.ParametersFields | converter/openai_converter.py:15-32 | parameters have exactly the keys `type` (default `"object"`), `properties`, `required` (default `[]`) and `additionalProperties` (always false), with the converted properties |
| OpenAIConverter.ConvertToolFields | converter/openai_converter.py:10-21 | a converted tool has exactly `type: "function"`, the name, the description or `""`, `strict: true` and the parameters, in that order |
| OpenAIConverter.EntryFields | converter/openai_converter.py:10-21 | the values of a converted tool's keys |
| OpenAIConverter.ConvertTools | converter/openai_converter.py:3-36 | one converted tool per input tool, in order |
| OpenAIConverter.BuildEntry | converter/openai_converter.py:10-32 | the dict built in place for one tool is its conversion |
| OpenAIConverter.WriteProperties | converter/openai_converter.py:23-32 | the property loop writing into the `properties` dict gives the converted properties |
| OpenAIConverter.PropertiesOfUnique | converter/openai_converter.py:23-32 | converted properties have distinct names |
| OpenAIConverter.PropertiesOfKeys | converter/openai_converter.py:23-32 | the converted properties keep the input's names in order, each mapped to its own converted schema |
| OpenAIConverter.ConvertPropertyIdempotent | converter/openai_converter.py:24-31 | a converted property is already in converted form |
| OpenAIConverter.PropertiesOfConverted | converter/openai_converter.py:23-32 | every converted property is in converted form |
| OpenAIConverter.PropertiesOfFixed | converter/openai_converter.py:23-32 | converting properties already in converted form changes nothing |
| OpenAIConverter.ParametersIdempotent | converter/openai_converter.py:15-32 | converting the parameters of a converted tool again gives them back |
| ClaudeConverter.ConvertTools | converter/claude_converter.py:3-15 | one converted dict per tool, in order, by the corrected fallback; for every tool that answers `.get` each dict is exactly the code's conversion |
| ClaudeConverter.ConvertOne | converter/claude_converter.py:10-14 | the dict literal built for one tool is its conversion with the lazy fallback |
| ClaudeConverter.ConvertToolFields | converter/claude_converter.py:10-14 | a converted tool has exactly `name`, `description`, `input_schema`, each read from the attribute, else the dict key, else `None` |
| ClaudeConverter.ConvertIdempotent | converter/claude_converter.py:10-14 | converting a converted dict again gives it back |
| ClaudeConverter.IntendedAgrees | converter/claude_converter.py:11-13 | the corrected, lazy fallback agrees with the code wherever the code is defined |
| ClaudeConverter.McpToolObjectRejected | converter/claude_converter.py:11-13 | an MCP tool object has no `.get`, so the code as written fails on it; the corrected conversion reads its three attributes |

## Left out

- The network, the MCP transports, the OpenAI client, `asyncio`, logging and cleanup are left out. A connected server is a `Backend`: its advertised tool list and a function from a call to its result or error. The model is a script of replies, or of event streams when streaming.
- `json.loads`, `str()` of a tool result and the validation message of a non-dict `tool_args` are parameters (`Env.decode`, `Env.show`, `Env.rejectArgs`), not definitions.
- `_serialize_event`, `json.dumps` and the SSE text of each yielded frame are not modelled. A frame is the event itself, the failing index, or the final result.
- The query loop has no iteration cap, so a model that keeps calling tools never ends it. The model ends with `ScriptExhausted` when the script runs out.
- Host.Host.ProcessQueryStream: requires every streamed call to contain a `response.completed` event. The code reads `final_openai_response.output` without a check and would raise otherwise. A gateway failure while streaming is also uncaught there and is not modelled.
- Host.Host.AddClient: requires every advertised tool to be a dict whose `"name"`, when truthy, is a string (`Advertisable`). A non-dict tool makes `tool.get` raise, and that is not modelled. A truthy non-string name such as `5` would be registered as a key by the code, and an unhashable one such as a list would raise `TypeError`; neither is modelled, because tool names are strings here.
- `error_info` is modelled as its `"error"` string. Only that key and its truthiness are read.
- Output items other than messages and function calls are not modelled, nor content parts other than `output_text`.
- Numbers in JSON are integers only. Floats are not modelled.
- The in-place update of the shared argument string of a streamed call (`final_tool_calls[index].arguments += delta`) is modelled on values, so aliasing between the accumulated call and the echoed event is not captured.
- OpenAIConverter.ConvertTools: requires each `inputSchema` and each property schema to be a dict (`Shaped`). Anything else makes `.get` or `.items()` raise, and that is not modelled.
- ClaudeConverter.ConvertTools: uses the corrected fallback (see Findings). For a tool with no `.get` it converts the attributes, where the code as written raises.
- `client.py`, `config_file_parser.py`, `main.py` and the example scripts are not part of this model. `AddClientsFromConfig` takes the configuration already read into `(server name, backend)` pairs.

## Findings

| source | as written | input that shows it | evidently intended | confidence | as-written member | corrected member |
|---|---|---|---|---|---|---|
| converter/claude_converter.py:11-13 | the default `tool.get(key, None)` of each `getattr` is evaluated before `getattr` runs | an MCP `Tool` object with attributes `name`, `description` and `inputSchema` but no `.get` method: the call fails before any attribute is read | read the attribute and fall back to the dict key only when the attribute is missing and the tool is a mapping | not executed; medium (the attribute names `inputSchema` are those of MCP tool objects) | ClaudeConverter.McpToolObjectRejected | ClaudeConverter.IntendedAgrees |
