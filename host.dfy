/**
  Class `Host` of `host.py`: the registry fields it updates in place and
  the methods that fill and use them. Each method is proved to compute
  exactly the function of module Routing, Engine or Streaming that
  specifies it; the properties of those functions are proved there.
*/
module Host {
  import opened Wrappers
  import opened Json
  import opened Messages
  import opened Routing
  import opened Engine
  import opened EngineProperties
  import opened Streaming

  class Host {
    /** `self.clients`: server name to connected backend. */
    var clients: map<string, Backend>
    /** `self.tool_to_client`: tool name to server name. */
    var toolToClient: map<string, string>
    /** `self.tools`: tool name to advertised descriptor, in insertion order. */
    var tools: seq<(string, Json)>

    /** The registry the fields hold. */
    function State(): Registry
      reads this
    {
      Registry(clients, toolToClient, tools)
    }

    /** `Host()`: no backends, no tools. */
    constructor()
      ensures State() == Empty
    {
      clients := map[];
      toolToClient := map[];
      tools := [];
    }

    /**
      `add_client_stdio` / `add_client_streamablehttp` once the backend is
      connected: the backend is stored under the server name, then every
      advertised tool with a truthy name is routed to it and recorded.
    */
    method AddClient(serverName: string, backend: Backend)
      requires forall i :: 0 <= i < |backend.advertised| ==> Advertisable(backend.advertised[i])
      modifies this
      ensures State() == Register(old(State()), serverName, backend)
    {
      clients := clients[serverName := backend];
      var start := State();
      var list := backend.advertised;
      for i := 0 to |list|
        invariant State() == RegisterAll(start, serverName, list[..i])
      {
        var tool := list[i];
        var toolName := Get(tool.fields, "name");
        if toolName.Some? && Truthy(toolName.value) {
          toolToClient := toolToClient[toolName.value.s := serverName];
          tools := Put(tools, toolName.value.s, tool);
        }
        assert list[..i + 1][..i] == list[..i];
      }
      assert list[..|list|] == list;
    }

    /** `add_stdio_clients_from_config`, with the configuration already read into (server name, backend) pairs. */
    method AddClientsFromConfig(servers: seq<(string, Backend)>)
      requires forall s, i :: 0 <= s < |servers| && 0 <= i < |servers[s].1.advertised| ==> Advertisable(servers[s].1.advertised[i])
      modifies this
      ensures State() == RegisterEach(old(State()), servers)
    {
      for s := 0 to |servers|
        invariant State() == RegisterEach(old(State()), servers[..s])
      {
        AddClient(servers[s].0, servers[s].1);
        assert servers[..s + 1][..s] == servers[..s];
      }
      assert servers[..|servers|] == servers;
    }

    /**
      `_run_tool(name, args)` as the host runs it, on its own registry;
      `Dispatch` is the same lookup as a function of a registry value, for
      use in contracts and in the pure model of the query loops.
    */
    method RunTool(name: string, args: Json) returns (r: Result<Json, string>)
      ensures r == Dispatch(State(), name, args)
    {
      if name !in toolToClient || toolToClient[name] == "" || toolToClient[name] !in clients {
        return Ok(NotRegistered(name));
      }
      var client := clients[toolToClient[name]];
      r := client.execute(name, args);
    }

    /**
      `process_openai_function_call_response(items, flow)`: each call is
      decoded, run, recorded in the flow and answered; a raise ends the loop
      with the flow as far as it got.
    */
    method ProcessFunctionCalls(items: seq<OutputItem>, flow: seq<Interaction>, env: Env) returns (outcome: CallsOutcome)
      ensures outcome == Calls(State(), env, items, flow)
    {
      var names: seq<string> := [];
      var results: seq<(string, string)> := [];
      var errors: seq<ErrorDetail> := [];
      var f := flow;
      for i := 0 to |items|
        invariant Calls(State(), env, items[..i], flow) == CallsDone(names, results, errors, f)
      {
        assert items[..i + 1][..i] == items[..i];
        var item := items[i];
        if item.MessageItem? {
          CallsRaisedSticks(State(), env, items, i + 1, flow);
          return CallsRaised(NoNameAttribute, f);
        }
        var call := item.call;
        var decoded := env.decode(call.arguments);
        if decoded.Err? {
          CallsRaisedSticks(State(), env, items, i + 1, flow);
          return CallsRaised(decoded.error, f);
        }
        var args := decoded.value;
        var run := RunTool(call.name, args);
        var result := if run.Ok? then run.value else ErrorPayload(run.error);
        if !args.Obj? {
          CallsRaisedSticks(State(), env, items, i + 1, flow);
          return CallsRaised(env.rejectArgs(args), f);
        }
        names := names + [call.name];
        f := f + [ToolCallEntry(call.name, args, result)];
        results := results + [(call.callId, env.show(result))];
        if run.Err? {
          errors := errors + [ToolFailure(run.error, call.name, args)];
        }
      }
      assert items[..|items|] == items;
      outcome := CallsDone(names, results, errors, f);
    }

    /** `process_openai_message_response`: the `output_text` parts of the message items, each with a newline. */
    static method ProcessMessageResponse(output: seq<OutputItem>) returns (text: string)
      ensures text == MessageText(output)
    {
      text := "";
      for i := 0 to |output|
        invariant text == MessageText(output[..i])
      {
        assert output[..i + 1][..i] == output[..i];
        var item := output[i];
        if item.MessageItem? {
          var before := text;
          for j := 0 to |item.content|
            invariant text == before + ContentText(item.content[..j])
          {
            assert item.content[..j + 1][..j] == item.content[..j];
            var part := item.content[j];
            if part.OutputText? {
              text := text + part.text + "\n";
            }
          }
          assert item.content[..|item.content|] == item.content;
        }
      }
      assert output[..|output|] == output;
    }

    /**
      The tool half of an iteration, shared by both loops: record the
      requested calls, process them, add their outputs, log the tool errors
      after the calls, and let the first tool error set `error_info`; a
      raise logs a `tool_call_processing` error and ends the loop.
    */
    method RunToolTurn(st: LoopState, requested: seq<FunctionCall>, processed: seq<OutputItem>, env: Env)
      returns (next: LoopState, more: bool)
      ensures (next, more) == ToolTurn(State(), env, st, requested, processed)
    {
      var messages := st.messages + AsMessages(requested);
      var outcome := ProcessFunctionCalls(processed, st.flow, env);
      match outcome
      case CallsRaised(e, f) =>
        next := LoopState(messages, f + [ErrorEntry(SourcedError(e, "tool_call_processing"))], st.names, "Tool call error: " + e, Some(e));
        more := false;
      case CallsDone(ns, rs, es, f) =>
        var flow := f;
        for j := 0 to |es|
          invariant flow == f + ErrorEntries(es[..j])
        {
          assert ErrorEntries(es[..j + 1]) == ErrorEntries(es[..j]) + [ErrorEntry(es[j])];
          flow := flow + [ErrorEntry(es[j])];
        }
        assert es[..|es|] == es;
        next := LoopState(messages + Outputs(rs), flow, st.names + ns, st.answer, st.errorInfo);
        if es != [] && st.errorInfo.None? {
          next := next.(answer := "Tool call error: " + es[0].error, errorInfo := Some(es[0].error));
        }
        more := true;
    }

    /** One iteration of the loop of `process_query`, given the gateway's reply. */
    method QueryTurn(st: LoopState, p: Params, reply: Reply, env: Env) returns (next: LoopState, more: bool)
      ensures (next, more) == Turn(State(), env, p, st, reply)
    {
      match reply
      case GatewayFailed(e) =>
        next := st.(flow := st.flow + [ErrorEntry(SourcedError(e, "openai_api"))], answer := "OpenAI API error: " + e, errorInfo := Some(e));
        more := false;
      case Responded(output) =>
        var called := st.(flow := st.flow + [LlmApiCall(Model, Request(p, st.messages), output)]);
        if HasFunctionCall(output) {
          next, more := RunToolTurn(called, RequestedCalls(output), output, env);
        } else {
          var text := ProcessMessageResponse(output);
          next, more := called.(answer := text), false;
        }
    }

    /**
      `process_query(query, tool_choice, parallel_tool_calls)` with the
      gateway's replies given as a script: the loop calls the model while
      the latest reply requested a function call.
    */
    method ProcessQuery(query: string, toolChoice: Option<Json>, parallelToolCalls: bool, script: seq<Reply>, env: Env)
      returns (outcome: Outcome)
      ensures outcome == Run(State(), env, Params(Values(tools), toolChoice, parallelToolCalls), script, Start(query))
    {
      var p := Params(Values(tools), toolChoice, parallelToolCalls);
      var st := Start(query);
      var need := true;
      var k := 0;
      while need
        invariant 0 <= k <= |script|
        invariant Run(State(), env, p, script, Start(query)) ==
          if need then Run(State(), env, p, script[k..], st) else Finished(Respond(st))
        decreases |script| - k + (if need then 1 else 0)
      {
        if k == |script| {
          return ScriptExhausted(st);
        }
        assert script[k..][1..] == script[k + 1..];
        st, need := QueryTurn(st, p, script[k], env);
        k := k + 1;
      }
      outcome := Finished(Respond(st));
    }

    /** The `async for event` loop of one model call of the streaming variant. */
    static method ConsumeStream(events: seq<StreamEvent>) returns (acc: Acc)
      ensures acc == Accumulate(events)
    {
      var slots: seq<(int, FunctionCall)> := [];
      var completed: Option<seq<OutputItem>> := None;
      var frames: seq<Frame> := [];
      for j := 0 to |events|
        invariant Acc(slots, completed, frames) == Accumulate(events[..j])
      {
        assert events[..j + 1][..j] == events[..j];
        var ev := events[j];
        frames := frames + [EventFrame(ev)];
        match ev
        case OutputItemAdded(i, item) =>
          if item.FunctionCallItem? {
            slots := Put(slots, i, item.call);
          }
        case ArgumentsDelta(i, d) =>
          if HasKey(slots, i) {
            var c := Get(slots, i).value;
            slots := Put(slots, i, c.(arguments := c.arguments + d));
          } else {
            frames := frames + [EventErrorFrame(i)];
          }
        case Completed(output) =>
          completed := Some(output);
        case OtherEvent(_) =>
      }
      assert events[..|events|] == events;
      acc := Acc(slots, completed, frames);
    }

    /** One iteration of the streaming loop: consume the stream, log the model call, then the tool turn or the answer. */
    method StreamTurnStep(st: LoopState, p: Params, events: seq<StreamEvent>, env: Env)
      returns (acc: Acc, next: LoopState, more: bool)
      requires HasCompleted(events)
      ensures acc == Accumulate(events) && acc.completed.Some?
      ensures (next, more) == StreamTurn(State(), env, p, st, acc)
    {
      acc := ConsumeStream(events);
      CompletedRecorded(events);
      var called := st.(flow := st.flow + [LlmApiCall(Model, Request(p, st.messages), acc.completed.value)]);
      if |acc.slots| > 0 {
        var calls := Values(acc.slots);
        next, more := RunToolTurn(called, calls, AsItems(calls), env);
      } else {
        var text := ProcessMessageResponse(acc.completed.value);
        next, more := called.(answer := text), false;
      }
    }

    /**
      `process_query_stream_function_calling` with one scripted event
      stream per model call: the frames yielded, ending with the
      `full_flow` frame when the loop ends.
    */
    method ProcessQueryStream(query: string, toolChoice: Option<Json>, parallelToolCalls: bool, turns: seq<seq<StreamEvent>>, env: Env)
      returns (frames: seq<Frame>, outcome: Outcome)
      requires forall t :: 0 <= t < |turns| ==> HasCompleted(turns[t])
      ensures StreamRun(frames, outcome) == RunStream(State(), env, Params(Values(tools), toolChoice, parallelToolCalls), turns, Start(query))
    {
      var p := Params(Values(tools), toolChoice, parallelToolCalls);
      var st := Start(query);
      var need := true;
      var rest := turns;
      frames := [];
      while need
        invariant forall t :: 0 <= t < |rest| ==> HasCompleted(rest[t])
        invariant Continue([], RunStream(State(), env, p, turns, Start(query))) ==
          if need then Continue(frames, RunStream(State(), env, p, rest, st)) else Done(frames, st)
        decreases |rest| + (if need then 1 else 0)
      {
        if rest == [] {
          assert frames + [] == frames;
          return frames, ScriptExhausted(st);
        }
        var acc, next, more := StreamTurnStep(st, p, rest[0], env);
        ContinueStep(State(), env, p, rest, st, frames, acc, next, more);
        frames := frames + acc.frames;
        st, need, rest := next, more, rest[1..];
      }
      assert [] + RunStream(State(), env, p, turns, Start(query)).frames == RunStream(State(), env, p, turns, Start(query)).frames;
      frames := frames + [FullFlowFrame(Respond(st))];
      outcome := Finished(Respond(st));
    }
  }
}
