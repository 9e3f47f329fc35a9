/**
  What the conversation loop of `process_query` guarantees: the answer
  text, the shape of a tool turn (every requested call answered by its
  call id, in order, before the next model call), the order of the flow,
  the error policy, and the worked example of a weather query.
*/
module EngineProperties {
  import opened Wrappers
  import opened Json
  import opened Messages
  import opened Routing
  import opened Engine

  // ---------------------------------------------------------------- answer text

  /** The answer text of two output lists together is the text of each, in order. */
  lemma {:induction false} MessageTextAppend(a: seq<OutputItem>, b: seq<OutputItem>)
    ensures MessageText(a + b) == MessageText(a) + MessageText(b)
    decreases |b|
  {
    if b == [] {
      assert a + b == a;
    } else {
      assert (a + b)[..|a + b| - 1] == a + b[..|b| - 1];
      MessageTextAppend(a, b[..|b| - 1]);
    }
  }

  /** No `output_text` part anywhere: the answer is empty. */
  predicate NoOutputText(output: seq<OutputItem>) {
    forall i, j :: 0 <= i < |output| && output[i].MessageItem? && 0 <= j < |output[i].content| ==>
      !output[i].content[j].OutputText?
  }

  lemma {:induction false} ContentTextEmpty(parts: seq<Content>)
    requires forall j :: 0 <= j < |parts| ==> !parts[j].OutputText?
    ensures ContentText(parts) == ""
    decreases |parts|
  {
    if parts != [] {
      ContentTextEmpty(parts[..|parts| - 1]);
    }
  }

  lemma {:induction false} MessageTextEmpty(output: seq<OutputItem>)
    requires NoOutputText(output)
    ensures MessageText(output) == ""
    decreases |output|
  {
    if output != [] {
      var last := output[|output| - 1];
      MessageTextEmpty(output[..|output| - 1]);
      if last.MessageItem? {
        ContentTextEmpty(last.content);
      }
    }
  }

  // ---------------------------------------------------------------- tool calls

  /** The error dict a single item contributes: one when its tool raised, none otherwise. */
  function FailureOf(reg: Registry, env: Env, item: OutputItem): seq<ErrorDetail> {
    if item.FunctionCallItem? && env.decode(item.call.arguments).Ok? then
      var args := env.decode(item.call.arguments).value;
      match Dispatch(reg, item.call.name, args)
      case Err(e) => [ToolFailure(e, item.call.name, args)]
      case Ok(_) => []
    else []
  }

  /** The errors of a list of calls, collected front to back. */
  function Failures(reg: Registry, env: Env, items: seq<OutputItem>): seq<ErrorDetail>
    decreases |items|
  {
    if items == [] then [] else FailureOf(reg, env, items[0]) + Failures(reg, env, items[1..])
  }

  lemma {:induction false} FailuresSnoc(reg: Registry, env: Env, items: seq<OutputItem>, x: OutputItem)
    ensures Failures(reg, env, items + [x]) == Failures(reg, env, items) + FailureOf(reg, env, x)
    decreases |items|
  {
    if items != [] {
      assert (items + [x])[1..] == items[1..] + [x];
      FailuresSnoc(reg, env, items[1..], x);
    }
  }

  /** An item the call loop gets through: a `function_call` whose arguments parse to a JSON object. */
  predicate Processable(env: Env, item: OutputItem) {
    item.FunctionCallItem? && env.decode(item.call.arguments).Ok? && env.decode(item.call.arguments).value.Obj?
  }

  /** The parsed arguments of a processable item. */
  function ArgsOf(env: Env, item: OutputItem): Json
    requires Processable(env, item)
  {
    env.decode(item.call.arguments).value
  }

  /** The `(call_id, str(tool_result))` pair the loop returns for a processable item. */
  function ResultPair(reg: Registry, env: Env, item: OutputItem): (string, string)
    requires Processable(env, item)
  {
    (item.call.callId, env.show(ResultOf(reg, item.call.name, ArgsOf(env, item))))
  }

  /** The `tool_call` entry the loop logs for a processable item. */
  function CallEntry(reg: Registry, env: Env, item: OutputItem): Interaction
    requires Processable(env, item)
  {
    ToolCallEntry(item.call.name, ArgsOf(env, item), ResultOf(reg, item.call.name, ArgsOf(env, item)))
  }

  /**
    When the call loop completes, for n items it returned n names and n
    `(call_id, str(result))` pairs in item order, appended exactly n
    `tool_call` entries after the given flow, and returned one error dict per
    call whose tool raised; every result is the tool's value, or its error
    dict when it raised.
  */
  lemma CallsDoneShape(reg: Registry, env: Env, items: seq<OutputItem>, flow: seq<Interaction>)
    requires Calls(reg, env, items, flow).CallsDone?
    ensures var c := Calls(reg, env, items, flow);
      && |c.names| == |items| && |c.results| == |items|
      && |c.flow| == |flow| + |items| && c.flow[..|flow|] == flow
      && c.errors == Failures(reg, env, items)
      && (forall i :: 0 <= i < |items| ==>
           && Processable(env, items[i])
           && c.names[i] == items[i].call.name
           && c.results[i] == ResultPair(reg, env, items[i]))
      && (forall i :: |flow| <= i < |c.flow| ==>
           && Processable(env, items[i - |flow|])
           && c.flow[i] == CallEntry(reg, env, items[i - |flow|]))
  {
    CallsDoneCounts(reg, env, items, flow);
    forall i | 0 <= i < |items|
      ensures Processable(env, items[i])
      ensures Calls(reg, env, items, flow).names[i] == items[i].call.name
      ensures Calls(reg, env, items, flow).results[i] == ResultPair(reg, env, items[i])
    {
      CallsDoneAt(reg, env, items, flow, i);
    }
    forall i | |flow| <= i < |flow| + |items|
      ensures Processable(env, items[i - |flow|])
      ensures Calls(reg, env, items, flow).flow[i] == CallEntry(reg, env, items[i - |flow|])
    {
      CallsDoneEntryAt(reg, env, items, flow, i);
    }
  }

  /** The `tool_call` entry at flow position `k` of a completed loop, counted from the start of the flow. */
  lemma CallsDoneEntryAt(reg: Registry, env: Env, items: seq<OutputItem>, flow: seq<Interaction>, k: nat)
    requires Calls(reg, env, items, flow).CallsDone? && |flow| <= k < |flow| + |items|
    ensures Processable(env, items[k - |flow|])
    ensures k < |Calls(reg, env, items, flow).flow|
    ensures Calls(reg, env, items, flow).flow[k] == CallEntry(reg, env, items[k - |flow|])
  {
    CallsDoneAt(reg, env, items, flow, k - |flow|);
  }

  /** The counts and the untouched prefix of a completed call loop. */
  lemma {:induction false} CallsDoneCounts(reg: Registry, env: Env, items: seq<OutputItem>, flow: seq<Interaction>)
    requires Calls(reg, env, items, flow).CallsDone?
    ensures var c := Calls(reg, env, items, flow);
      && |c.names| == |items| && |c.results| == |items|
      && |c.flow| == |flow| + |items| && c.flow[..|flow|] == flow
      && c.errors == Failures(reg, env, items)
    decreases |items|
  {
    if items != [] {
      var init := items[..|items| - 1];
      var x := items[|items| - 1];
      CallsDoneCounts(reg, env, init, flow);
      CallStepDone(reg, env, Calls(reg, env, init, flow), x);
      FailuresSnoc(reg, env, init, x);
      assert init + [x] == items;
    }
  }

  /** What a completed call loop returned and logged for item `i`. */
  lemma {:induction false} CallsDoneAt(reg: Registry, env: Env, items: seq<OutputItem>, flow: seq<Interaction>, i: nat)
    requires Calls(reg, env, items, flow).CallsDone? && i < |items|
    ensures var c := Calls(reg, env, items, flow);
      && Processable(env, items[i])
      && i < |c.names| && c.names[i] == items[i].call.name
      && i < |c.results|
      && c.results[i] == ResultPair(reg, env, items[i])
      && |flow| + i < |c.flow| && c.flow[|flow| + i] == CallEntry(reg, env, items[i])
    decreases |items|
  {
    var init := items[..|items| - 1];
    var prior := Calls(reg, env, init, flow);
    CallsDoneCounts(reg, env, init, flow);
    CallStepDone(reg, env, prior, items[|items| - 1]);
    if i < |init| {
      CallsDoneAt(reg, env, init, flow, i);
      assert items[i] == init[i];
    }
  }

  /**
    A call-loop iteration that completes handled a `function_call` item whose
    arguments parse to an object, and appended its name, its
    `(call_id, str(result))` pair, its `tool_call` entry and, when its tool
    raised, its error dict.
  */
  lemma CallStepDone(reg: Registry, env: Env, prior: CallsOutcome, item: OutputItem)
    requires prior.CallsDone? && CallStep(reg, env, prior, item).CallsDone?
    ensures var c := CallStep(reg, env, prior, item);
      && Processable(env, item)
      && c.names == prior.names + [item.call.name]
      && c.results == prior.results + [ResultPair(reg, env, item)]
      && c.flow == prior.flow + [CallEntry(reg, env, item)]
      && c.errors == prior.errors + FailureOf(reg, env, item)
  {
  }

  /** A call-loop iteration completes exactly on a processable item, whatever its tool does. */
  lemma CallStepDoneIff(reg: Registry, env: Env, prior: CallsOutcome, item: OutputItem)
    requires prior.CallsDone?
    ensures CallStep(reg, env, prior, item).CallsDone? <==> Processable(env, item)
  {
  }

  /**
    The call loop completes exactly when every item is processable: a tool
    that raises is reported back and the loop goes on with the next call,
    while a non-call item or unparsable arguments abort it.
  */
  lemma {:induction false} CallsDoneIff(reg: Registry, env: Env, items: seq<OutputItem>, flow: seq<Interaction>)
    ensures Calls(reg, env, items, flow).CallsDone? <==> forall i :: 0 <= i < |items| ==> Processable(env, items[i])
    decreases |items|
  {
    if items != [] {
      var init := items[..|items| - 1];
      var last := items[|items| - 1];
      CallsDoneIff(reg, env, init, flow);
      if Calls(reg, env, init, flow).CallsDone? {
        CallStepDoneIff(reg, env, Calls(reg, env, init, flow), last);
      }
      assert forall i :: 0 <= i < |init| ==> init[i] == items[i];
    }
  }

  /** When the call loop raises, the flow it leaves is the given one plus `tool_call` entries only. */
  lemma {:induction false} CallsRaisedShape(reg: Registry, env: Env, items: seq<OutputItem>, flow: seq<Interaction>)
    requires Calls(reg, env, items, flow).CallsRaised?
    ensures var f := Calls(reg, env, items, flow).flow;
      && flow <= f && |f| < |flow| + |items|
      && forall i :: |flow| <= i < |f| ==> f[i].ToolCallEntry?
    decreases |items|
  {
    var init := items[..|items| - 1];
    if Calls(reg, env, init, flow).CallsRaised? {
      CallsRaisedShape(reg, env, init, flow);
    } else {
      CallsDoneShape(reg, env, init, flow);
    }
  }

  /** Once the call loop raised, the items after that one are never processed. */
  lemma {:induction false} CallsRaisedSticks(reg: Registry, env: Env, items: seq<OutputItem>, k: nat, flow: seq<Interaction>)
    requires k <= |items| && Calls(reg, env, items[..k], flow).CallsRaised?
    ensures Calls(reg, env, items, flow) == Calls(reg, env, items[..k], flow)
    decreases |items| - k
  {
    if k < |items| {
      assert items[..k + 1][..k] == items[..k];
      CallsRaisedSticks(reg, env, items, k + 1, flow);
    } else {
      assert items[..k] == items;
    }
  }

  /** A `message` item among the processed ones makes the call loop raise. */
  lemma {:induction false} CallsRaiseOnMessage(reg: Registry, env: Env, items: seq<OutputItem>, flow: seq<Interaction>, k: nat)
    requires k < |items| && items[k].MessageItem?
    ensures Calls(reg, env, items, flow).CallsRaised?
    decreases |items|
  {
    if k < |items| - 1 {
      CallsRaiseOnMessage(reg, env, items[..|items| - 1], flow, k);
    }
  }

  /** The calls of an output made only of `function_call` items are all of them, in order. */
  lemma {:induction false} RequestedCallsAll(output: seq<OutputItem>)
    requires forall i :: 0 <= i < |output| ==> output[i].FunctionCallItem?
    ensures |RequestedCalls(output)| == |output|
    ensures forall i :: 0 <= i < |output| ==> RequestedCalls(output)[i] == output[i].call
    decreases |output|
  {
    if output != [] {
      RequestedCallsAll(output[..|output| - 1]);
    }
  }

  // ---------------------------------------------------------------- one turn

  /** A tool turn whose calls all completed leaves every call of the history answered if it was before. */
  lemma ToolTurnAnswers(reg: Registry, env: Env, st: LoopState, out: seq<OutputItem>)
    requires Calls(reg, env, out, st.flow).CallsDone?
    requires Answered(st.messages)
    ensures Answered(ToolTurn(reg, env, st, RequestedCalls(out), out).0.messages)
  {
    var c := Calls(reg, env, out, st.flow);
    var calls := RequestedCalls(out);
    ResultsAnswerCalls(reg, env, out, st.flow);
    var ms := st.messages + AsMessages(calls) + Outputs(c.results);
    HistoryAnswered(st.messages, calls, c.results, ms);
    ToolTurnUnfold(reg, env, st, calls, out);
  }

  /** Adding the calls and then one output per call, with its id, keeps every call of the history answered. */
  lemma HistoryAnswered(ms: seq<Message>, calls: seq<FunctionCall>, results: seq<(string, string)>, next: seq<Message>)
    requires Answered(ms)
    requires |results| == |calls| && forall i :: 0 <= i < |calls| ==> results[i].0 == calls[i].callId
    requires next == ms + AsMessages(calls) + Outputs(results)
    ensures Answered(next)
  {
    ToolTurnMessages(ms, calls, results, next);
    AnsweredAfterToolTurn(ms, calls, next);
  }

  /** Completed call processing returns one result per requested call, carrying that call's id. */
  lemma ResultsAnswerCalls(reg: Registry, env: Env, out: seq<OutputItem>, flow: seq<Interaction>)
    requires Calls(reg, env, out, flow).CallsDone?
    ensures var c := Calls(reg, env, out, flow);
      && |c.results| == |RequestedCalls(out)|
      && forall i :: 0 <= i < |c.results| ==> c.results[i].0 == RequestedCalls(out)[i].callId
  {
    CallsDoneShape(reg, env, out, flow);
    RequestedCallsAll(out);
  }

  /**
    A tool turn whose calls all completed grew the flow by the call loop's
    `tool_call` entries, then one `error` per call whose tool raised, added
    the called names, and set the answer and `error_info` from the first
    tool error only if no earlier tool error had.
  */
  lemma ToolTurnDone(reg: Registry, env: Env, st: LoopState, out: seq<OutputItem>)
    requires Calls(reg, env, out, st.flow).CallsDone?
    ensures var next := ToolTurn(reg, env, st, RequestedCalls(out), out).0;
      var errors := Failures(reg, env, out);
      && |next.flow| == |st.flow| + |out| + |errors|
      && next.flow[..|st.flow|] == st.flow
      && next.flow[..|st.flow| + |out|] == Calls(reg, env, out, st.flow).flow
      && (forall i :: |st.flow| <= i < |st.flow| + |out| ==> next.flow[i].ToolCallEntry?)
      && next.flow[|st.flow| + |out|..] == ErrorEntries(errors)
    ensures var next := ToolTurn(reg, env, st, RequestedCalls(out), out).0;
      var errors := Failures(reg, env, out);
      && next.names == st.names + Calls(reg, env, out, st.flow).names
      && next.answer == (if st.errorInfo.None? && errors != [] then "Tool call error: " + errors[0].error else st.answer)
      && next.errorInfo == (if st.errorInfo.None? && errors != [] then Some(errors[0].error) else st.errorInfo)
  {
    var c := Calls(reg, env, out, st.flow);
    CallsDoneShape(reg, env, out, st.flow);
    ToolTurnUnfold(reg, env, st, RequestedCalls(out), out);
    ToolTurnFlow(st.flow, out, c.flow, c.errors);
  }

  lemma ToolTurnUnfold(reg: Registry, env: Env, st: LoopState, requested: seq<FunctionCall>, out: seq<OutputItem>)
    requires Calls(reg, env, out, st.flow).CallsDone?
    ensures var c := Calls(reg, env, out, st.flow);
      var first := c.errors != [] && st.errorInfo.None?;
      ToolTurn(reg, env, st, requested, out) == (LoopState(
        st.messages + AsMessages(requested) + Outputs(c.results),
        c.flow + ErrorEntries(c.errors),
        st.names + c.names,
        if first then "Tool call error: " + c.errors[0].error else st.answer,
        if first then Some(c.errors[0].error) else st.errorInfo), true)
  {
  }

  /**
    The history after a tool turn: the requested calls, in order, then
    exactly one `function_call_output` per call carrying the same call id,
    in the same order.
  */
  lemma ToolTurnMessages(ms: seq<Message>, calls: seq<FunctionCall>, results: seq<(string, string)>, next: seq<Message>)
    requires |results| == |calls| && forall i :: 0 <= i < |calls| ==> results[i].0 == calls[i].callId
    requires next == ms + AsMessages(calls) + Outputs(results)
    ensures |next| == |ms| + 2 * |calls| && next[..|ms|] == ms
    ensures forall i :: 0 <= i < |calls| ==>
      && next[|ms| + i] == ModelCall(calls[i])
      && next[|ms| + |calls| + i].FunctionCallOutput?
      && next[|ms| + |calls| + i].callId == calls[i].callId
  {
    ThreeParts(ms, AsMessages(calls), Outputs(results), next);
    forall i | 0 <= i < |calls|
      ensures next[|ms| + i] == ModelCall(calls[i])
      ensures next[|ms| + |calls| + i] == FunctionCallOutput(calls[i].callId, results[i].1)
    {
      ToolTurnMessageAt(ms, calls, results, next, i);
    }
  }

  lemma ToolTurnMessageAt(ms: seq<Message>, calls: seq<FunctionCall>, results: seq<(string, string)>, next: seq<Message>, i: nat)
    requires |results| == |calls| && i < |calls| && results[i].0 == calls[i].callId
    requires next == ms + AsMessages(calls) + Outputs(results)
    ensures next[|ms| + i] == ModelCall(calls[i])
    ensures next[|ms| + |calls| + i] == FunctionCallOutput(calls[i].callId, results[i].1)
  {
    var front := ms + AsMessages(calls);
    AppendFront(front, Outputs(results), |ms| + i);
    AppendBack(ms, AsMessages(calls), |ms| + i);
    AppendBack(front, Outputs(results), |ms| + |calls| + i);
  }

  /** An index of `a + b` within `a` reads `a`. */
  lemma AppendFront<T>(a: seq<T>, b: seq<T>, k: int)
    requires 0 <= k < |a|
    ensures (a + b)[k] == a[k]
  {
  }

  /** An index of `a + b` past `a` reads `b`. */
  lemma AppendBack<T>(a: seq<T>, b: seq<T>, k: int)
    requires |a| <= k < |a| + |b|
    ensures (a + b)[k] == b[k - |a|]
  {
  }

  /** Where the parts of a three-part concatenation sit. */
  lemma ThreeParts<T>(a: seq<T>, b: seq<T>, c: seq<T>, s: seq<T>)
    requires s == a + b + c
    ensures |s| == |a| + |b| + |c| && s[..|a|] == a
    ensures forall i :: 0 <= i < |b| ==> s[|a| + i] == b[i]
    ensures forall i :: 0 <= i < |c| ==> s[|a| + |b| + i] == c[i]
  {
    assert s[..|a|] == a;
  }

  lemma ToolTurnFlow(flow: seq<Interaction>, out: seq<OutputItem>, f: seq<Interaction>, errors: seq<ErrorDetail>)
    requires |f| == |flow| + |out| && f[..|flow|] == flow
    requires forall i :: |flow| <= i < |f| ==> f[i].ToolCallEntry?
    ensures var next := f + ErrorEntries(errors);
      && |next| == |flow| + |out| + |errors|
      && next[..|flow|] == flow
      && next[..|flow| + |out|] == f
      && (forall i :: |flow| <= i < |flow| + |out| ==> next[i].ToolCallEntry?)
      && next[|flow| + |out|..] == ErrorEntries(errors)
  {
    var next := f + ErrorEntries(errors);
    assert next[..|flow| + |out|] == f;
    assert next[..|flow|] == f[..|flow|];
    forall i | |flow| <= i < |flow| + |out| ensures next[i].ToolCallEntry? {
      assert next[i] == f[i];
    }
  }

  /**
    A turn after which the model is called again had a reply with at least
    one function call and only function calls; it logged the model call
    first, with the history it was sent, and then made the tool turn above.
  */
  lemma ContinuingTurn(reg: Registry, env: Env, p: Params, st: LoopState, reply: Reply)
    requires Turn(reg, env, p, st, reply).1
    ensures reply.Responded? && HasFunctionCall(reply.output)
    ensures var called := st.(flow := st.flow + [LlmApiCall(Model, Request(p, st.messages), reply.output)]);
      && Calls(reg, env, reply.output, called.flow).CallsDone?
      && Turn(reg, env, p, st, reply) == ToolTurn(reg, env, called, RequestedCalls(reply.output), reply.output)
  {
  }

  /** The model is called again exactly when the reply requested a call and every call was processed. */
  lemma TurnContinuesIff(reg: Registry, env: Env, p: Params, st: LoopState, reply: Reply)
    ensures Turn(reg, env, p, st, reply).1 <==>
      && reply.Responded? && HasFunctionCall(reply.output)
      && Calls(reg, env, reply.output, st.flow + [LlmApiCall(Model, Request(p, st.messages), reply.output)]).CallsDone?
  {
  }

  /** A reply mixing a message with function calls ends the query with a `tool_call_processing` error. */
  lemma MixedReplyEndsQuery(reg: Registry, env: Env, p: Params, st: LoopState, output: seq<OutputItem>, k: nat)
    requires HasFunctionCall(output) && k < |output| && output[k].MessageItem?
    ensures var (next, more) := Turn(reg, env, p, st, Responded(output));
      && !more && next.errorInfo.Some?
      && next.flow[|next.flow| - 1] == ErrorEntry(SourcedError(next.errorInfo.value, "tool_call_processing"))
  {
    CallsRaiseOnMessage(reg, env, output, st.flow + [LlmApiCall(Model, Request(p, st.messages), output)], k);
  }

  // ---------------------------------------------------------------- whole query

  /** Every function call of the history is answered later by an output with its call id. */
  predicate Answered(ms: seq<Message>) {
    forall i :: 0 <= i < |ms| && ms[i].ModelCall? ==>
      exists j :: i < j < |ms| && ms[j].FunctionCallOutput? && ms[j].callId == ms[i].call.callId
  }

  /** Within a turn a tool call follows the model call or another tool call, never an error. */
  predicate Ordered(flow: seq<Interaction>) {
    forall i :: 0 <= i < |flow| && flow[i].ToolCallEntry? ==> 0 < i && !flow[i - 1].ErrorEntry?
  }

  predicate HasError(flow: seq<Interaction>) {
    exists i :: 0 <= i < |flow| && flow[i].ErrorEntry?
  }

  /** Every model call recorded in the flow was sent a history in which every call was answered. */
  predicate ModelSawAnswers(flow: seq<Interaction>) {
    forall i :: 0 <= i < |flow| && flow[i].LlmApiCall? ==> Answered(flow[i].request.messages)
  }

  /** What the returned result promises: ordered flow, answered calls, and an `"error"` key iff the flow logged an error. */
  predicate FlowCoherent(flow: seq<Interaction>, error: Option<string>) {
    Ordered(flow) && ModelSawAnswers(flow) && (error.Some? <==> HasError(flow))
  }

  /** The loop invariant: besides the flow, the history is ready for the next model call. */
  predicate Coherent(st: LoopState) {
    Answered(st.messages) && FlowCoherent(st.flow, st.errorInfo)
  }

  lemma AnsweredAfterToolTurn(ms: seq<Message>, calls: seq<FunctionCall>, next: seq<Message>)
    requires Answered(ms)
    requires |next| == |ms| + 2 * |calls| && next[..|ms|] == ms
    requires forall i :: 0 <= i < |calls| ==>
      && next[|ms| + i] == ModelCall(calls[i])
      && next[|ms| + |calls| + i].FunctionCallOutput?
      && next[|ms| + |calls| + i].callId == calls[i].callId
    ensures Answered(next)
  {
    var m, n := |ms|, |calls|;
    forall i | m + n <= i < |next| ensures next[i].FunctionCallOutput? {
      var k := i - m - n;
      assert next[m + k] == ModelCall(calls[k]);
      assert next[m + n + k].FunctionCallOutput?;
    }
    forall i | 0 <= i < m + n && next[i].ModelCall?
      ensures exists j :: i < j < |next| && next[j].FunctionCallOutput? && next[j].callId == next[i].call.callId
    {
      if i < m {
        assert ms[i] == next[i];
        var j :| i < j < m && ms[j].FunctionCallOutput? && ms[j].callId == ms[i].call.callId;
        assert next[j] == ms[j];
      } else {
        var k := i - m;
        assert next[m + k] == ModelCall(calls[k]);
        assert next[m + n + k].callId == next[i].call.callId;
      }
    }
  }

  /** Logging a model call that was sent an answered history keeps the flow coherent. */
  lemma CalledCoherent(flow: seq<Interaction>, error: Option<string>, call: Interaction)
    requires FlowCoherent(flow, error)
    requires call.LlmApiCall? && Answered(call.request.messages)
    ensures FlowCoherent(flow + [call], error)
  {
    var called := flow + [call];
    assert called[|flow|] == call;
    assert HasError(called) <==> HasError(flow) by {
      if HasError(called) {
        var i :| 0 <= i < |called| && called[i].ErrorEntry?;
        assert i < |flow| && flow[i] == called[i];
      }
      if HasError(flow) {
        var i :| 0 <= i < |flow| && flow[i].ErrorEntry?;
        assert called[i] == flow[i];
      }
    }
  }

  /** Appending one `error` entry keeps the flow coherent once `error_info` is set. */
  lemma ErrorAppendedCoherent(flow: seq<Interaction>, entry: Interaction, e: string)
    requires Ordered(flow) && ModelSawAnswers(flow)
    requires entry.ErrorEntry?
    ensures FlowCoherent(flow + [entry], Some(e))
  {
    var next := flow + [entry];
    assert next[|flow|].ErrorEntry?;
    forall i | 0 <= i < |next| && next[i].ToolCallEntry? ensures 0 < i && !next[i - 1].ErrorEntry? {
      assert next[i] == flow[i];
    }
  }

  /**
    A flow grown after a model call by `tool_call` entries and then
    `error` entries stays coherent, with an error exactly when it had one
    or some entry was added.
  */
  lemma ToolEntriesCoherent(flow: seq<Interaction>, k: nat, errors: seq<ErrorDetail>, next: seq<Interaction>, error: Option<string>)
    requires Ordered(flow) && ModelSawAnswers(flow) && flow != [] && flow[|flow| - 1].LlmApiCall?
    requires |next| == |flow| + k + |errors| && next[..|flow|] == flow
    requires forall i :: |flow| <= i < |flow| + k ==> next[i].ToolCallEntry?
    requires next[|flow| + k..] == ErrorEntries(errors)
    requires error.Some? <==> HasError(flow) || errors != []
    ensures FlowCoherent(next, error)
  {
    var base := |flow| + k;
    assert forall i :: 0 <= i < |flow| ==> next[i] == flow[i];
    assert forall i :: base <= i < |next| ==> next[i] == next[base..][i - base];
    forall i | 0 <= i < |next| && next[i].ToolCallEntry? ensures 0 < i && !next[i - 1].ErrorEntry? {
      if i < |flow| {
        assert flow[i].ToolCallEntry?;
      } else {
        assert i < base;
        if i - 1 < |flow| { assert next[i - 1] == flow[|flow| - 1]; }
      }
    }
    forall i | 0 <= i < |next| && next[i].LlmApiCall? ensures Answered(next[i].request.messages) {
      assert i < |flow|;
    }
    assert HasError(next) <==> HasError(flow) || errors != [] by {
      if errors != [] {
        assert next[base].ErrorEntry?;
      }
      if HasError(flow) {
        var i :| 0 <= i < |flow| && flow[i].ErrorEntry?;
        assert next[i] == flow[i];
      }
      if HasError(next) {
        var i :| 0 <= i < |next| && next[i].ErrorEntry?;
        assert i < |flow| || base <= i;
      }
    }
  }

  /**
    A tool turn made right after logging a model call keeps the flow
    coherent and only appends to it, and when the model is called again
    every call of the history has its output.
  */
  lemma ToolTurnCoherent(reg: Registry, env: Env, st: LoopState, out: seq<OutputItem>)
    requires Answered(st.messages) && FlowCoherent(st.flow, st.errorInfo)
    requires st.flow != [] && st.flow[|st.flow| - 1].LlmApiCall?
    ensures var (next, more) := ToolTurn(reg, env, st, RequestedCalls(out), out);
      && st.flow <= next.flow && FlowCoherent(next.flow, next.errorInfo)
      && (more ==> Answered(next.messages))
  {
    if Calls(reg, env, out, st.flow).CallsDone? {
      ToolTurnDoneCoherent(reg, env, st, out);
    } else {
      ToolTurnRaisedCoherent(reg, env, st, out);
    }
  }

  lemma ToolTurnDoneCoherent(reg: Registry, env: Env, st: LoopState, out: seq<OutputItem>)
    requires Answered(st.messages) && FlowCoherent(st.flow, st.errorInfo)
    requires st.flow != [] && st.flow[|st.flow| - 1].LlmApiCall?
    requires Calls(reg, env, out, st.flow).CallsDone?
    ensures var (next, more) := ToolTurn(reg, env, st, RequestedCalls(out), out);
      && st.flow <= next.flow && FlowCoherent(next.flow, next.errorInfo) && Answered(next.messages)
  {
    var next := ToolTurn(reg, env, st, RequestedCalls(out), out).0;
    ToolTurnDone(reg, env, st, out);
    ToolTurnAnswers(reg, env, st, out);
    ToolEntriesCoherent(st.flow, |out|, Failures(reg, env, out), next.flow, next.errorInfo);
    assert next.flow[..|st.flow|] == st.flow;
  }

  lemma ToolTurnRaisedCoherent(reg: Registry, env: Env, st: LoopState, out: seq<OutputItem>)
    requires FlowCoherent(st.flow, st.errorInfo)
    requires st.flow != [] && st.flow[|st.flow| - 1].LlmApiCall?
    requires Calls(reg, env, out, st.flow).CallsRaised?
    ensures var (next, more) := ToolTurn(reg, env, st, RequestedCalls(out), out);
      && st.flow <= next.flow && FlowCoherent(next.flow, next.errorInfo) && !more
  {
    var next := ToolTurn(reg, env, st, RequestedCalls(out), out).0;
    var c := Calls(reg, env, out, st.flow);
    CallsRaisedShape(reg, env, out, st.flow);
    var e := ErrorEntry(SourcedError(c.error, "tool_call_processing"));
    ToolEntriesCoherent(st.flow, |c.flow| - |st.flow|, [], c.flow, st.errorInfo);
    ErrorAppendedCoherent(c.flow, e, c.error);
    assert next.flow == c.flow + [e];
    assert next.flow[..|st.flow|] == c.flow[..|st.flow|];
  }

  /** One turn keeps the flow coherent, only appends to it, and leaves a ready history when it continues. */
  lemma TurnCoherent(reg: Registry, env: Env, p: Params, st: LoopState, reply: Reply)
    requires Coherent(st)
    ensures var (next, more) := Turn(reg, env, p, st, reply);
      && st.flow <= next.flow
      && FlowCoherent(next.flow, next.errorInfo)
      && (more ==> Answered(next.messages))
  {
    if reply.GatewayFailed? {
      ErrorAppendedCoherent(st.flow, ErrorEntry(SourcedError(reply.error, "openai_api")), reply.error);
    } else {
      var call := LlmApiCall(Model, Request(p, st.messages), reply.output);
      CalledCoherent(st.flow, st.errorInfo, call);
      if HasFunctionCall(reply.output) {
        ToolTurnCoherent(reg, env, st.(flow := st.flow + [call]), reply.output);
      }
    }
  }

  /** The whole loop keeps the flow coherent and only ever appends to it. */
  lemma {:induction false} RunCoherent(reg: Registry, env: Env, p: Params, script: seq<Reply>, st: LoopState)
    requires Coherent(st)
    ensures match Run(reg, env, p, script, st)
      case Finished(r) => st.flow <= r.flow && FlowCoherent(r.flow, r.error)
      case ScriptExhausted(last) => st.flow <= last.flow && Coherent(last)
    decreases |script|
  {
    if script != [] {
      var (next, more) := Turn(reg, env, p, st, script[0]);
      TurnCoherent(reg, env, p, st, script[0]);
      if more {
        RunCoherent(reg, env, p, script[1..], next);
      }
    }
  }

  /**
    Fault isolation: a finished query returns an `"error"` key exactly when
    its flow logged an error; the flow never puts a tool call after an
    error of the same turn; and every model call was sent a history in
    which each requested call already had its output.
  */
  lemma QueryCoherent(reg: Registry, env: Env, p: Params, script: seq<Reply>, query: string)
    requires Run(reg, env, p, script, Start(query)).Finished?
    ensures FlowCoherent(Run(reg, env, p, script, Start(query)).response.flow, Run(reg, env, p, script, Start(query)).response.error)
  {
    RunCoherent(reg, env, p, script, Start(query));
  }

  /** A first reply without function calls ends the query after one model call, with the reply's text. */
  lemma NoCallReplyEndsQuery(reg: Registry, env: Env, p: Params, query: string, output: seq<OutputItem>, rest: seq<Reply>)
    requires !HasFunctionCall(output)
    ensures Run(reg, env, p, [Responded(output)] + rest, Start(query)) ==
      Finished(QueryResponse([], [LlmApiCall(Model, Request(p, [UserMessage(query)]), output)], MessageText(output), None))
  {
  }

  /** A gateway failure ends the query with one `openai_api` error entry and an error answer. */
  lemma GatewayFailureEndsQuery(reg: Registry, env: Env, p: Params, st: LoopState, e: string, rest: seq<Reply>)
    ensures Run(reg, env, p, [GatewayFailed(e)] + rest, st) ==
      Finished(QueryResponse(st.names, st.flow + [ErrorEntry(SourcedError(e, "openai_api"))], "OpenAI API error: " + e, Some(e)))
  {
  }

  // ---------------------------------------------------------------- worked example

  /** A backend advertising only `get_weather`, which always reports Paris weather. */
  function WeatherBackend(): Backend {
    Backend([Obj([("name", Str("get_weather"))])], (name: string, args: Json) => Ok(Str("15C, cloudy")))
  }

  /** The call the model makes in the weather query. */
  function WeatherCall(): FunctionCall {
    FunctionCall("get_weather", "{\"location\":\"Paris\"}", "call_1")
  }

  function ParisArgs(): Json {
    Obj([("location", Str("Paris"))])
  }

  /** The model's final reply in the weather query. */
  function WeatherAnswer(): seq<OutputItem> {
    [MessageItem([OutputText("It is 15C and cloudy in Paris.")])]
  }

  /** The state after the weather query's tool turn. */
  function AfterWeatherCall(env: Env, p: Params, query: string): LoopState {
    LoopState(
      [UserMessage(query), ModelCall(WeatherCall()), FunctionCallOutput("call_1", env.show(Str("15C, cloudy")))],
      [LlmApiCall(Model, Request(p, [UserMessage(query)]), [FunctionCallItem(WeatherCall())]),
       ToolCallEntry("get_weather", ParisArgs(), Str("15C, cloudy"))],
      ["get_weather"], "", None)
  }

  /** The weather call is decoded, dispatched to the weather backend and recorded. */
  lemma WeatherCalls(env: Env, flow: seq<Interaction>)
    requires env.decode(WeatherCall().arguments) == Ok(ParisArgs())
    ensures Calls(Register(Empty, "weather", WeatherBackend()), env, [FunctionCallItem(WeatherCall())], flow) ==
      CallsDone(["get_weather"], [("call_1", env.show(Str("15C, cloudy")))], [], flow + [ToolCallEntry("get_weather", ParisArgs(), Str("15C, cloudy"))])
  {
    var b := WeatherBackend();
    assert LastNamed(b.advertised, "get_weather") == Some(b.advertised[0]) by {
      assert Keys(b.advertised[0].fields)[0] == "name";
    }
    DispatchAfterRegister(Empty, "weather", b, "get_weather", ParisArgs());
    var items := [FunctionCallItem(WeatherCall())];
    assert items[..0] == [];
  }

  /** The first model call of the weather query requests the tool, which answers; the loop goes on. */
  lemma WeatherFirstTurn(env: Env, p: Params, query: string)
    requires env.decode(WeatherCall().arguments) == Ok(ParisArgs())
    ensures Turn(Register(Empty, "weather", WeatherBackend()), env, p, Start(query), Responded([FunctionCallItem(WeatherCall())])) ==
      (AfterWeatherCall(env, p, query), true)
  {
    var first := [FunctionCallItem(WeatherCall())];
    assert HasFunctionCall(first) by { assert first[0].FunctionCallItem?; }
    assert first[..0] == [];
    assert RequestedCalls(first) == [WeatherCall()];
    var st := Start(query);
    var reg := Register(Empty, "weather", WeatherBackend());
    var called := st.(flow := st.flow + [LlmApiCall(Model, Request(p, st.messages), first)]);
    WeatherCalls(env, called.flow);
    ToolTurnUnfold(reg, env, called, [WeatherCall()], first);
    var shown := env.show(Str("15C, cloudy"));
    assert AsMessages([WeatherCall()]) == [ModelCall(WeatherCall())];
    assert Outputs([("call_1", shown)]) == [FunctionCallOutput("call_1", shown)];
    assert [UserMessage(query)] + [ModelCall(WeatherCall())] + [FunctionCallOutput("call_1", shown)] == AfterWeatherCall(env, p, query).messages;
    assert ErrorEntries([]) == [];
    assert called.flow + [ToolCallEntry("get_weather", ParisArgs(), Str("15C, cloudy"))] + [] == AfterWeatherCall(env, p, query).flow;
  }

  /** The second model call of the weather query answers in text, which ends the loop. */
  lemma WeatherSecondTurn(env: Env, p: Params, query: string)
    ensures var st := AfterWeatherCall(env, p, query);
      Turn(Register(Empty, "weather", WeatherBackend()), env, p, st, Responded(WeatherAnswer())) ==
      (st.(flow := st.flow + [LlmApiCall(Model, Request(p, st.messages), WeatherAnswer())], answer := "It is 15C and cloudy in Paris.\n"), false)
  {
    var answer := WeatherAnswer();
    assert !HasFunctionCall(answer);
    assert MessageText(answer) == "It is 15C and cloudy in Paris.\n" by {
      assert answer[..0] == [];
      var parts := [OutputText("It is 15C and cloudy in Paris.")];
      assert parts[..0] == [];
    }
  }

  /**
    The weather query: the model asks for `get_weather` with a location,
    the tool answers, the model then answers in text. The query returns
    that text, one tool name and no error; the flow is model call, tool
    call, model call; and the second model call was sent the call together
    with its output.
  */
  lemma WeatherQuery(env: Env, p: Params, query: string)
    requires env.decode("{\"location\":\"Paris\"}") == Ok(Obj([("location", Str("Paris"))]))
    ensures var call := FunctionCall("get_weather", "{\"location\":\"Paris\"}", "call_1");
      var script := [Responded([FunctionCallItem(call)]), Responded([MessageItem([OutputText("It is 15C and cloudy in Paris.")])])];
      var outcome := Run(Register(Empty, "weather", WeatherBackend()), env, p, script, Start(query));
      && outcome.Finished?
      && outcome.response.namesOfToolsUsed == ["get_weather"]
      && outcome.response.finalAnswer == "It is 15C and cloudy in Paris.\n"
      && outcome.response.error == None
      && |outcome.response.flow| == 3
      && outcome.response.flow[1] == ToolCallEntry("get_weather", Obj([("location", Str("Paris"))]), Str("15C, cloudy"))
      && outcome.response.flow[2].LlmApiCall?
      && outcome.response.flow[2].request.messages ==
           [UserMessage(query), ModelCall(call), FunctionCallOutput("call_1", env.show(Str("15C, cloudy")))]
  {
    var reg := Register(Empty, "weather", WeatherBackend());
    var script := [Responded([FunctionCallItem(WeatherCall())]), Responded(WeatherAnswer())];
    WeatherFirstTurn(env, p, query);
    WeatherSecondTurn(env, p, query);
    var st := AfterWeatherCall(env, p, query);
    assert script[1..] == [Responded(WeatherAnswer())];
    assert Run(reg, env, p, script, Start(query)) == Run(reg, env, p, script[1..], st);
  }
}
