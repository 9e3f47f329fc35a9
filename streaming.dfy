/**
  The streaming variant `Host.process_query_stream_function_calling`: per
  model call, the gateway's events are echoed as raw frames while the
  `function_call` items they announce are collected into slots keyed by
  output index and their argument deltas appended; the completed response
  is logged, and the collected calls make the tool turn of the
  non-streaming loop. One final `full_flow` frame carries the result.
*/
module Streaming {
  import opened Wrappers
  import opened Json
  import opened Messages
  import opened Routing
  import opened Engine
  import opened EngineProperties

  /**
    What one model call's event stream has accumulated: the slots
    (`final_tool_calls`, an insertion-ordered dict from output index to
    call), the completed response's output if one arrived
    (`final_openai_response`), and the frames yielded so far.
  */
  datatype Acc = Acc(slots: seq<(int, FunctionCall)>, completed: Option<seq<OutputItem>>, frames: seq<Frame>)

  /** The accumulator at the start of every model call. */
  const Fresh: Acc := Acc([], None, [])

  /**
    One event: its raw frame first; then an added `function_call` item
    fills its slot, a delta extends its slot's arguments (an index with no
    slot raises `KeyError`, caught as an `event: error` frame), and the
    completed event records the response.
  */
  function Ingest(acc: Acc, ev: StreamEvent): Acc {
    var echoed := acc.frames + [EventFrame(ev)];
    match ev
    case OutputItemAdded(i, item) =>
      if item.FunctionCallItem? then acc.(slots := Put(acc.slots, i, item.call), frames := echoed)
      else acc.(frames := echoed)
    case ArgumentsDelta(i, d) =>
      (match Get(acc.slots, i)
       case None => acc.(frames := echoed + [EventErrorFrame(i)])
       case Some(c) => acc.(slots := Put(acc.slots, i, c.(arguments := c.arguments + d)), frames := echoed))
    case Completed(output) => acc.(completed := Some(output), frames := echoed)
    case OtherEvent(_) => acc.(frames := echoed)
  }

  /** The `async for event in ...` loop of one model call. */
  function Accumulate(events: seq<StreamEvent>): Acc
    decreases |events|
  {
    if events == [] then Fresh else Ingest(Accumulate(events[..|events| - 1]), events[|events| - 1])
  }

  /** The stream of a model call includes a `response.completed` event (otherwise the host dereferences `None`). */
  predicate HasCompleted(events: seq<StreamEvent>) {
    exists k :: 0 <= k < |events| && events[k].Completed?
  }

  /**
    The rest of one iteration once the stream is consumed: log the model
    call with the completed output; with at least one slot, make the tool
    turn over the slots' calls in slot order, otherwise take the answer
    from the completed output and stop.
  */
  function StreamTurn(reg: Registry, env: Env, p: Params, st: LoopState, acc: Acc): (LoopState, bool)
    requires acc.completed.Some?
  {
    var called := st.(flow := st.flow + [LlmApiCall(Model, Request(p, st.messages), acc.completed.value)]);
    if |acc.slots| > 0 then
      var calls := Values(acc.slots);
      ToolTurn(reg, env, called, calls, AsItems(calls))
    else (called.(answer := MessageText(acc.completed.value)), false)
  }

  /** The frames a streaming query yields and how it ends. */
  datatype StreamRun = StreamRun(frames: seq<Frame>, outcome: Outcome)

  /** `process_query_stream_function_calling`, consuming one scripted event stream per model call. */
  function RunStream(reg: Registry, env: Env, p: Params, turns: seq<seq<StreamEvent>>, st: LoopState): StreamRun
    requires forall t :: 0 <= t < |turns| ==> HasCompleted(turns[t])
    decreases |turns|
  {
    if turns == [] then StreamRun([], ScriptExhausted(st))
    else
      var acc := Accumulate(turns[0]);
      CompletedRecorded(turns[0]);
      var (next, more) := StreamTurn(reg, env, p, st, acc);
      if more then
        var rest := RunStream(reg, env, p, turns[1..], next);
        StreamRun(acc.frames + rest.frames, rest.outcome)
      else StreamRun(acc.frames + [FullFlowFrame(Respond(next))], Finished(Respond(next)))
  }

  // ---------------------------------------------------------------- reference definitions

  /** The events echoed by a list of frames, in order. */
  function Echoed(frames: seq<Frame>): seq<StreamEvent>
    decreases |frames|
  {
    if frames == [] then []
    else Echoed(frames[..|frames| - 1]) + if frames[|frames| - 1].EventFrame? then [frames[|frames| - 1].event] else []
  }

  /** The position of the last `function_call` item added at output index `i`. */
  function LastAdd(events: seq<StreamEvent>, i: int): (k: Option<nat>)
    ensures k.Some? ==>
      && k.value < |events| && events[k.value].OutputItemAdded?
      && events[k.value].outputIndex == i && events[k.value].item.FunctionCallItem?
    decreases |events|
  {
    if events == [] then None
    else
      var ev := events[|events| - 1];
      if ev.OutputItemAdded? && ev.outputIndex == i && ev.item.FunctionCallItem? then Some(|events| - 1)
      else LastAdd(events[..|events| - 1], i)
  }

  /** The output indices at which `function_call` items were added, each once, in order of first announcement. */
  function Announced(events: seq<StreamEvent>): seq<int>
    decreases |events|
  {
    if events == [] then []
    else
      var prior := Announced(events[..|events| - 1]);
      var ev := events[|events| - 1];
      if ev.OutputItemAdded? && ev.item.FunctionCallItem? && ev.outputIndex !in prior then prior + [ev.outputIndex]
      else prior
  }

  /** The argument deltas sent for output index `i`, concatenated in order. */
  function DeltasAt(events: seq<StreamEvent>, i: int): string
    decreases |events|
  {
    if events == [] then ""
    else
      var ev := events[|events| - 1];
      DeltasAt(events[..|events| - 1], i) + DeltaOf(ev, i)
  }

  /** Deltas sent at an index that has no slot at that moment: each one yields an `event: error` frame. */
  function Orphans(events: seq<StreamEvent>): seq<int>
    decreases |events|
  {
    if events == [] then []
    else
      var init := events[..|events| - 1];
      var ev := events[|events| - 1];
      Orphans(init) + if ev.ArgumentsDelta? && LastAdd(init, ev.outputIndex).None? then [ev.outputIndex] else []
  }

  /** The indices of the error frames among a list of frames, in order. */
  function ErrorFrames(frames: seq<Frame>): seq<int>
    decreases |frames|
  {
    if frames == [] then []
    else ErrorFrames(frames[..|frames| - 1]) + if frames[|frames| - 1].EventErrorFrame? then [frames[|frames| - 1].missingIndex] else []
  }

  // ---------------------------------------------------------------- properties of one stream

  lemma {:induction false} EchoedAppend(a: seq<Frame>, b: seq<Frame>)
    ensures Echoed(a + b) == Echoed(a) + Echoed(b)
    decreases |b|
  {
    if b == [] {
      assert a + b == a;
    } else {
      assert (a + b)[..|a + b| - 1] == a + b[..|b| - 1];
      EchoedAppend(a, b[..|b| - 1]);
    }
  }

  lemma {:induction false} ErrorFramesAppend(a: seq<Frame>, b: seq<Frame>)
    ensures ErrorFrames(a + b) == ErrorFrames(a) + ErrorFrames(b)
    decreases |b|
  {
    if b == [] {
      assert a + b == a;
    } else {
      assert (a + b)[..|a + b| - 1] == a + b[..|b| - 1];
      ErrorFramesAppend(a, b[..|b| - 1]);
    }
  }

  /** The frames one event yields: its raw frame, then an error frame when it is a delta for an index with no slot. */
  function EventFrames(ev: StreamEvent, missing: Option<int>): seq<Frame> {
    match missing
    case Some(i) => [EventFrame(ev), EventErrorFrame(i)]
    case None => [EventFrame(ev)]
  }

  /** The slot index a delta misses, if it is a delta for an index with no slot. */
  function Missing(acc: Acc, ev: StreamEvent): Option<int> {
    if ev.ArgumentsDelta? && !HasKey(acc.slots, ev.outputIndex) then Some(ev.outputIndex) else None
  }

  lemma IngestFrames(acc: Acc, ev: StreamEvent)
    ensures Ingest(acc, ev).frames == acc.frames + EventFrames(ev, Missing(acc, ev))
  {
  }

  lemma EventFramesContent(ev: StreamEvent, missing: Option<int>)
    ensures Echoed(EventFrames(ev, missing)) == [ev]
    ensures ErrorFrames(EventFrames(ev, missing)) == if missing.Some? then [missing.value] else []
    ensures |EventFrames(ev, missing)| == 1 + |ErrorFrames(EventFrames(ev, missing))|
  {
    var one := [EventFrame(ev)];
    assert one[..0] == [];
    assert Echoed(one) == [ev];
    assert ErrorFrames(one) == [];
    if missing.Some? {
      var fs := EventFrames(ev, missing);
      assert fs[..1] == one;
    }
  }

  /**
    Handling one event yields its echo and, when it is a delta for an index
    that has no slot yet, one error frame for that index; nothing else.
  */
  lemma IngestEchoes(acc: Acc, ev: StreamEvent)
    ensures Echoed(Ingest(acc, ev).frames) == Echoed(acc.frames) + [ev]
    ensures ErrorFrames(Ingest(acc, ev).frames) == ErrorFrames(acc.frames)
      + (if ev.ArgumentsDelta? && !HasKey(acc.slots, ev.outputIndex) then [ev.outputIndex] else [])
    ensures |Ingest(acc, ev).frames| == |acc.frames| + 1 + (if ev.ArgumentsDelta? && !HasKey(acc.slots, ev.outputIndex) then 1 else 0)
  {
    var added := EventFrames(ev, Missing(acc, ev));
    IngestFrames(acc, ev);
    EventFramesContent(ev, Missing(acc, ev));
    EchoedAppend(acc.frames, added);
    ErrorFramesAppend(acc.frames, added);
  }

  /** The frames of a stream are those of its prefix followed by those its last event yields. */
  lemma AccumulateFrames(events: seq<StreamEvent>)
    requires events != []
    ensures var init := events[..|events| - 1];
      Accumulate(events).frames == Accumulate(init).frames + EventFrames(events[|events| - 1], Missing(Accumulate(init), events[|events| - 1]))
  {
    IngestFrames(Accumulate(events[..|events| - 1]), events[|events| - 1]);
  }

  /** The last event misses a slot exactly when it is an orphan delta. */
  lemma OrphansStep(events: seq<StreamEvent>)
    requires events != []
    ensures var init := events[..|events| - 1];
      Orphans(events) == Orphans(init) + ErrorFrames(EventFrames(events[|events| - 1], Missing(Accumulate(init), events[|events| - 1])))
  {
    var init := events[..|events| - 1];
    var ev := events[|events| - 1];
    var missing := Missing(Accumulate(init), ev);
    EventFramesContent(ev, missing);
    if ev.ArgumentsDelta? {
      SlotExists(init, ev.outputIndex);
    }
  }

  /**
    Every event of a stream is echoed as a raw frame, in order and nothing
    else is; the only other frames are one `event: error` per delta whose
    index had no slot yet, and the stream is never cut short by one.
  */
  lemma {:induction false} EveryEventEchoed(events: seq<StreamEvent>)
    ensures Echoed(Accumulate(events).frames) == events
    ensures ErrorFrames(Accumulate(events).frames) == Orphans(events)
    ensures |Accumulate(events).frames| == |events| + |Orphans(events)|
    decreases |events|
  {
    if events != [] {
      var init := events[..|events| - 1];
      var ev := events[|events| - 1];
      var before := Accumulate(init).frames;
      EveryEventEchoed(init);
      var added := EventFrames(ev, Missing(Accumulate(init), ev));
      AccumulateFrames(events);
      OrphansStep(events);
      EventFramesContent(ev, Missing(Accumulate(init), ev));
      EchoStep(events, before, added, Accumulate(events).frames, Orphans(init), Orphans(events));
    }
  }

  /** A non-empty sequence is its prefix followed by its last element. */
  lemma SplitLast<T>(s: seq<T>)
    requires s != []
    ensures s[..|s| - 1] + [s[|s| - 1]] == s
  {
  }

  /** The step of `EveryEventEchoed`, over the frames alone. */
  lemma EchoStep(events: seq<StreamEvent>, before: seq<Frame>, added: seq<Frame>, after: seq<Frame>, orphans: seq<int>, orphansAfter: seq<int>)
    requires events != [] && after == before + added
    requires Echoed(before) == events[..|events| - 1] && Echoed(added) == [events[|events| - 1]]
    requires ErrorFrames(before) == orphans && orphansAfter == orphans + ErrorFrames(added)
    requires |before| == |events| - 1 + |orphans| && |added| == 1 + |ErrorFrames(added)|
    ensures Echoed(after) == events && ErrorFrames(after) == orphansAfter
    ensures |after| == |events| + |orphansAfter|
  {
    var init := events[..|events| - 1];
    calc {
      Echoed(after);
    == { EchoedAppend(before, added); }
      Echoed(before) + Echoed(added);
    ==
      init + [events[|events| - 1]];
    == { SplitLast(events); }
      events;
    }
    ErrorFramesAppend(before, added);
  }

  /**
    The reference slot of output index `i` after a stream: absent unless a
    `function_call` item was added there, else the last such item with its
    arguments extended by every delta sent for `i` after it, in order.
  */
  function SlotSpec(events: seq<StreamEvent>, i: int): Option<FunctionCall> {
    match LastAdd(events, i)
    case None => None
    case Some(k) =>
      var c := events[k].item.call;
      Some(c.(arguments := c.arguments + DeltasAt(events[k + 1..], i)))
  }

  lemma DeltasSuffix(events: seq<StreamEvent>, k: nat, i: int)
    requires k < |events|
    ensures DeltasAt(events[k..], i) == DeltasAt(events[..|events| - 1][k..], i) + DeltaOf(events[|events| - 1], i)
  {
    assert events[k..][..|events[k..]| - 1] == events[..|events| - 1][k..];
  }

  /** How one more event changes the reference slot of `i`. */
  lemma SlotSpecStep(init: seq<StreamEvent>, ev: StreamEvent, i: int)
    ensures SlotSpec(init + [ev], i) ==
      if ev.OutputItemAdded? && ev.outputIndex == i && ev.item.FunctionCallItem? then Some(ev.item.call)
      else if ev.ArgumentsDelta? && ev.outputIndex == i then
        (match SlotSpec(init, i)
         case None => None
         case Some(c) => Some(c.(arguments := c.arguments + ev.delta)))
      else SlotSpec(init, i)
  {
    var events := init + [ev];
    assert events[..|events| - 1] == init;
    if ev.OutputItemAdded? && ev.outputIndex == i && ev.item.FunctionCallItem? {
      assert events[|events|..] == [];
      assert ev.item.call.(arguments := ev.item.call.arguments + "") == ev.item.call;
    } else if LastAdd(init, i).Some? {
      SlotSpecExtended(init, ev, i);
      var c := SlotSpec(init, i).value;
      assert c.(arguments := c.arguments + "") == c;
    } else {
      assert LastAdd(events, i).None?;
    }
  }

  /** The argument text one event adds to the slot of `i`. */
  function DeltaOf(ev: StreamEvent, i: int): string {
    if ev.ArgumentsDelta? && ev.outputIndex == i then ev.delta else ""
  }

  /** One more event that is not an add at `i`, after an add at `i`: the slot's arguments gain the event's delta for `i`. */
  lemma SlotSpecExtended(init: seq<StreamEvent>, ev: StreamEvent, i: int)
    requires !(ev.OutputItemAdded? && ev.outputIndex == i && ev.item.FunctionCallItem?)
    requires LastAdd(init, i).Some?
    ensures SlotSpec(init, i).Some?
    ensures SlotSpec(init + [ev], i) ==
      Some(SlotSpec(init, i).value.(arguments := SlotSpec(init, i).value.arguments + DeltaOf(ev, i)))
  {
    var events := init + [ev];
    var k := LastAdd(init, i).value;
    var c := init[k].item.call;
    var before := DeltasAt(init[k + 1..], i);
    LastAddKept(init, ev, i);
    DeltasExtended(init, ev, k, i);
    assert events[k] == init[k];
    assert SlotSpec(init, i) == Some(c.(arguments := c.arguments + before));
    assert SlotSpec(events, i) == Some(c.(arguments := c.arguments + (before + DeltaOf(ev, i))));
    ConcatAssoc(c.arguments, before, DeltaOf(ev, i));
  }

  lemma ConcatAssoc<T>(a: seq<T>, b: seq<T>, c: seq<T>)
    ensures a + (b + c) == (a + b) + c
  {
  }

  lemma LastAddKept(init: seq<StreamEvent>, ev: StreamEvent, i: int)
    requires !(ev.OutputItemAdded? && ev.outputIndex == i && ev.item.FunctionCallItem?)
    ensures LastAdd(init + [ev], i) == LastAdd(init, i)
  {
    assert (init + [ev])[..|init|] == init;
  }

  lemma DeltasExtended(init: seq<StreamEvent>, ev: StreamEvent, k: nat, i: int)
    requires k < |init|
    ensures DeltasAt((init + [ev])[k + 1..], i) == DeltasAt(init[k + 1..], i) + DeltaOf(ev, i)
  {
    var events := init + [ev];
    DeltasSuffix(events, k + 1, i);
    assert events[..|events| - 1] == init;
  }

  /** An output index has a slot exactly when a `function_call` item was added there. */
  lemma SlotExists(events: seq<StreamEvent>, i: int)
    ensures HasKey(Accumulate(events).slots, i) <==> LastAdd(events, i).Some?
  {
    SlotsFollowAdds(events, i);
  }

  /**
    The slots are kept in the order their indices were first announced, one
    per announced index: a repeated announcement or an argument delta
    rewrites a slot where it stands.
  */
  lemma {:induction false} SlotOrder(events: seq<StreamEvent>)
    ensures Keys(Accumulate(events).slots) == Announced(events)
    decreases |events|
  {
    if events != [] {
      var init := events[..|events| - 1];
      SlotOrder(init);
    }
  }

  /** The slots the host accumulates are the reference slots. */
  lemma {:induction false} SlotsFollowAdds(events: seq<StreamEvent>, i: int)
    ensures Get(Accumulate(events).slots, i) == SlotSpec(events, i)
    decreases |events|
  {
    if events != [] {
      var init := events[..|events| - 1];
      var ev := events[|events| - 1];
      var acc := Accumulate(init);
      assert init + [ev] == events;
      SlotSpecStep(init, ev, i);
      SlotsFollowAdds(init, i);
      match ev
      case OutputItemAdded(j, item) =>
        if item.FunctionCallItem? {
          PutGet(acc.slots, j, item.call, i);
        }
      case ArgumentsDelta(j, d) =>
        if Get(acc.slots, j).Some? {
          PutGet(acc.slots, j, Get(acc.slots, j).value.(arguments := Get(acc.slots, j).value.arguments + d), i);
        }
      case Completed(_) =>
      case OtherEvent(_) =>
    }
  }

  /** A call announced first and then streamed in pieces ends up with the pieces joined, in order. */
  lemma AnnouncedCallJoined(i: int, c: FunctionCall, pieces: seq<string>)
    ensures var events := [OutputItemAdded(i, FunctionCallItem(c))] + seq(|pieces|, k requires 0 <= k < |pieces| => ArgumentsDelta(i, pieces[k]));
      Get(Accumulate(events).slots, i) == Some(c.(arguments := c.arguments + Concat(pieces)))
  {
    var deltas := seq(|pieces|, k requires 0 <= k < |pieces| => ArgumentsDelta(i, pieces[k]));
    var events := [OutputItemAdded(i, FunctionCallItem(c))] + deltas;
    SlotsFollowAdds(events, i);
    LastAddAnnounced(i, c, deltas);
    assert events[0].item.call == c;
    assert events[1..] == deltas;
    DeltasOfPieces(i, pieces);
  }

  /** The strings of a list joined in order (`"".join(pieces)`). */
  function Concat(pieces: seq<string>): string
    decreases |pieces|
  {
    if pieces == [] then "" else Concat(pieces[..|pieces| - 1]) + pieces[|pieces| - 1]
  }

  lemma {:induction false} LastAddAnnounced(i: int, c: FunctionCall, deltas: seq<StreamEvent>)
    requires forall k :: 0 <= k < |deltas| ==> deltas[k].ArgumentsDelta?
    ensures LastAdd([OutputItemAdded(i, FunctionCallItem(c))] + deltas, i) == Some(0)
    decreases |deltas|
  {
    var events := [OutputItemAdded(i, FunctionCallItem(c))] + deltas;
    if deltas == [] {
      assert events == [OutputItemAdded(i, FunctionCallItem(c))];
      assert events[..0] == [];
    } else {
      assert events[..|events| - 1] == [OutputItemAdded(i, FunctionCallItem(c))] + deltas[..|deltas| - 1];
      LastAddAnnounced(i, c, deltas[..|deltas| - 1]);
    }
  }

  lemma {:induction false} DeltasOfPieces(i: int, pieces: seq<string>)
    ensures DeltasAt(seq(|pieces|, k requires 0 <= k < |pieces| => ArgumentsDelta(i, pieces[k])), i) == Concat(pieces)
    decreases |pieces|
  {
    var deltas := seq(|pieces|, k requires 0 <= k < |pieces| => ArgumentsDelta(i, pieces[k]));
    if pieces != [] {
      var init := pieces[..|pieces| - 1];
      assert deltas[..|deltas| - 1] == seq(|init|, k requires 0 <= k < |init| => ArgumentsDelta(i, init[k]));
      DeltasOfPieces(i, init);
    }
  }

  /** The completed response is recorded exactly when the stream carried one. */
  lemma {:induction false} CompletedRecorded(events: seq<StreamEvent>)
    ensures Accumulate(events).completed.Some? <==> HasCompleted(events)
    decreases |events|
  {
    if events != [] {
      var init := events[..|events| - 1];
      CompletedRecorded(init);
      if HasCompleted(init) {
        var k :| 0 <= k < |init| && init[k].Completed?;
        assert events[k] == init[k];
      }
      if HasCompleted(events) && !events[|events| - 1].Completed? {
        var k :| 0 <= k < |events| && events[k].Completed?;
        assert init[k] == events[k];
      }
    }
  }

  // ---------------------------------------------------------------- the whole stream

  /** The frames already yielded, followed by the rest of a run. */
  function Continue(yielded: seq<Frame>, run: StreamRun): StreamRun {
    StreamRun(yielded + run.frames, run.outcome)
  }

  /** The frames already yielded, followed by the `full_flow` frame of a finished loop. */
  function Done(yielded: seq<Frame>, st: LoopState): StreamRun {
    StreamRun(yielded + [FullFlowFrame(Respond(st))], Finished(Respond(st)))
  }

  /** One model call of the streaming loop, seen from frames already yielded. */
  lemma ContinueStep(reg: Registry, env: Env, p: Params, turns: seq<seq<StreamEvent>>, st: LoopState, yielded: seq<Frame>,
                     acc: Acc, next: LoopState, more: bool)
    requires turns != [] && forall t :: 0 <= t < |turns| ==> HasCompleted(turns[t])
    requires acc == Accumulate(turns[0]) && acc.completed.Some?
    requires (next, more) == StreamTurn(reg, env, p, st, acc)
    ensures forall t :: 0 <= t < |turns[1..]| ==> HasCompleted(turns[1..][t])
    ensures Continue(yielded, RunStream(reg, env, p, turns, st)) ==
      if more then Continue(yielded + acc.frames, RunStream(reg, env, p, turns[1..], next))
      else Done(yielded + acc.frames, next)
  {
    RunStreamUnfold(reg, env, p, turns, st, acc, next, more);
    if more {
      ContinueAppend(yielded, acc.frames, RunStream(reg, env, p, turns[1..], next));
    } else {
      DoneAppend(yielded, acc.frames, next);
    }
  }

  lemma ContinueAppend(yielded: seq<Frame>, front: seq<Frame>, run: StreamRun)
    ensures Continue(yielded, StreamRun(front + run.frames, run.outcome)) == Continue(yielded + front, run)
  {
    assert yielded + (front + run.frames) == yielded + front + run.frames;
  }

  lemma DoneAppend(yielded: seq<Frame>, front: seq<Frame>, st: LoopState)
    ensures Continue(yielded, StreamRun(front + [FullFlowFrame(Respond(st))], Finished(Respond(st)))) == Done(yielded + front, st)
  {
    assert yielded + (front + [FullFlowFrame(Respond(st))]) == yielded + front + [FullFlowFrame(Respond(st))];
  }

  /** `RunStream` of a non-empty script, in terms of its first model call. */
  lemma RunStreamUnfold(reg: Registry, env: Env, p: Params, turns: seq<seq<StreamEvent>>, st: LoopState,
                        acc: Acc, next: LoopState, more: bool)
    requires turns != [] && forall t :: 0 <= t < |turns| ==> HasCompleted(turns[t])
    requires acc == Accumulate(turns[0]) && acc.completed.Some?
    requires (next, more) == StreamTurn(reg, env, p, st, acc)
    ensures forall t :: 0 <= t < |turns[1..]| ==> HasCompleted(turns[1..][t])
    ensures RunStream(reg, env, p, turns, st) ==
      if more then StreamRun(acc.frames + RunStream(reg, env, p, turns[1..], next).frames, RunStream(reg, env, p, turns[1..], next).outcome)
      else StreamRun(acc.frames + [FullFlowFrame(Respond(next))], Finished(Respond(next)))
  {
    forall t | 0 <= t < |turns[1..]| ensures HasCompleted(turns[1..][t]) {
      assert turns[1..][t] == turns[t + 1];
    }
  }

  /**
    A streaming query that finishes yields exactly one `full_flow` frame,
    as its last frame, carrying the result; one that runs out of streams
    yields none.
  */
  lemma {:induction false} OneFinalFrame(reg: Registry, env: Env, p: Params, turns: seq<seq<StreamEvent>>, st: LoopState)
    requires forall t :: 0 <= t < |turns| ==> HasCompleted(turns[t])
    ensures var run := RunStream(reg, env, p, turns, st);
      match run.outcome
      case Finished(r) =>
        && run.frames != [] && run.frames[|run.frames| - 1] == FullFlowFrame(r)
        && forall k :: 0 <= k < |run.frames| - 1 ==> !run.frames[k].FullFlowFrame?
      case ScriptExhausted(_) => forall k :: 0 <= k < |run.frames| ==> !run.frames[k].FullFlowFrame?
    decreases |turns|
  {
    if turns != [] {
      var acc := Accumulate(turns[0]);
      CompletedRecorded(turns[0]);
      NoFinalFrameInStream(turns[0]);
      var (next, more) := StreamTurn(reg, env, p, st, acc);
      if more {
        assert forall t :: 0 <= t < |turns[1..]| ==> HasCompleted(turns[1..][t]) by {
          forall t | 0 <= t < |turns[1..]| ensures HasCompleted(turns[1..][t]) {
            assert turns[1..][t] == turns[t + 1];
          }
        }
        OneFinalFrame(reg, env, p, turns[1..], next);
      }
    }
  }

  /** The frames of one model call's stream are raw and error frames only. */
  lemma {:induction false} NoFinalFrameInStream(events: seq<StreamEvent>)
    ensures forall k :: 0 <= k < |Accumulate(events).frames| ==> !Accumulate(events).frames[k].FullFlowFrame?
    decreases |events|
  {
    if events != [] {
      NoFinalFrameInStream(events[..|events| - 1]);
    }
  }

  // ---------------------------------------------------------------- the flow of a streaming query

  /** The calls of items made from calls are those calls. */
  lemma {:induction false} RequestedOfItems(calls: seq<FunctionCall>)
    ensures RequestedCalls(AsItems(calls)) == calls
    decreases |calls|
  {
    if calls != [] {
      var init := calls[..|calls| - 1];
      assert AsItems(calls)[..|calls| - 1] == AsItems(init);
      RequestedOfItems(init);
    }
  }

  /** One streaming iteration keeps the flow coherent, as the non-streaming one does. */
  lemma StreamTurnCoherent(reg: Registry, env: Env, p: Params, st: LoopState, acc: Acc)
    requires Coherent(st) && acc.completed.Some?
    ensures var (next, more) := StreamTurn(reg, env, p, st, acc);
      && st.flow <= next.flow
      && FlowCoherent(next.flow, next.errorInfo)
      && (more ==> Answered(next.messages))
  {
    var call := LlmApiCall(Model, Request(p, st.messages), acc.completed.value);
    CalledCoherent(st.flow, st.errorInfo, call);
    if |acc.slots| > 0 {
      var calls := Values(acc.slots);
      RequestedOfItems(calls);
      ToolTurnCoherent(reg, env, st.(flow := st.flow + [call]), AsItems(calls));
    }
  }

  /** The streaming loop keeps the flow coherent and only ever appends to it. */
  lemma {:induction false} RunStreamCoherent(reg: Registry, env: Env, p: Params, turns: seq<seq<StreamEvent>>, st: LoopState)
    requires forall t :: 0 <= t < |turns| ==> HasCompleted(turns[t])
    requires Coherent(st)
    ensures match RunStream(reg, env, p, turns, st).outcome
      case Finished(r) => st.flow <= r.flow && FlowCoherent(r.flow, r.error)
      case ScriptExhausted(last) => st.flow <= last.flow && Coherent(last)
    decreases |turns|
  {
    if turns != [] {
      var acc := Accumulate(turns[0]);
      CompletedRecorded(turns[0]);
      StreamTurnCoherent(reg, env, p, st, acc);
      var (next, more) := StreamTurn(reg, env, p, st, acc);
      if more {
        assert forall t :: 0 <= t < |turns[1..]| ==> HasCompleted(turns[1..][t]) by {
          forall t | 0 <= t < |turns[1..]| ensures HasCompleted(turns[1..][t]) {
            assert turns[1..][t] == turns[t + 1];
          }
        }
        RunStreamCoherent(reg, env, p, turns[1..], next);
      }
    }
  }

  /** The `full_flow` result of a streaming query has an `"error"` key exactly when its flow logged an error. */
  lemma StreamQueryCoherent(reg: Registry, env: Env, p: Params, turns: seq<seq<StreamEvent>>, query: string)
    requires forall t :: 0 <= t < |turns| ==> HasCompleted(turns[t])
    requires RunStream(reg, env, p, turns, Start(query)).outcome.Finished?
    ensures var r := RunStream(reg, env, p, turns, Start(query)).outcome.response;
      FlowCoherent(r.flow, r.error)
  {
    RunStreamCoherent(reg, env, p, turns, Start(query));
  }
}
