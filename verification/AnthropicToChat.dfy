/** The Anthropic -> Responses -> Chat chain: what an Anthropic stream says, read directly,
    is what a Chat Completions client joins together. */
module AnthropicToChat {
  import opened Text
  import opened ResponsesEvents
  import A = AnthropicEvents
  import opened M = ResponsesMeaning
  import R = AnthropicToResponsesSpec
  import C = ResponsesToChatSpec
  import Sse
  import ChatFinish
  import AnthropicToResponses
  import ResponsesToChat

  /** What has been heard: whether a dropped block is running, whether the latest block is a
      tool call still being written, whether the message has stopped, and the answer so far. */
  datatype Heard = Heard(skipping: bool, inCall: bool, stopped: bool, answer: Answer)

  function AppendArgs(calls: seq<Call>, json: string): seq<Call> {
    if calls == [] then calls else
    var n := |calls| - 1;
    calls[n := calls[n].(args := calls[n].args + json)]
  }

  function Hear(h: Heard, e: R.Input): Heard {
    var a := h.answer;
    match e
    case BlockStart(Some(b)) =>
      (match b
       case ThinkingBlock => h.(inCall := false)
       case TextBlock => h.(inCall := false)
       case ToolUseBlock(id, name) => h.(inCall := true, answer := a.(calls := a.calls + [Call(id, name, "")]))
       case _ => h.(skipping := true))
    case BlockDelta(Some(d)) =>
      if h.skipping then h else
      (match d
       case TextPiece(t) => h.(answer := a.(text := a.text + t))
       case ThinkingPiece(t) => h.(answer := a.(reasoning := a.reasoning + t))
       case JsonPiece(j) => if h.inCall then h.(answer := a.(calls := AppendArgs(a.calls, j))) else h)
    case BlockStop => if h.skipping then h.(skipping := false) else h.(inCall := false)
    case MessageStop => if h.stopped then h else h.(inCall := false, stopped := true)
    case _ => h
  }

  function HearAll(events: seq<R.Input>): Heard {
    if events == [] then Heard(false, false, false, Answer("", "", []))
    else Hear(HearAll(events[..|events| - 1]), events[|events| - 1])
  }

  /** No tool call has been announced at an output index from k on. */
  ghost predicate FreeFrom(out: seq<Event>, k: int) {
    forall x :: x >= k ==> Owner(out, x).None?
  }

  ghost predicate Agrees(s: R.State, h: Heard) {
    && Meaning(s.out) == h.answer && s.skipping == h.skipping && s.completed == h.stopped
    && (s.current.kind.FunctionCall? <==> h.inCall)
    && FreeFrom(s.out, s.counters.index + if h.inCall then 1 else 0)
    && (h.inCall ==> Starts(s.out) != [] && Owner(s.out, s.counters.index) == Some(Starts(s.out)[|Starts(s.out)| - 1]))
  }

  /** An event that has nothing to do with tool calls, and one that says nothing at all. */
  predicate Plain(body: Body) {
    !body.ArgsDelta? && !body.ItemAdded?
  }

  predicate Mute(body: Body) {
    Plain(body) && !body.TextDelta? && !body.ReasoningDelta?
  }

  lemma EmitPlain(s: R.State, body: Body)
    requires Plain(body)
    ensures var t, m := R.Emit(s, body), Meaning(s.out);
            && Meaning(t.out) == m.(text := m.text + (if body.TextDelta? then body.delta else ""),
                                    reasoning := m.reasoning + if body.ReasoningDelta? then body.delta else "")
            && Starts(t.out) == Starts(s.out) && forall k :: Owner(t.out, k) == Owner(s.out, k)
  {
    var e := Event(s.counters.seqNo, body);
    Extend(s.out, e);
    hide Owner, Starts, Spoken, Thought, Args, Calls;
    CallsPointwise(s.out, e);
    forall c: Call ensures c.(args := c.args + "") == c { assert c.args + "" == c.args; }
  }

  lemma EmitMute(s: R.State, body: Body)
    requires Mute(body)
    ensures var t := R.Emit(s, body);
            Meaning(t.out) == Meaning(s.out) && Starts(t.out) == Starts(s.out) && forall k :: Owner(t.out, k) == Owner(s.out, k)
  {
    hide Owner, Starts, Spoken, Thought, Calls;
    EmitPlain(s, body);
    forall t: string ensures t + "" == t { }
  }

  lemma CallsCounted(out: seq<Event>)
    ensures |Calls(out)| == |Starts(out)|
  {
  }

  lemma CloseAgrees(s: R.State, h: Heard)
    requires Agrees(s, h)
    ensures Agrees(R.CloseItem(s), h.(inCall := false)) && !R.CloseItem(s).current.kind.FunctionCall?
  {
    hide Meaning, Owner, Starts;
    if !s.current.kind.Absent? {
      var t := s.(current := R.NOTHING, buffers := R.Buffers("", "", ""), counters := s.counters.(index := s.counters.index + 1));
      EmitMute(t, ItemDone(s.counters.index, R.ItemOf(s.current, R.Gathered(s.current, s.buffers), true)));
    }
  }

  lemma OpenAgrees(s: R.State, h: Heard, kind: ItemKind, callId: Id, name: string)
    requires Agrees(s, h) && kind in {Message, Reasoning, FunctionCall}
    ensures var a := h.answer;
            Agrees(R.OpenItem(s, kind, callId, name),
                   if kind.FunctionCall? then h.(inCall := true, answer := a.(calls := a.calls + [Call(callId, name, "")]))
                   else h.(inCall := false))
  {
    hide Owner, Starts, Spoken, Thought, Args, Calls, R.CloseItem;
    CloseAgrees(s, h);
    var t := R.CloseItem(s);
    var item := R.ItemOf(R.Current(kind, Fresh(t.counters.serial), callId, name), "", false);
    var e := Event(t.counters.seqNo, ItemAdded(t.counters.index, item));
    Extend(t.out, e);
    CallsPointwise(t.out, e);
    CallsCounted(t.out);
    CallsCounted(t.out + [e]);
    assert Spoken(t.out) + "" == Spoken(t.out) && Thought(t.out) + "" == Thought(t.out);
    forall c: Call ensures c.(args := c.args + "") == c { assert c.args + "" == c.args; }
    assert Calls(t.out + [e]) == Calls(t.out) + if kind.FunctionCall? then [Call(callId, name, "")] else [];
  }

  lemma BlockAgrees(s: R.State, h: Heard, block: A.Block)
    requires Agrees(s, h)
    ensures Agrees(R.StartBlock(s, block), Hear(h, R.BlockStart(Some(block))))
  {
    hide Meaning, Owner, Starts, R.CloseItem;
    match block
    case ThinkingBlock =>
      OpenAgrees(s, h, Reasoning, NoId, "");
      var t := R.OpenItem(s, Reasoning, NoId, "");
      EmitMute(t, SummaryPartAdded(t.counters.index, t.current.id));
    case TextBlock =>
      OpenAgrees(s, h, Message, NoId, "");
      var t := R.OpenItem(s, Message, NoId, "");
      EmitMute(t, PartAdded(t.counters.index, t.current.id));
    case ToolUseBlock(id, name) => OpenAgrees(s, h, FunctionCall, id, name);
    case _ =>
  }

  lemma JsonAgrees(s: R.State, h: Heard, json: string)
    requires Agrees(s, h) && !h.skipping && json != ""
    ensures Agrees(R.AddDelta(s, A.JsonPiece(json)), Hear(h, R.BlockDelta(Some(A.JsonPiece(json)))))
  {
    hide Owner, Starts, Spoken, Thought, Args, Calls;
    forall t: string ensures t + "" == t { }
    forall c: Call ensures c.(args := c.args + "") == c { assert c.args + "" == c.args; }
    var e := Event(s.counters.seqNo, ArgsDelta(s.counters.index, s.current.id, json, s.current.callId, s.current.name));
    Extend(s.out, e);
    CallsPointwise(s.out, e);
    CallsCounted(s.out);
    StartsInside(s.out);
    assert Calls(s.out + [e]) == if h.inCall then AppendArgs(Calls(s.out), json) else Calls(s.out);
  }

  lemma DeltaAgrees(s: R.State, h: Heard, delta: A.Delta)
    requires Agrees(s, h)
    ensures Agrees(R.AddDelta(s, delta), Hear(h, R.BlockDelta(Some(delta))))
  {
    hide Owner, Starts, Meaning;
    forall t: string ensures t + "" == t { }
    forall c: Call ensures c.(args := c.args + "") == c { assert c.args + "" == c.args; }
    assert h.answer.calls != [] ==> AppendArgs(h.answer.calls, "") == h.answer.calls;
    var i, id := s.counters.index, s.current.id;
    match delta
    case TextPiece(d) =>
      EmitPlain(s.(buffers := s.buffers.(text := s.buffers.text + d)), TextDelta(i, id, d));
    case ThinkingPiece(d) =>
      EmitPlain(s.(buffers := s.buffers.(reasoning := s.buffers.reasoning + d)), ReasoningDelta(i, id, d));
    case JsonPiece(d) => if d != "" && !h.skipping { JsonAgrees(s, h, d); }
  }

  lemma StopAgrees(s: R.State, h: Heard)
    requires Agrees(s, h)
    ensures Agrees(R.StopBlock(s), Hear(h, R.BlockStop))
  {
    hide Meaning, Owner, Starts, R.CloseItem, FreeFrom;
    var i, c := s.counters.index, s.current;
    match c.kind
    case Reasoning =>
      var a, b := SummaryTextDone(i, c.id, s.buffers.reasoning), SummaryPartDone(i, c.id, s.buffers.reasoning);
      EmitMuteAgrees(s, h, a);
      EmitMuteAgrees(R.Emit(s, a), h, b);
      CloseAgrees(R.Emit(R.Emit(s, a), b), h);
    case FunctionCall =>
      var a := ArgsDone(i, c.id, c.callId, c.name, s.buffers.args);
      EmitMuteAgrees(s, h, a);
      CloseAgrees(R.Emit(s, a), h);
    case Message =>
      var a, b := TextDone(i, c.id, s.buffers.text), PartDone(i, c.id, s.buffers.text);
      EmitMuteAgrees(s, h, a);
      EmitMuteAgrees(R.Emit(s, a), h, b);
    case _ =>
  }

  lemma EmitMuteAgrees(s: R.State, h: Heard, body: Body)
    requires Agrees(s, h) && Mute(body)
    ensures Agrees(R.Emit(s, body), h)
  {
    hide Meaning, Owner, Starts;
    EmitMute(s, body);
  }

  lemma StepAgrees(s: R.State, h: Heard, e: R.Input)
    requires Agrees(s, h)
    ensures Agrees(R.Step(s, e), Hear(h, e))
  {
    hide Meaning, Owner, Starts, R.CloseItem, FreeFrom, R.StartBlock, R.AddDelta, R.StopBlock;
    match e
    case MessageStart => EmitMuteAgrees(s.(created := true), h, Created);
    case BlockStart(Some(block)) => BlockAgrees(s, h, block);
    case BlockDelta(Some(delta)) => DeltaAgrees(s, h, delta);
    case BlockStop => StopAgrees(s, h);
    case MessageStop =>
      CloseAgrees(s, h);
      EmitMuteAgrees(R.CloseItem(s), h.(inCall := false), Terminal(Some(Completed), []));
    case _ =>
  }

  lemma {:induction false} AllAgree(events: seq<R.Input>)
    ensures Agrees(R.Run(R.INITIAL, events), HearAll(events))
  {
    hide Agrees;
    if events == [] {
      StartAgrees();
    } else {
      AllAgree(events[..|events| - 1]);
      StepAgrees(R.Run(R.INITIAL, events[..|events| - 1]), HearAll(events[..|events| - 1]), events[|events| - 1]);
    }
  }

  lemma StartAgrees()
    ensures Agrees(R.INITIAL, HearAll([]))
  {
    assert Calls([]) == [];
  }

  /** Nothing is lost, duplicated or reordered across the two translators: the client's text,
      reasoning and tool calls are those of the Anthropic stream, dropped blocks apart. */
  lemma ChainKeepsAnswer(events: seq<R.Input>)
    ensures var out := R.Run(R.INITIAL, events).out;
            C.JoinChunks(C.Run(C.INITIAL, out).out) == HearAll(events).answer == C.GatherAll(out).gathered
  {
    AllAgree(events);
    C.BothKeepMeaning(R.Run(R.INITIAL, events).out);
    hide R.Run, C.Run, HearAll, Meaning, C.JoinChunks, C.GatherAll, Owner, Starts, IndexTracks;
  }

  // ---- why it ended --------------------------------------------------------------------

  /** The finish reasons an Anthropic stream stands for: one, at its first message stop, for tool
      calls when some call had been heard by then. */
  function HeardFinish(events: seq<R.Input>): seq<C.FinishReason> {
    if events == [] then [] else
    var before, e := events[..|events| - 1], events[|events| - 1];
    if e.MessageStop? && !HearAll(before).stopped
    then HeardFinish(before) + [if HearAll(before).answer.calls != [] then C.ToolCalls else C.Stop]
    else HeardFinish(before)
  }

  /** The stream says nothing of an end from position n on. */
  predicate NoEnd(out: seq<Event>, n: nat) {
    forall i :: n <= i < |out| ==> !out[i].body.Terminal?
  }

  lemma {:induction false} FinishesKept(out: seq<Event>, more: seq<Event>)
    requires out <= more && NoEnd(more, |out|)
    ensures ChatFinish.Finishes(C.Run(C.INITIAL, more).out) == ChatFinish.Finishes(C.Run(C.INITIAL, out).out)
    decreases |more|
  {
    hide C.Step, ChatFinish.Finishes;
    if out == more {
    } else {
      var n := |more| - 1;
      FinishesKept(out, more[..n]);
      ChatFinish.StepAdds(C.Run(C.INITIAL, more[..n]), more[n]);
    }
  }

  lemma OpenNoEnd(s: R.State, kind: ItemKind, callId: Id, name: string)
    ensures s.out <= R.CloseItem(s).out && NoEnd(R.CloseItem(s).out, |s.out|)
    ensures s.out <= R.OpenItem(s, kind, callId, name).out && NoEnd(R.OpenItem(s, kind, callId, name).out, |s.out|)
  {
  }

  lemma BlockNoEnd(s: R.State, block: A.Block)
    ensures s.out <= R.StartBlock(s, block).out && NoEnd(R.StartBlock(s, block).out, |s.out|)
  {
    OpenNoEnd(s, Reasoning, NoId, "");
    OpenNoEnd(s, Message, NoId, "");
    if block.ToolUseBlock? { OpenNoEnd(s, FunctionCall, block.id, block.name); }
    hide R.OpenItem;
  }

  lemma StopNoEnd(s: R.State)
    ensures s.out <= R.StopBlock(s).out && NoEnd(R.StopBlock(s).out, |s.out|)
  {
    var i, c := s.counters.index, s.current;
    OpenNoEnd(R.Emit(s, ArgsDone(i, c.id, c.callId, c.name, s.buffers.args)), Message, NoId, "");
    OpenNoEnd(R.Emit(R.Emit(s, SummaryTextDone(i, c.id, s.buffers.reasoning)), SummaryPartDone(i, c.id, s.buffers.reasoning)),
              Message, NoId, "");
    hide R.CloseItem, R.OpenItem;
  }

  lemma StepNoEnd(s: R.State, e: R.Input)
    requires !(e.MessageStop? && !s.completed)
    ensures s.out <= R.Step(s, e).out && NoEnd(R.Step(s, e).out, |s.out|)
  {
    hide R.StartBlock, R.StopBlock, R.CloseItem, R.OpenItem;
    match e
    case BlockStart(Some(block)) => BlockNoEnd(s, block);
    case BlockStop => StopNoEnd(s);
    case _ =>
  }

  /** The one end of the stream. */
  lemma EndFinishes(s: R.State, h: Heard)
    requires Agrees(s, h) && !s.completed
    ensures ChatFinish.Finishes(C.Run(C.INITIAL, R.Stop(s).out).out) ==
            ChatFinish.Finishes(C.Run(C.INITIAL, s.out).out) + [if h.answer.calls != [] then C.ToolCalls else C.Stop]
  {
    CloseAgrees(s, h);
    OpenNoEnd(s, Message, NoId, "");
    var t := R.CloseItem(s);
    var e := Event(t.counters.seqNo, Terminal(Some(Completed), []));
    hide R.CloseItem, C.Step, C.Run, ChatFinish.Finishes, Owner, Starts, Calls, FreeFrom;
    FinishesKept(s.out, t.out);
    ChatFinish.CallsAreAnnounced(t.out);
    ChatFinish.TerminalFits(t.out, e);
    ChatFinish.StepAdds(C.Run(C.INITIAL, t.out), e);
    C.RunOne(C.INITIAL, t.out, e);
    hide ChatFinish.SomeCall;
    var a, b := C.Run(C.INITIAL, t.out), C.Step(C.Run(C.INITIAL, t.out), e);
    ChatFinish.FinishesOne(a.out, b.out[|a.out|]);
  }

  /** A chat client is told why the answer ended once, at the message stop. */
  lemma {:induction false} ChainFinishes(events: seq<R.Input>)
    ensures ChatFinish.Finishes(C.Run(C.INITIAL, R.Run(R.INITIAL, events).out).out) == HeardFinish(events)
  {
    hide R.Step, C.Run, ChatFinish.Finishes, Agrees;
    if events == [] {
      assert R.Run(R.INITIAL, events).out == [];
      assert ChatFinish.Finishes(C.Run(C.INITIAL, []).out) == [] by { C.RunNothing(C.INITIAL); NoFinishes(); }
    } else {
      var before, e := events[..|events| - 1], events[|events| - 1];
      ChainFinishes(before);
      AllAgree(before);
      var s := R.Run(R.INITIAL, before);
      assert s.completed == HearAll(before).stopped by { Stopped(s, HearAll(before)); }
      if e.MessageStop? && !s.completed {
        EndFinishes(s, HearAll(before));
        assert R.Step(s, e) == R.Stop(s) by { StepStops(s); }
      } else {
        StepNoEnd(s, e);
        FinishesKept(s.out, R.Step(s, e).out);
      }
    }
  }

  lemma NoFinishes()
    ensures ChatFinish.Finishes([]) == []
  {
  }

  lemma Stopped(s: R.State, h: Heard)
    requires Agrees(s, h)
    ensures s.completed == h.stopped
  {
  }

  lemma StepStops(s: R.State)
    ensures R.Step(s, R.MessageStop) == R.Stop(s)
  {
  }

  // ---- the pump ------------------------------------------------------------------------

  /** A stopped message has finished the chat stream as well. */
  lemma StoppedIsFinalized(inputs: seq<R.Input>)
    ensures var s := R.Run(R.INITIAL, inputs);
            && (s.completed ==> C.Run(C.INITIAL, s.out).finalized)
            && !ResponsesToChat.Cut(C.Run(C.INITIAL, s.out).out)
            && (s.completed <==> R.Stopped(inputs))
  {
    var s := R.Run(R.INITIAL, inputs);
    R.EveryRunIsFaithful(inputs);
    R.WellPlacedTerminals(s.out);
    ResponsesToChat.FinalizedMeans(s.out);
    R.StoppedMeans(inputs);
    hide R.Run, C.Run, R.Read, R.Unused, ResponsesToChat.Cut;
  }

  /** Translates one upstream event and hands the new Responses events to the chat translator. */
  method Relay(anthropic: AnthropicToResponses.StreamState, chat: ResponsesToChat.StreamState, log: seq<Event>,
               before: seq<C.Chunk>, input: R.Input)
    returns (events: seq<Event>, written: seq<C.Chunk>)
    requires chat.Abs(before) == C.Run(C.INITIAL, log)
    modifies anthropic, chat
    ensures anthropic.Abs(events) == R.Step(old(anthropic.Abs(log)), input)
    ensures chat.Abs(written) == C.Run(C.INITIAL, events)
  {
    hide R.Step, C.Step, C.Run;
    StepGrows(anthropic.Abs(log), input);
    events := anthropic.Convert(log, input);
    written := before;
    assert events[..|log|] == log;
    for i := |log| to |events|
      invariant anthropic.Abs(events) == R.Step(old(anthropic.Abs(log)), input)
      invariant chat.Abs(written) == C.Run(C.INITIAL, events[..i])
    {
      written := chat.Convert(written, events[i]);
      C.RunOne(C.INITIAL, events[..i], events[i]);
      assert events[..i] + [events[i]] == events[..i + 1];
    }
    assert events[..|events|] == events;
  }

  lemma StepGrows(s: R.State, e: R.Input)
    ensures s.out <= R.Step(s, e).out
  {
    OpenNoEnd(s, Message, NoId, "");
    if e.MessageStop? && !s.completed {
      StepStops(s);
      hide R.Step, R.CloseItem, R.OpenItem;
    } else {
      StepNoEnd(s, e);
    }
  }

  /** Serves the lines of an Anthropic upstream to a Chat Completions client, and then writes
      the [DONE] line. */
  method PumpAnthropicToChat(decode: AnthropicToResponses.Decoder, lines: seq<string>, broken: bool)
    returns (written: seq<C.Chunk>)
    ensures written == Delivered(AnthropicToResponses.Inputs(decode, lines), broken)
  {
    var anthropic := new AnthropicToResponses.StreamState();
    var chat := new ResponsesToChat.StreamState();
    var log := [];
    written := [];
    assert lines[..0] == [];
    hide R.Step, C.Step, C.Run;
    assert C.Run(C.INITIAL, []) == C.INITIAL by { C.RunNothing(C.INITIAL); }
    for n := 0 to |lines|
      invariant fresh(anthropic) && fresh(chat)
      invariant anthropic.Abs(log) == R.Run(R.INITIAL, AnthropicToResponses.Inputs(decode, lines[..n]))
      invariant chat.Abs(written) == C.Run(C.INITIAL, log)
    {
      assert lines[..n + 1][..n] == lines[..n];
      var data := Sse.Data(lines[n]);
      if data.None? { continue; }
      var input := decode(data.value);
      if input.None? { continue; }
      ghost var inputs := AnthropicToResponses.Inputs(decode, lines[..n]);
      log, written := Relay(anthropic, chat, log, written, input.value);
      assert (inputs + [input.value])[..|inputs|] == inputs;
    }
    assert lines[..|lines|] == lines;
    StoppedIsFinalized(AnthropicToResponses.Inputs(decode, lines));
    written := ResponsesToChat.Conclude(chat, written, anthropic.completedSent && !broken);
  }

  function Delivered(inputs: seq<R.Input>, broken: bool): seq<C.Chunk> {
    var s := R.Run(R.INITIAL, inputs);
    var chunks := C.Run(C.INITIAL, s.out).out;
    if s.completed && !broken then chunks else chunks + ResponsesToChat.ERROR_CHUNK
  }

  /** The whole answer always arrives, and the stream is marked as cut exactly when the
      connection broke or the upstream never stopped its message. */
  lemma PumpKeepsAnswer(inputs: seq<R.Input>, broken: bool)
    ensures var written, answer := Delivered(inputs, broken), HearAll(inputs).answer;
            && (ResponsesToChat.Cut(written) <==> broken || !R.Stopped(inputs))
            && C.JoinChunks(written) ==
               (if ResponsesToChat.Cut(written) then answer.(text := answer.text + ResponsesToChat.INTERRUPTION) else answer)
            && ChatFinish.Finishes(written) == HeardFinish(inputs) + if ResponsesToChat.Cut(written) then [C.ErrorFinish] else []
  {
    ChainFinishes(inputs);
    ResponsesToChat.ErrorChunkFinishes(C.Run(C.INITIAL, R.Run(R.INITIAL, inputs).out).out);
    ChainKeepsAnswer(inputs);
    StoppedIsFinalized(inputs);
    ResponsesToChat.ErrorChunkJoins(C.Run(C.INITIAL, R.Run(R.INITIAL, inputs).out).out);
    hide R.Run, C.Run, HearAll, C.JoinChunks, ChatFinish.Finishes, HeardFinish;
  }
}
