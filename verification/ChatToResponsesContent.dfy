/** What the Responses stream of a chat answer says, as it streams and in the output array of its
    terminal event. */
module ChatToResponsesContent {
  import opened Text
  import opened ResponsesEvents
  import C = ChatToResponsesSpec
  import opened H = FragmentHistory
  import Chain = ChatToAnthropicChain
  import M = ResponsesMeaning
  import R = ResponsesToChatSpec
  import P = ChatToResponsesPump

  /** The deltas sent so far are the text and the reasoning gathered so far. */
  ghost predicate Told(s: C.State) {
    M.Spoken(s.out) == s.message.text && M.Thought(s.out) == s.reasoning.text
  }

  lemma EmitTells(s: C.State, body: Body)
    ensures var t := C.Emit(s, body);
            && M.Spoken(t.out) == M.Spoken(s.out) + (if body.TextDelta? then body.delta else "")
            && M.Thought(t.out) == M.Thought(s.out) + (if body.ReasoningDelta? then body.delta else "")
  {
    M.Extend(s.out, Event(s.counters.seqNo, body));
  }

  lemma EmitSilent(s: C.State, body: Body)
    requires Told(s) && !body.TextDelta? && !body.ReasoningDelta?
    ensures Told(C.Emit(s, body))
  {
    hide M.Spoken, M.Thought;
    EmitTells(s, body);
    forall t: string ensures t + "" == t { }
  }

  lemma CreatedTold(s: C.State)
    requires Told(s)
    ensures Told(C.EnsureCreated(s))
  {
    hide M.Spoken, M.Thought;
    EmitSilent(s.(created := true), Created);
  }

  lemma CloseReasoningTold(s: C.State)
    requires Told(s)
    ensures Told(C.CloseReasoning(s))
  {
    hide M.Spoken, M.Thought;
    var r := s.reasoning.(open := false, done := true);
    var t := s.(reasoning := r);
    var a, b := SummaryTextDone(r.index, r.id, r.text), SummaryPartDone(r.index, r.id, r.text);
    EmitSilent(t, a);
    EmitSilent(C.Emit(t, a), b);
    EmitSilent(C.Emit(C.Emit(t, a), b), ItemDone(r.index, ReasoningItem(r.id, r.text, true)));
  }

  lemma AddTextTold(s: C.State, delta: string)
    requires Told(s)
    ensures Told(C.AddText(s, delta))
  {
    hide M.Spoken, M.Thought;
    var m := s.message.(id := Fresh(s.counters.serial), index := s.counters.nextIndex);
    EmitSilent(s.(message := m, counters := C.Allocated(C.Drawn(s.counters))), ItemAdded(m.index, MessageItem(m.id, "", false)));
    var o := C.OpenMessage(s);
    EmitSilent(o.(message := o.message.(partOpen := true)), PartAdded(o.message.index, o.message.id));
    var t := C.OpenTextPart(o);
    EmitTells(t.(message := t.message.(text := t.message.text + delta)), TextDelta(t.message.index, t.message.id, delta));
    assert M.Thought(t.out) + "" == M.Thought(t.out);
  }

  lemma AddReasoningTold(s: C.State, delta: string)
    requires Told(s)
    ensures Told(C.AddReasoning(s, delta))
  {
    hide M.Spoken, M.Thought;
    var r := s.reasoning.(open := true, id := Fresh(s.counters.serial), index := s.counters.nextIndex);
    var o := s.(reasoning := r, counters := C.Allocated(C.Drawn(s.counters)));
    var b := ItemAdded(r.index, ReasoningItem(r.id, "", false));
    EmitSilent(o, b);
    EmitSilent(C.Emit(o, b), SummaryPartAdded(r.index, r.id));
    var t := C.OpenReasoning(s);
    EmitTells(t.(reasoning := t.reasoning.(text := t.reasoning.text + delta)), ReasoningDelta(t.reasoning.index, t.reasoning.id, delta));
    assert M.Spoken(t.out) + "" == M.Spoken(t.out);
  }

  lemma AddToolTold(s: C.State, f: C.ToolFragment)
    requires Told(s)
    ensures Told(C.AddTool(s, f))
  {
    hide M.Spoken, M.Thought;
    CloseReasoningTold(s);
    var a, k := C.CloseReasoning(s), f.Slot();
    var c := if f.id == "" then C.Drawn(a.counters) else a.counters;
    var id := if f.id == "" then Fresh(a.counters.serial) else Given(f.id);
    var tools := C.ToolTable(a.tools.calls[k := C.ToolCall(id, f.name, "")], a.tools.itemIds[k := Fresh(c.serial)],
                             a.tools.outIndex[k := c.nextIndex]);
    EmitSilent(a.(tools := tools, counters := C.Allocated(C.Drawn(c))),
               ItemAdded(c.nextIndex, CallItem(Fresh(c.serial), id, f.name, "", false)));
    var t := if k in s.tools.calls then C.SetCall(s, k, C.Renamed(s.tools.calls[k], f)) else C.OpenTool(s, f);
    hide C.CloseReasoning;
    var d := t.tools.calls[k].(args := t.tools.calls[k].args + f.args);
    EmitSilent(C.SetCall(t, k, d), ArgsDelta(Lookup(t.tools.outIndex, k, 0), Lookup(t.tools.itemIds, k, NoId), f.args, d.id, d.name));
  }

  lemma {:induction false} FeedTold(s: C.State, h: seq<C.Fragment>)
    requires Told(s)
    ensures Told(C.FeedAll(s, h))
  {
    hide Told, C.AddTool, C.AddText, C.AddReasoning, C.CloseReasoning;
    if h != [] {
      FeedTold(s, h[..|h| - 1]);
      var t := C.FeedAll(s, h[..|h| - 1]);
      match h[|h| - 1]
      case Reason(d) => AddReasoningTold(t, d);
      case Content(d) =>
        CloseReasoningTold(t);
        AddTextTold(C.CloseReasoning(t), d);
      case Tool(call) => AddToolTold(t, call);
      case Finish(reason) => FinishTold(t, reason);
    }
  }

  lemma FinishTold(s: C.State, reason: string)
    requires Told(s)
    ensures Told(s.(finish := reason))
  {
  }

  /** At the end of the stream: what the fallback leaves to say. */
  lemma FallbackSays(h: seq<C.Fragment>, c: C.State)
    requires Chain.ChatTracks(h, c) && Told(c)
    ensures var d := C.Fallback(C.CloseReasoning(c));
            && Told(d) && d.message.text == Chain.VisibleText(h) && d.reasoning.text == Reasoned(h) && d.tools == c.tools
            && (d.message.id.NoId? ==> d.message.text == "")
  {
    var e := C.CloseReasoning(c);
    CloseReasoningTold(c);
    Chain.NoCalls(h, c.tools, c.counters.nextIndex);
    Chain.BlankEmpty();
    if C.NeedsFallback(e) { AddTextTold(e, e.reasoning.text); }
    assert "" + Reasoned(h) == Reasoned(h);
    hide Told, IsBlank, Reasoned, Written, Slots, Chain.TableTracks;
  }

  lemma CloseMessageTold(s: C.State)
    requires Told(s)
    ensures Told(C.CloseMessage(s))
  {
    hide M.Spoken, M.Thought;
    var m := s.message;
    var a, b := TextDone(m.index, m.id, m.text), PartDone(m.index, m.id, m.text);
    EmitSilent(s, a);
    EmitSilent(C.Emit(s, a), b);
    EmitSilent(if !m.partOpen then s else C.Emit(C.Emit(s, a), b), ItemDone(m.index, MessageItem(m.id, m.text, true)));
  }

  lemma {:induction false} CloseToolsTold(s: C.State, n: nat)
    requires Told(s)
    ensures Told(C.CloseTools(s, n))
  {
    hide Told, C.CloseTool;
    if n > 0 {
      CloseToolsTold(s, n - 1);
      var t := C.CloseTools(s, n - 1);
      if n - 1 in t.tools.calls { CloseToolTold(t, n - 1); }
    }
  }

  lemma CloseToolTold(s: C.State, k: int)
    requires Told(s) && k in s.tools.calls
    ensures Told(C.CloseTool(s, k))
  {
    hide M.Spoken, M.Thought, C.ArgsOrObject;
    var c := s.tools.calls[k];
    var index, id := Lookup(s.tools.outIndex, k, 0), Lookup(s.tools.itemIds, k, NoId);
    var a := ArgsDone(index, id, c.id, c.name, C.ArgsOrObject(c.args));
    EmitSilent(s, a);
    EmitSilent(C.Emit(s, a), ItemDone(index, CallItem(id, c.id, c.name, C.ArgsOrObject(c.args), true)));
  }

  // ---- the output array ----------------------------------------------------------------------

  /** The calls of slots 0, ..., n - 1, as a client of the output array gets them. */
  function SlotCalls(calls: map<int, C.ToolCall>, n: nat): seq<M.Call> {
    if n == 0 then [] else
    SlotCalls(calls, n - 1) +
    if n - 1 !in calls then [] else [M.Call(calls[n - 1].id, calls[n - 1].name, C.ArgsOrObject(calls[n - 1].args))]
  }

  lemma {:induction false} OutputCallsRead(head: seq<Item>, tools: C.ToolTable, serial: nat, n: nat)
    requires R.ReadOutput(head).calls == []
    ensures R.ReadOutput(head + C.OutputCalls(tools, serial, n)) == R.ReadOutput(head).(calls := SlotCalls(tools.calls, n))
  {
    hide C.ArgsOrObject;
    if n == 0 {
      assert head + C.OutputCalls(tools, serial, 0) == head;
    } else {
      OutputCallsRead(head, tools, serial, n - 1);
      var before := C.OutputCalls(tools, serial, n - 1);
      if n - 1 in tools.calls {
        var c := tools.calls[n - 1];
        var item := CallItem(Fresh(serial + n + 1), c.id, c.name, C.ArgsOrObject(c.args), true);
        Associate(head, before, [item]);
        ReadOutputOne(head + before, item);
      } else {
        assert before + [] == before;
      }
      hide R.ReadOutput;
    }
  }

  lemma ReadOutputOne(output: seq<Item>, item: Item)
    requires item.kind.Message? || item.kind.Reasoning? || item.kind.FunctionCall?
    ensures R.ReadOutput(output + [item]) ==
            var a := R.ReadOutput(output);
            if item.kind.Message? then a.(text := a.text + item.text)
            else if item.kind.Reasoning? then a.(reasoning := a.reasoning + item.text)
            else a.(calls := a.calls + [M.Call(item.callId, item.name, item.args)])
  {
    assert (output + [item])[..|output|] == output;
  }

  lemma OutputReads(r: C.ReasoningPart, m: C.MessagePart, tools: C.ToolTable, serial: nat)
    requires m.id.NoId? ==> m.text == ""
    ensures R.ReadOutput(C.Output(r, m, tools, serial)) == M.Answer(m.text, r.text, SlotCalls(tools.calls, |tools.calls|))
  {
    var a := if r.text != "" then [ReasoningItem(Fresh(serial), r.text, true)] else [];
    var b := if !m.id.NoId? || |tools.calls| == 0
             then [MessageItem(if !m.id.NoId? then m.id else Fresh(serial + 1), m.text, true)] else [];
    assert R.ReadOutput([]) == M.Answer("", "", []);
    hide R.ReadOutput;
    if a != [] { ReadOutputOne([], a[0]); }
    assert a != [] ==> a == [] + [a[0]];
    if b != [] { ReadOutputOne(a, b[0]); }
    assert b != [] ==> a + b == a + [b[0]];
    assert b == [] ==> a + b == a;
    assert "" + r.text == r.text && "" + m.text == m.text;
    OutputCallsRead(a + b, tools, serial, |tools.calls|);
    hide C.OutputCalls, SlotCalls;
  }

  /** Identifiers drawn in increasing order from `low` on. */
  ghost predicate DrawnFrom(items: seq<Item>, low: nat) {
    && (forall i :: 0 <= i < |items| ==> items[i].id.Fresh? && items[i].id.serial >= low)
    && forall i, j :: 0 <= i < j < |items| ==> items[i].id != items[j].id
  }

  lemma {:induction false} OutputCallsDrawn(tools: C.ToolTable, serial: nat, n: nat)
    ensures var items := C.OutputCalls(tools, serial, n);
            DrawnFrom(items, serial + 2) && forall i :: 0 <= i < |items| ==> items[i].id.serial <= serial + n + 1
  {
    hide C.ArgsOrObject;
    if n > 0 { OutputCallsDrawn(tools, serial, n - 1); }
  }

  /** No two items of the output array share an identifier. */
  lemma OutputIdsDistinct(r: C.ReasoningPart, m: C.MessagePart, tools: C.ToolTable, serial: nat)
    requires !m.id.NoId? ==> m.id.Fresh? && m.id.serial < serial
    ensures var items := C.Output(r, m, tools, serial);
            forall i, j :: 0 <= i < j < |items| ==> items[i].id != items[j].id
  {
    OutputCallsDrawn(tools, serial, |tools.calls|);
    hide C.OutputCalls;
  }

  /** The output array of a finalized stream. */
  function FinalOutput(s: C.State): seq<Item> {
    var out := C.Finalize(s).out;
    if out != [] && out[|out| - 1].body.Terminal? then out[|out| - 1].body.output else []
  }

  /** Just before the terminal event. */
  lemma EndSays(h: seq<C.Fragment>, c: C.State)
    requires Chain.ChatTracks(h, c) && Told(c)
    ensures var u := Chain.BeforeEnd(c);
            && Told(u) && u.message.text == Chain.VisibleText(h) && u.reasoning.text == Reasoned(h) && u.tools == c.tools
            && (u.message.id.NoId? ==> u.message.text == "")
  {
    FallbackSays(h, c);
    var b := C.Fallback(C.CloseReasoning(c));
    CloseMessageTold(b);
    var t := C.CloseMessage(b);
    assert t.message == b.message && t.reasoning == b.reasoning && t.tools == b.tools;
    CloseToolsTold(t, |t.tools.calls|);
    hide C.CloseReasoning, C.Fallback, C.CloseMessage, Told, Chain.ChatTracks, Chain.VisibleText, Reasoned;
  }

  function EndBody(u: C.State): Body {
    Terminal(Some(C.FinalStatus(u.finish)), C.Output(u.reasoning, u.message, u.tools, u.counters.serial))
  }

  lemma FinalizeIs(c: C.State)
    requires c.created && !c.completed
    ensures C.Finalize(c) == C.Emit(Chain.BeforeEnd(c).(completed := true), EndBody(Chain.BeforeEnd(c)))
    ensures FinalOutput(c) == C.Output(Chain.BeforeEnd(c).reasoning, Chain.BeforeEnd(c).message, Chain.BeforeEnd(c).tools, Chain.BeforeEnd(c).counters.serial)
  {
    hide C.CloseReasoning, C.Fallback, C.CloseMessage, C.CloseTools, C.Output;
  }

  lemma FinalizeSays(h: seq<C.Fragment>, c: C.State)
    requires Chain.ChatTracks(h, c) && Told(c)
    ensures M.Spoken(C.Finalize(c).out) == Chain.VisibleText(h) && M.Thought(C.Finalize(c).out) == Reasoned(h)
    ensures R.ReadOutput(FinalOutput(c)) == M.Answer(Chain.VisibleText(h), Reasoned(h), SlotCalls(c.tools.calls, |c.tools.calls|))
  {
    EndSays(h, c);
    FinalizeIs(c);
    var u := Chain.BeforeEnd(c);
    hide C.Finalize, FinalOutput, Chain.BeforeEnd, Chain.TableTracks, M.Spoken, M.Thought, R.ReadOutput, SlotCalls, C.Output;
    EmitSilent(u.(completed := true), EndBody(u));
    OutputReads(u.reasoning, u.message, u.tools, u.counters.serial);
    hide Chain.VisibleText, Reasoned, FinishReason, Written, SpanEnded;
  }

  /** The stream and the output array say the same: the visible text and the reasoning of the
      fragments. The array's calls are those of slots 0, ..., n - 1, each with its latest
      identity and its whole arguments; it lists every call exactly when the slots in use are
      0, ..., n - 1. */
  lemma ContentTheorem(chunks: seq<C.Chunk>)
    requires chunks != []
    ensures var s, h := C.FeedChunks(C.INITIAL, chunks), C.AllFragments(chunks);
            var out, answer := C.Finalize(s).out, R.ReadOutput(FinalOutput(s));
            && M.Spoken(out) == answer.text == Chain.VisibleText(h)
            && M.Thought(out) == answer.reasoning == Reasoned(h)
            && answer.calls == SlotCalls(s.tools.calls, |Slots(h)|) && Chain.CallsTrack(h, s.tools.calls)
            && (|answer.calls| == |Slots(h)| <==> P.Contiguous(h))
  {
    var s, h := C.FeedChunks(C.INITIAL, chunks), C.AllFragments(chunks);
    AllFragmentsSolid(chunks);
    Chain.ChunksAreFragments(chunks);
    P.StreamKept(chunks);
    StartTold();
    FeedTold(C.EnsureCreated(C.INITIAL), h);
    hide C.FeedChunks, C.FeedAll, C.AllFragments, Told, P.Kept, P.SameSlots;
    FinalizeSays(h, s);
    Chain.TableSize(h, s.tools, s.counters.nextIndex);
    CallsListed(h, s.tools, s.counters.nextIndex);
    hide C.Finalize, FinalOutput, SlotCalls, P.Contiguous, R.ReadOutput;
  }

  lemma StartTold()
    ensures Told(C.EnsureCreated(C.INITIAL))
  {
    CreatedTold(C.INITIAL);
  }

  /** How many of the slots 0, ..., n - 1 are in use. */
  lemma {:induction false} SlotCallsCount(calls: map<int, C.ToolCall>, n: nat)
    ensures |SlotCalls(calls, n)| <= n
    ensures |SlotCalls(calls, n)| == n <==> forall k: nat :: k < n ==> k in calls
  {
    hide C.ArgsOrObject;
    if n > 0 { SlotCallsCount(calls, n - 1); }
  }

  lemma CallsListed(h: seq<C.Fragment>, tools: C.ToolTable, next: nat)
    requires Chain.TableTracks(h, tools, next)
    ensures |SlotCalls(tools.calls, |Slots(h)|)| == |Slots(h)| <==> P.Contiguous(h)
  {
    hide Slots, Chain.CallsTrack;
    var n := |Slots(h)|;
    SlotCallsCount(tools.calls, n);
    Chain.TableSize(h, tools, next);
    SlotsDistinct(h);
    FullMeansContiguous(Slots(h));
    forall k: nat ensures k in tools.calls <==> k in Slots(h) {
      assert k in tools.calls <==> k in tools.outIndex;
    }
    hide SlotCalls;
  }

  /** n distinct slots are 0, ..., n - 1 exactly when each of these occurs. */
  lemma FullMeansContiguous(slots: seq<int>)
    requires forall i, j :: 0 <= i < j < |slots| ==> slots[i] != slots[j]
    ensures (forall k: nat :: k < |slots| ==> k in slots) <==> forall i :: 0 <= i < |slots| ==> 0 <= slots[i] < |slots|
  {
    var below := Upto(|slots|);
    InBelow(|slots|);
    if forall k: nat :: k < |slots| ==> k in slots {
      SameLength(below, slots);
      forall i | 0 <= i < |slots| ensures 0 <= slots[i] < |slots| {
        var k := slots[i];
        assert k in slots;
      }
    }
    if forall i :: 0 <= i < |slots| ==> 0 <= slots[i] < |slots| {
      SameLength(slots, below);
      forall k: nat | k < |slots| ensures k in slots {
        var x: int := k;
        assert x in below;
      }
    }
  }

  function Upto(n: nat): seq<int> {
    seq(n, i => i)
  }

  lemma InBelow(n: nat)
    ensures forall x: int :: x in Upto(n) <==> 0 <= x < n
  {
    forall x: int ensures x in Upto(n) <==> 0 <= x < n {
      if 0 <= x < n { assert Upto(n)[x] == x; }
    }
  }
}
