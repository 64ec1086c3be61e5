/** The tool calls of the Responses stream of a chat answer: those of its deltas, and those of the
    output array of its terminal event. */
module ChatToResponsesCalls {
  import opened Text
  import opened ResponsesEvents
  import C = ChatToResponsesSpec
  import opened H = FragmentHistory
  import Chain = ChatToAnthropicChain
  import M = ResponsesMeaning
  import R = ResponsesToChatSpec
  import P = ChatToResponsesPump
  import T = ChatToResponsesContent

  // ---- what does not touch the calls ---------------------------------------------------------

  predicate NoCall(body: Body) {
    !body.ArgsDelta? && (body.ItemAdded? ==> !body.item.kind.FunctionCall? && !body.item.kind.CustomToolCall?)
  }

  ghost predicate SameCalls(a: seq<Event>, b: seq<Event>) {
    M.Calls(a) == M.Calls(b) && M.Starts(a) == M.Starts(b) && forall k :: M.Owner(a, k) == M.Owner(b, k)
  }

  lemma EmitSame(s: C.State, body: Body)
    requires NoCall(body)
    ensures SameCalls(s.out, C.Emit(s, body).out)
  {
    M.Unmoved(s.out, Event(s.counters.seqNo, body));
    hide M.Owner, M.Starts, M.Calls;
  }

  lemma SameTrans(a: seq<Event>, b: seq<Event>, c: seq<Event>)
    requires SameCalls(a, b) && SameCalls(b, c)
    ensures SameCalls(a, c)
  {
    hide M.Owner, M.Starts, M.Calls;
  }

  lemma SameSelf(a: seq<Event>)
    ensures SameCalls(a, a)
  {
  }

  lemma TwoSame(s: C.State, a: Body, b: Body)
    requires NoCall(a) && NoCall(b)
    ensures SameCalls(s.out, C.Emit(C.Emit(s, a), b).out)
  {
    EmitSame(s, a);
    EmitSame(C.Emit(s, a), b);
    SameTrans(s.out, C.Emit(s, a).out, C.Emit(C.Emit(s, a), b).out);
  }

  lemma CloseReasoningSame(s: C.State)
    ensures SameCalls(s.out, C.CloseReasoning(s).out)
  {
    SameSelf(s.out);
    hide SameCalls;
    var r := s.reasoning.(open := false, done := true);
    var t := s.(reasoning := r);
    var a, b, d := SummaryTextDone(r.index, r.id, r.text), SummaryPartDone(r.index, r.id, r.text),
                   ItemDone(r.index, ReasoningItem(r.id, r.text, true));
    TwoSame(t, a, b);
    EmitSame(C.Emit(C.Emit(t, a), b), d);
    SameTrans(t.out, C.Emit(C.Emit(t, a), b).out, C.Emit(C.Emit(C.Emit(t, a), b), d).out);
  }

  lemma OpenReasoningSame(s: C.State)
    ensures SameCalls(s.out, C.OpenReasoning(s).out)
  {
    SameSelf(s.out);
    hide SameCalls;
    var r := s.reasoning.(open := true, id := Fresh(s.counters.serial), index := s.counters.nextIndex);
    TwoSame(s.(reasoning := r, counters := C.Allocated(C.Drawn(s.counters))),
            ItemAdded(r.index, ReasoningItem(r.id, "", false)), SummaryPartAdded(r.index, r.id));
  }

  lemma AddReasoningSame(s: C.State, delta: string)
    ensures SameCalls(s.out, C.AddReasoning(s, delta).out)
  {
    hide SameCalls;
    OpenReasoningSame(s);
    var t := C.OpenReasoning(s);
    EmitSame(t.(reasoning := t.reasoning.(text := t.reasoning.text + delta)), ReasoningDelta(t.reasoning.index, t.reasoning.id, delta));
    SameTrans(s.out, t.out, C.AddReasoning(s, delta).out);
    hide C.OpenReasoning;
  }

  lemma OpenTextSame(s: C.State)
    ensures SameCalls(s.out, C.OpenTextPart(C.OpenMessage(s)).out)
  {
    SameSelf(s.out);
    SameSelf(C.OpenMessage(s).out);
    hide SameCalls;
    var m := s.message.(id := Fresh(s.counters.serial), index := s.counters.nextIndex);
    EmitSame(s.(message := m, counters := C.Allocated(C.Drawn(s.counters))), ItemAdded(m.index, MessageItem(m.id, "", false)));
    var o := C.OpenMessage(s);
    EmitSame(o.(message := o.message.(partOpen := true)), PartAdded(o.message.index, o.message.id));
    SameTrans(s.out, o.out, C.OpenTextPart(o).out);
  }

  lemma AddTextSame(s: C.State, delta: string)
    ensures SameCalls(s.out, C.AddText(s, delta).out)
  {
    hide SameCalls;
    OpenTextSame(s);
    var t := C.OpenTextPart(C.OpenMessage(s));
    EmitSame(t.(message := t.message.(text := t.message.text + delta)), TextDelta(t.message.index, t.message.id, delta));
    SameTrans(s.out, t.out, C.AddText(s, delta).out);
    hide C.OpenTextPart, C.OpenMessage;
  }

  lemma CloseMessageSame(s: C.State)
    ensures SameCalls(s.out, C.CloseMessage(s).out)
  {
    SameSelf(s.out);
    hide SameCalls;
    var m := s.message;
    var a, b, d := TextDone(m.index, m.id, m.text), PartDone(m.index, m.id, m.text), ItemDone(m.index, MessageItem(m.id, m.text, true));
    TwoSame(s, a, b);
    var t := if !m.partOpen then s else C.Emit(C.Emit(s, a), b);
    EmitSame(t, d);
    SameTrans(s.out, t.out, C.Emit(t, d).out);
  }

  lemma {:induction false} CloseToolsSame(s: C.State, n: nat)
    ensures SameCalls(s.out, C.CloseTools(s, n).out)
  {
    hide SameCalls;
    if n == 0 {
      SameSelf(s.out);
    } else {
      CloseToolsSame(s, n - 1);
      var t := C.CloseTools(s, n - 1);
      if n - 1 in t.tools.calls { CloseToolSame(t, n - 1); SameTrans(s.out, t.out, C.CloseTool(t, n - 1).out); }
      hide C.CloseTool;
    }
  }

  lemma CloseToolSame(s: C.State, k: int)
    requires k in s.tools.calls
    ensures SameCalls(s.out, C.CloseTool(s, k).out)
  {
    hide SameCalls, C.ArgsOrObject;
    var c := s.tools.calls[k];
    var index, id := Lookup(s.tools.outIndex, k, 0), Lookup(s.tools.itemIds, k, NoId);
    TwoSame(s, ArgsDone(index, id, c.id, c.name, C.ArgsOrObject(c.args)),
            ItemDone(index, CallItem(id, c.id, c.name, C.ArgsOrObject(c.args), true)));
  }

  /** Closing the stream announces no call and sends no more arguments. */
  lemma FinalizeSame(s: C.State)
    requires s.created && !s.completed
    ensures SameCalls(s.out, C.Finalize(s).out)
  {
    hide SameCalls;
    var a := C.CloseReasoning(s);
    var b := C.Fallback(a);
    var d := C.CloseMessage(b);
    var u := Chain.BeforeEnd(s);
    CloseReasoningSame(s);
    SameSelf(a.out);
    AddTextSame(a, a.reasoning.text);
    CloseMessageSame(b);
    CloseToolsSame(d, |d.tools.calls|);
    T.FinalizeIs(s);
    EmitSame(u.(completed := true), T.EndBody(u));
    SameTrans(s.out, a.out, b.out);
    SameTrans(s.out, b.out, d.out);
    SameTrans(s.out, d.out, u.out);
    SameTrans(s.out, u.out, C.Finalize(s).out);
    hide C.CloseReasoning, C.AddText, C.NeedsFallback, C.CloseMessage, C.CloseTools, C.Finalize, T.EndBody;
  }

  // ---- the streamed calls ----------------------------------------------------------------------

  /** A streamed call against the fragments of its slot and the record kept for it. */
  ghost predicate CallIs(h: seq<C.Fragment>, k: int, call: M.Call, stored: C.ToolCall) {
    && call.name == FirstIdentity(h, k).name && Chain.Known(call.id, FirstIdentity(h, k).id) && call.args == Args(h, k)
    && (LatestIdentity(h, k).id == "" ==> stored.id == call.id)
  }

  const NO_CALL := C.ToolCall(NoId, "", "")

  ghost predicate Owned(slots: seq<int>, outIndex: map<int, nat>, out: seq<Event>) {
    && |M.Starts(out)| == |slots|
    && forall i :: 0 <= i < |slots| ==> M.Owner(out, Lookup(outIndex, slots[i], 0)) == Some(M.Starts(out)[i])
  }

  ghost predicate FreeFrom(out: seq<Event>, n: nat) {
    forall x: int :: x >= n ==> M.Owner(out, x).None?
  }

  /** Drawn call identifiers are told apart. */
  ghost predicate DistinctFresh(calls: seq<M.Call>, serial: nat) {
    && (forall i :: 0 <= i < |calls| ==> calls[i].id.Fresh? ==> calls[i].id.serial < serial)
    && forall i, j :: 0 <= i < j < |calls| ==> calls[i].id.Fresh? ==> calls[i].id != calls[j].id
  }

  ghost predicate Matches(h: seq<C.Fragment>, stored: map<int, C.ToolCall>, calls: seq<M.Call>) {
    && |calls| == |Slots(h)|
    && forall i :: 0 <= i < |calls| ==> CallIs(h, Slots(h)[i], calls[i], Lookup(stored, Slots(h)[i], NO_CALL))
  }

  ghost predicate Streamed(h: seq<C.Fragment>, s: C.State) {
    && Matches(h, s.tools.calls, M.Calls(s.out))
    && Owned(Slots(h), s.tools.outIndex, s.out) && FreeFrom(s.out, s.counters.nextIndex)
    && DistinctFresh(M.Calls(s.out), s.counters.serial)
  }

  /** A fragment of another kind. */
  lemma OtherFragment(h: seq<C.Fragment>, f: C.Fragment, s: C.State, t: C.State)
    requires Streamed(h, s) && !f.Tool? && SameCalls(s.out, t.out) && t.tools == s.tools
    requires t.counters.nextIndex >= s.counters.nextIndex && t.counters.serial >= s.counters.serial
    ensures Streamed(h + [f], t)
  {
    Extend(h, f);
    hide Slots, Args, FirstIdentity, LatestIdentity, M.Calls, M.Starts, M.Owner, Written, Reasoned, SpanEnded, LateReasoning, FinishReason;
    forall k: int ensures Args(h, k) + "" == Args(h, k) { }
  }

  /** The calls after one more fragment of a known slot. */
  lemma MatchesAgain(h: seq<C.Fragment>, f: C.ToolFragment, stored: map<int, C.ToolCall>, calls: seq<M.Call>, i: nat)
    requires Matches(h, stored, calls) && i < |calls| && Slots(h)[i] == f.Slot() && f.Slot() in stored
    ensures var c := C.Renamed(stored[f.Slot()], f);
            Matches(h + [C.Tool(f)], stored[f.Slot() := c.(args := c.args + f.args)], calls[i := calls[i].(args := calls[i].args + f.args)])
  {
    hide Slots, Args, FirstIdentity, LatestIdentity, Written, Reasoned, SpanEnded, LateReasoning, FinishReason;
    Extend(h, C.Tool(f));
    SlotsDistinct(h);
    var k, g := f.Slot(), h + [C.Tool(f)];
    assert k in Slots(h);
    var c := C.Renamed(stored[k], f);
    var after := stored[k := c.(args := c.args + f.args)];
    forall j | 0 <= j < |calls| && j != i
      ensures CallIs(g, Slots(h)[j], calls[j], Lookup(after, Slots(h)[j], NO_CALL))
    {
      var x := Slots(h)[j];
      assert x != k;
      CallStays(h, f, x, calls[j], Lookup(stored, x, NO_CALL));
      LookupOther(stored, k, c.(args := c.args + f.args), x);
      assert x in Slots(h);
    }
    assert CallIs(h, k, calls[i], Lookup(stored, k, NO_CALL));
  }

  lemma LookupOther(m: map<int, C.ToolCall>, k: int, c: C.ToolCall, x: int)
    ensures Lookup(m[k := c], x, NO_CALL) == if x == k then c else Lookup(m, x, NO_CALL)
  {
  }

  lemma LookupIndex(m: map<int, nat>, k: int, n: nat, x: int)
    ensures Lookup(m[k := n], x, 0) == if x == k then n else Lookup(m, x, 0)
  {
  }

  /** A fragment of another slot changes nothing about a call. */
  lemma CallStays(h: seq<C.Fragment>, f: C.ToolFragment, x: int, call: M.Call, stored: C.ToolCall)
    requires CallIs(h, x, call, stored) && x != f.Slot()
    ensures CallIs(h + [C.Tool(f)], x, call, stored)
  {
    hide Slots, Args, FirstIdentity, LatestIdentity, Written, Reasoned, SpanEnded, LateReasoning, FinishReason;
    Extend(h, C.Tool(f));
    assert Args(h, x) + "" == Args(h, x);
  }

  lemma CallBegins(h: seq<C.Fragment>, f: C.ToolFragment, id: Id)
    requires f.Slot() !in Slots(h) && Chain.Known(id, f.id)
    ensures Slots(h + [C.Tool(f)]) == Slots(h) + [f.Slot()]
    ensures CallIs(h + [C.Tool(f)], f.Slot(), M.Call(id, f.name, f.args), C.ToolCall(id, f.name, f.args))
  {
    hide Slots, Args, FirstIdentity, LatestIdentity, Written, Reasoned, SpanEnded, LateReasoning, FinishReason;
    Extend(h, C.Tool(f));
    Silent(h, f.Slot());
    assert "" + f.args == f.args;
  }

  /** The calls after the first fragment of a slot. */
  lemma MatchesOpen(h: seq<C.Fragment>, f: C.ToolFragment, stored: map<int, C.ToolCall>, calls: seq<M.Call>, id: Id)
    requires Matches(h, stored, calls) && f.Slot() !in Slots(h) && Chain.Known(id, f.id)
    ensures Matches(h + [C.Tool(f)], stored[f.Slot() := C.ToolCall(id, f.name, f.args)], calls + [M.Call(id, f.name, f.args)])
  {
    hide Slots, CallIs, Chain.Known;
    CallBegins(h, f, id);
    var k, g := f.Slot(), h + [C.Tool(f)];
    forall j | 0 <= j < |calls|
      ensures CallIs(g, Slots(h)[j], calls[j], Lookup(stored[k := C.ToolCall(id, f.name, f.args)], Slots(h)[j], NO_CALL))
    {
      var x := Slots(h)[j];
      assert x in Slots(h);
      CallStays(h, f, x, calls[j], Lookup(stored, x, NO_CALL));
      LookupOther(stored, k, C.ToolCall(id, f.name, f.args), x);
    }
    LookupOther(stored, k, C.ToolCall(id, f.name, f.args), k);
  }

  lemma OwnedLater(slots: seq<int>, outIndex: map<int, nat>, a: seq<Event>, b: seq<Event>, n: nat, m: nat)
    requires Owned(slots, outIndex, a) && FreeFrom(a, n) && m >= n
    requires M.Starts(a) == M.Starts(b) && forall k :: M.Owner(a, k) == M.Owner(b, k)
    ensures Owned(slots, outIndex, b) && FreeFrom(b, m)
  {
    hide M.Starts, M.Owner;
  }

  lemma DistinctArgs(calls: seq<M.Call>, i: nat, args: string, serial: nat)
    requires DistinctFresh(calls, serial) && i < |calls|
    ensures DistinctFresh(calls[i := calls[i].(args := args)], serial)
  {
  }

  lemma ToolAgain(h: seq<C.Fragment>, s: C.State, f: C.ToolFragment)
    requires Chain.ChatTracks(h, s) && Streamed(h, s) && f.Slot() in Slots(h)
    ensures Streamed(h + [C.Tool(f)], C.AddTool(s, f))
  {
    var k, t := f.Slot(), C.AddTool(s, f);
    Chain.AddToolShape(s, f);
    assert k in s.tools.calls <==> k in s.tools.outIndex;
    var i :| 0 <= i < |Slots(h)| && Slots(h)[i] == k;
    Extend(h, C.Tool(f));
    var calls := M.Calls(s.out);
    MatchesAgain(h, f, s.tools.calls, calls, i);
    DistinctArgs(calls, i, calls[i].args + f.args, s.counters.serial);
    hide Slots, M.Calls, M.Starts, M.Owner, Matches, DistinctFresh, Chain.ChatTracks;
    if f.args == "" {
      assert calls[i].args + "" == calls[i].args;
      assert calls[i := calls[i]] == calls;
    } else {
      var r := C.SetCall(s, k, C.Renamed(s.tools.calls[k], f));
      assert t == C.AddArgs(r, k, f.args);
      ArgsEvent(r, k, f.args);
      M.Sent(s.out, t.out[|s.out|], i);
    }
    OwnedLater(Slots(h), s.tools.outIndex, s.out, t.out, s.counters.nextIndex, t.counters.nextIndex);
    hide C.AddTool, FreeFrom, Owned;
  }

  lemma OwnedOpen(slots: seq<int>, outIndex: map<int, nat>, a: seq<Event>, b: seq<Event>, k: int, n: nat, p: nat)
    requires Owned(slots, outIndex, a) && FreeFrom(a, n) && k !in slots
    requires M.Starts(b) == M.Starts(a) + [p] && forall x :: M.Owner(b, x) == if x == n then Some(p) else M.Owner(a, x)
    ensures Owned(slots + [k], outIndex[k := n], b) && FreeFrom(b, n + 1)
  {
    hide M.Starts, M.Owner;
    var all, m := slots + [k], outIndex[k := n];
    forall i | 0 <= i < |all| ensures M.Owner(b, Lookup(m, all[i], 0)) == Some(M.Starts(b)[i]) {
      LookupIndex(outIndex, k, n, all[i]);
      if i < |slots| {
        assert all[i] in slots;
        assert M.Owner(a, Lookup(outIndex, slots[i], 0)).Some?;
      }
    }
  }

  lemma DistinctOpen(calls: seq<M.Call>, serial: nat, call: M.Call, later: nat)
    requires DistinctFresh(calls, serial) && later >= serial
    requires call.id.Fresh? ==> serial <= call.id.serial < later
    ensures DistinctFresh(calls + [call], later)
  {
    var all := calls + [call];
    forall i, j | 0 <= i < j < |all| && all[i].id.Fresh? ensures all[i].id != all[j].id {
      assert i < |calls| && all[i] == calls[i];
    }
  }

  lemma ArgsEvent(s: C.State, k: int, delta: string)
    requires k in s.tools.calls && delta != ""
    ensures var t := C.AddArgs(s, k, delta);
            && |t.out| == |s.out| + 1 && t.out == s.out + [t.out[|s.out|]]
            && t.out[|s.out|].body.ArgsDelta? && t.out[|s.out|].body.index == Lookup(s.tools.outIndex, k, 0)
            && t.out[|s.out|].body.delta == delta && t.counters.serial == s.counters.serial
            && t.tools.calls[k] == s.tools.calls[k].(args := s.tools.calls[k].args + delta)
  {
  }

  lemma OpenEvent(s: C.State, f: C.ToolFragment)
    ensures var a, o, k := C.CloseReasoning(s), C.OpenTool(s, f), f.Slot();
            && o.out == a.out + [o.out[|a.out|]] && M.Announces(o.out[|a.out|])
            && o.out[|a.out|].body.index == s.counters.nextIndex == Lookup(o.tools.outIndex, k, 0)
            && k in o.tools.calls && o.tools.calls[k] == C.ToolCall(o.out[|a.out|].body.item.callId, f.name, "")
            && o.out[|a.out|].body.item.name == f.name
            && (o.tools.calls[k].id.Fresh? ==> s.counters.serial <= o.tools.calls[k].id.serial < o.counters.serial)
            && o.counters.serial >= s.counters.serial
  {
    assert C.CloseReasoning(s).counters.serial == s.counters.serial && C.CloseReasoning(s).counters.nextIndex == s.counters.nextIndex;
    hide C.CloseReasoning;
  }

  /** Opening a slot announces its call and sends its first arguments. */
  lemma OpenEvents(s: C.State, f: C.ToolFragment)
    requires f.Slot() !in s.tools.calls
    ensures var t, id := C.AddTool(s, f), C.OpenTool(s, f).tools.calls[f.Slot()].id;
            && M.Calls(t.out) == M.Calls(s.out) + [M.Call(id, f.name, f.args)]
            && M.Starts(t.out) == M.Starts(s.out) + [|C.CloseReasoning(s).out|]
            && (forall x :: M.Owner(t.out, x) == if x == s.counters.nextIndex then Some(|C.CloseReasoning(s).out|) else M.Owner(s.out, x))
            && (id.Fresh? ==> s.counters.serial <= id.serial < t.counters.serial) && t.counters.serial >= s.counters.serial
            && t.tools.calls[f.Slot()] == C.ToolCall(id, f.name, f.args)
  {
    var a, o, t, k := C.CloseReasoning(s), C.OpenTool(s, f), C.AddTool(s, f), f.Slot();
    CloseReasoningSame(s);
    OpenEvent(s, f);
    var e := o.out[|a.out|];
    M.Announced(a.out, e);
    M.CallsAreStarts(a.out);
    var before, id := M.Calls(a.out), e.body.item.callId;
    assert t == C.AddArgs(o, k, f.args);
    assert "" + f.args == f.args;
    assert (before + [M.Call(id, f.name, "")])[|before| := M.Call(id, f.name, f.args)] == before + [M.Call(id, f.name, f.args)];
    hide M.Calls, M.Starts, M.Owner, C.CloseReasoning, C.OpenTool, C.AddTool;
    if f.args != "" {
      ArgsEvent(o, k, f.args);
      hide C.AddArgs;
      M.Sent(o.out, t.out[|o.out|], |before|);
    }
  }

  lemma ToolOpen(h: seq<C.Fragment>, s: C.State, f: C.ToolFragment)
    requires Chain.ChatTracks(h, s) && Streamed(h, s) && f.Slot() !in Slots(h)
    ensures Streamed(h + [C.Tool(f)], C.AddTool(s, f))
  {
    var k, n, t := f.Slot(), s.counters.nextIndex, C.AddTool(s, f);
    Chain.AddToolShape(s, f);
    assert k in s.tools.calls <==> k in s.tools.outIndex;
    Extend(h, C.Tool(f));
    OpenEvents(s, f);
    var id := C.OpenTool(s, f).tools.calls[k].id;
    MatchesOpen(h, f, s.tools.calls, M.Calls(s.out), id);
    OwnedOpen(Slots(h), s.tools.outIndex, s.out, t.out, k, n, |C.CloseReasoning(s).out|);
    DistinctOpen(M.Calls(s.out), s.counters.serial, M.Call(id, f.name, f.args), t.counters.serial);
    hide Slots, M.Calls, M.Starts, M.Owner, Matches, DistinctFresh, Owned, FreeFrom, Chain.ChatTracks, C.AddTool, C.OpenTool, C.CloseReasoning;
  }

  lemma SpeechKeepsTools(s: C.State, d: string)
    ensures var t := C.AddReasoning(s, d);
            t.tools == s.tools && t.counters.nextIndex >= s.counters.nextIndex && t.counters.serial >= s.counters.serial
    ensures var t := C.AddText(C.CloseReasoning(s), d);
            t.tools == s.tools && t.counters.nextIndex >= s.counters.nextIndex && t.counters.serial >= s.counters.serial
  {
  }

  lemma StreamedNext(h: seq<C.Fragment>, s: C.State, f: C.Fragment)
    requires Chain.ChatTracks(h, s) && Streamed(h, s)
    ensures Streamed(h + [f], C.Feed(s, f))
  {
    hide Streamed, Chain.ChatTracks, SameCalls, C.AddTool, C.AddReasoning, C.AddText, C.CloseReasoning, Slots;
    match f
    case Reason(d) =>
      AddReasoningSame(s, d);
      SpeechKeepsTools(s, d);
      OtherFragment(h, f, s, C.AddReasoning(s, d));
    case Content(d) =>
      var t := C.CloseReasoning(s);
      CloseReasoningSame(s);
      AddTextSame(t, d);
      SameTrans(s.out, t.out, C.AddText(t, d).out);
      SpeechKeepsTools(s, d);
      OtherFragment(h, f, s, C.AddText(t, d));
    case Tool(call) => if call.Slot() in Slots(h) { ToolAgain(h, s, call); } else { ToolOpen(h, s, call); }
    case Finish(reason) =>
      SameSelf(s.out);
      OtherFragment(h, f, s, s.(finish := reason));
  }

  lemma StreamedStart()
    ensures Streamed([], C.EnsureCreated(C.INITIAL))
  {
    EmitSame(C.INITIAL.(created := true), Created);
    assert M.Calls([]) == [] && M.Starts([]) == [];
  }

  lemma {:induction false} StreamedAll(h: seq<C.Fragment>)
    requires Solid(h)
    ensures var s := C.FeedAll(C.EnsureCreated(C.INITIAL), h); Streamed(h, s) && Chain.ChatTracks(h, s)
  {
    hide Streamed, Chain.ChatTracks;
    if h == [] {
      StreamedStart();
      ChatStart();
    } else {
      var before, f := h[..|h| - 1], h[|h| - 1];
      StreamedAll(before);
      var s := C.FeedAll(C.EnsureCreated(C.INITIAL), before);
      StreamedNext(before, s, f);
      ChatNext(before, s, f);
      SplitLast([], h);
    }
  }

  lemma ChatStart()
    ensures Chain.ChatTracks([], C.EnsureCreated(C.INITIAL))
  {
  }

  lemma ChatNext(h: seq<C.Fragment>, s: C.State, f: C.Fragment)
    requires Chain.ChatTracks(h, s) && (f.Reason? || f.Content? ==> f.text != "")
    ensures Chain.ChatTracks(h + [f], C.Feed(s, f))
  {
    match f
    case Reason(d) => Chain.ChatReason(h, s, d);
    case Content(d) => Chain.ChatContent(h, s, d);
    case Tool(call) => Chain.ChatTool(h, s, call);
    case Finish(reason) => FinishTracks(h, s, reason);
  }

  lemma FinishTracks(h: seq<C.Fragment>, s: C.State, reason: string)
    requires Chain.ChatTracks(h, s)
    ensures Chain.ChatTracks(h + [C.Finish(reason)], s.(finish := reason))
  {
    Extend(h, C.Finish(reason));
    hide Written, Reasoned, Slots, Args, FirstIdentity, LatestIdentity, SpanEnded, LateReasoning, FinishReason;
  }

  /** The calls a client joins from the streamed deltas: one per slot in order of first
      appearance, under the first identity of the slot and with all its arguments. */
  lemma StreamedCalls(chunks: seq<C.Chunk>)
    requires chunks != []
    ensures var s, h := C.FeedChunks(C.INITIAL, chunks), C.AllFragments(chunks);
            var calls := M.Calls(C.Finalize(s).out);
            && Matches(h, s.tools.calls, calls) && DistinctFresh(calls, s.counters.serial) && Chain.ChatTracks(h, s)
  {
    var s, h := C.FeedChunks(C.INITIAL, chunks), C.AllFragments(chunks);
    AllFragmentsSolid(chunks);
    Chain.ChunksAreFragments(chunks);
    StreamedAll(h);
    hide C.FeedChunks, C.FeedAll, C.AllFragments, Matches, DistinctFresh, Chain.TableTracks, C.Finalize, M.Calls, M.Starts, M.Owner;
    FinalizeSame(s);
  }

  // ---- deltas and output array -------------------------------------------------------------------

  /** The streamed call of slot j is the array's call of slot k. */
  predicate Twin(h: seq<C.Fragment>, j: int, k: int) {
    && FirstIdentity(h, j).name == LatestIdentity(h, k).name && Args(h, j) == C.ArgsOrObject(Args(h, k))
    && if FirstIdentity(h, j).id != "" then LatestIdentity(h, k).id == FirstIdentity(h, j).id
       else j == k && LatestIdentity(h, k).id == ""
  }

  predicate CallsAgree(h: seq<C.Fragment>) {
    P.Contiguous(h) && forall i :: 0 <= i < |Slots(h)| ==> Twin(h, Slots(h)[i], i)
  }

  lemma {:induction false} SlotCallsAt(calls: map<int, C.ToolCall>, n: nat)
    requires forall k: nat :: k < n ==> k in calls
    ensures |T.SlotCalls(calls, n)| == n
    ensures forall k: nat :: k < n ==>
              var c := Lookup(calls, k, NO_CALL); T.SlotCalls(calls, n)[k] == M.Call(c.id, c.name, C.ArgsOrObject(c.args))
  {
    hide C.ArgsOrObject;
    if n > 0 { SlotCallsAt(calls, n - 1); }
  }

  lemma TwinMeans(h: seq<C.Fragment>, stored: map<int, C.ToolCall>, calls: seq<M.Call>, serial: nat, i: nat)
    requires Matches(h, stored, calls) && DistinctFresh(calls, serial) && i < |calls|
    requires i in Slots(h) && i in stored
    requires Chain.CallsTrack(h, stored)
    ensures var c := Lookup(stored, i, NO_CALL);
            calls[i] == M.Call(c.id, c.name, C.ArgsOrObject(c.args)) <==> Twin(h, Slots(h)[i], i)
  {
    hide Slots, Args, FirstIdentity, LatestIdentity, C.ArgsOrObject;
    var k: int := i;
    var p :| 0 <= p < |Slots(h)| && Slots(h)[p] == k;
    SlotsDistinct(h);
    assert CallIs(h, k, calls[p], Lookup(stored, k, NO_CALL));
    assert CallIs(h, Slots(h)[i], calls[i], Lookup(stored, Slots(h)[i], NO_CALL));
    assert Chain.Known(stored[k].id, LatestIdentity(h, k).id);
    assert p != i ==> Slots(h)[i] != k;
  }

  /** When the slots are 0, ..., n - 1, each is in the table. */
  lemma SlotsStored(h: seq<C.Fragment>, tools: C.ToolTable, next: nat)
    requires Chain.TableTracks(h, tools, next) && P.Contiguous(h)
    ensures forall k: nat :: k < |Slots(h)| ==> k in tools.calls && k in Slots(h)
  {
    SlotsDistinct(h);
    T.FullMeansContiguous(Slots(h));
    hide Slots, Chain.CallsTrack;
    forall k: nat | k < |Slots(h)| ensures k in tools.calls && k in Slots(h) {
      assert k in tools.calls <==> k in tools.outIndex;
    }
  }

  lemma PairsAgree(h: seq<C.Fragment>, s: C.State, calls: seq<M.Call>)
    requires Matches(h, s.tools.calls, calls) && DistinctFresh(calls, s.counters.serial)
    requires Chain.TableTracks(h, s.tools, s.counters.nextIndex) && P.Contiguous(h)
    ensures calls == T.SlotCalls(s.tools.calls, |Slots(h)|) <==> forall i :: 0 <= i < |Slots(h)| ==> Twin(h, Slots(h)[i], i)
  {
    var stored, n := s.tools.calls, |Slots(h)|;
    SlotsStored(h, s.tools, s.counters.nextIndex);
    SlotCallsAt(stored, n);
    MatchesCount(h, stored, calls);
    var listed := T.SlotCalls(stored, n);
    hide Slots, Matches, DistinctFresh, Twin, T.SlotCalls, P.Contiguous, Chain.CallsTrack, Chain.Ordered;
    forall i | 0 <= i < n ensures calls[i] == listed[i] <==> Twin(h, Slots(h)[i], i) {
      var k: nat := i;
      assert k in stored && k in Slots(h);
      TwinMeans(h, stored, calls, s.counters.serial, k);
    }
    hide C.ArgsOrObject;
  }

  lemma AgreeMeans(h: seq<C.Fragment>, s: C.State, calls: seq<M.Call>)
    requires Matches(h, s.tools.calls, calls) && DistinctFresh(calls, s.counters.serial) && Chain.ChatTracks(h, s)
    ensures calls == T.SlotCalls(s.tools.calls, |Slots(h)|) <==> CallsAgree(h)
  {
    T.CallsListed(h, s.tools, s.counters.nextIndex);
    MatchesCount(h, s.tools.calls, calls);
    hide Slots, Matches, DistinctFresh, Twin, T.SlotCalls, P.Contiguous, Chain.TableTracks;
    if P.Contiguous(h) { PairsAgree(h, s, calls); }
  }

  lemma MatchesCount(h: seq<C.Fragment>, stored: map<int, C.ToolCall>, calls: seq<M.Call>)
    requires Matches(h, stored, calls)
    ensures |calls| == |Slots(h)|
  {
  }

  /** A client of the output array and a client of the deltas see the same answer exactly when
      the slots are 0, ..., n - 1 and the array's i-th call is the i-th streamed one. */
  lemma StreamAndArrayAgree(chunks: seq<C.Chunk>)
    requires chunks != []
    ensures var s := C.FeedChunks(C.INITIAL, chunks);
            R.ReadOutput(T.FinalOutput(s)) == M.Meaning(C.Finalize(s).out) <==> CallsAgree(C.AllFragments(chunks))
  {
    var s, h := C.FeedChunks(C.INITIAL, chunks), C.AllFragments(chunks);
    T.ContentTheorem(chunks);
    StreamedCalls(chunks);
    hide C.FeedChunks, C.AllFragments, Matches, DistinctFresh, C.Finalize, M.Calls, T.FinalOutput, Chain.ChatTracks, T.SlotCalls;
    hide M.Spoken, M.Thought, R.ReadOutput;
    AgreeMeans(h, s, M.Calls(C.Finalize(s).out));
    hide CallsAgree;
  }

  /** No slot's first identifier turns up as the latest one of another. */
  predicate UniqueIds(h: seq<C.Fragment>) {
    forall i, j :: 0 <= i < |Slots(h)| && 0 <= j < |Slots(h)| ==>
      FirstIdentity(h, Slots(h)[i]).id != "" && FirstIdentity(h, Slots(h)[i]).id == LatestIdentity(h, Slots(h)[j]).id ==> i == j
  }

  /** Slots appear for the first time as 0, 1, ..., n - 1, their identities are never corrected,
      and no arguments are blank. */
  predicate Regular(h: seq<C.Fragment>) {
    forall i :: 0 <= i < |Slots(h)| ==>
      Slots(h)[i] == i && FirstIdentity(h, i) == LatestIdentity(h, i) && !IsBlank(Args(h, i))
  }

  lemma SelfTwin(h: seq<C.Fragment>, k: int)
    ensures Twin(h, k, k) <==> FirstIdentity(h, k) == LatestIdentity(h, k) && !IsBlank(Args(h, k))
  {
    Chain.BracesNotBlank();
    hide IsBlank, Args, FirstIdentity, LatestIdentity;
  }

  /** With unique identifiers, that is exactly when the deltas and the array agree. */
  lemma RegularExactly(h: seq<C.Fragment>)
    requires UniqueIds(h)
    ensures CallsAgree(h) <==> Regular(h)
  {
    hide Slots, Args, FirstIdentity, LatestIdentity, IsBlank, C.ArgsOrObject;
    var slots, n := Slots(h), |Slots(h)|;
    if CallsAgree(h) {
      T.FullMeansContiguous(slots) by { SlotsDistinct(h); }
      forall i | 0 <= i < n ensures slots[i] == i && FirstIdentity(h, i) == LatestIdentity(h, i) && !IsBlank(Args(h, i)) {
        assert Twin(h, slots[i], i);
        var k: nat := i;
        assert k in slots;
        var p :| 0 <= p < n && slots[p] == k;
        assert FirstIdentity(h, slots[i]).id != "" ==> i == p;
        SelfTwin(h, i);
      }
    }
    if Regular(h) {
      forall i | 0 <= i < n ensures Twin(h, slots[i], i) { SelfTwin(h, i); }
    }
  }

  /** The finish reasons the two clients are given. */
  function StreamedFinish(out: seq<Event>): Option<R.FinishReason> {
    var chunks := R.Run(R.INITIAL, out).out;
    if chunks != [] && chunks[|chunks| - 1].Finish? then Some(chunks[|chunks| - 1].reason) else None
  }

  lemma RunEnds(before: seq<Event>, e: Event)
    requires e.body.Terminal?
    ensures StreamedFinish(before + [e]) == Some(R.FinishOf(e.body.status, M.Starts(before) != []))
  {
    R.BothKeepMeaning(before);
    R.RunOne(R.INITIAL, before, e);
    hide R.Run, M.Starts, M.IndexTracks, R.JoinChunks, M.Meaning;
  }

  lemma {:induction false} SomeSlotCall(calls: map<int, C.ToolCall>, n: nat)
    ensures T.SlotCalls(calls, n) != [] <==> exists k: nat :: k < n && k in calls
  {
    hide C.ArgsOrObject;
    if n > 0 { SomeSlotCall(calls, n - 1); }
  }

  /** The finish reasons of the deltas and of the output array differ exactly when the answer was
      not cut at its length, made a call, and every slot in use lies outside 0, ..., n - 1: then
      the output array shows no call at all. */
  lemma FinishesAgree(chunks: seq<C.Chunk>)
    requires chunks != []
    ensures var s, h := C.FeedChunks(C.INITIAL, chunks), C.AllFragments(chunks);
            StreamedFinish(C.Finalize(s).out) == Some(R.Complete(C.FinalStatus(FinishReason(h)), T.FinalOutput(s)).finish) <==>
            FinishReason(h) == "length" || Slots(h) == [] || exists k: nat :: k < |Slots(h)| && k in Slots(h)
    ensures var s, h := C.FeedChunks(C.INITIAL, chunks), C.AllFragments(chunks);
            && StreamedFinish(C.Finalize(s).out) ==
               Some(if FinishReason(h) == "length" then R.Length else if Slots(h) != [] then R.ToolCalls else R.Stop)
            && R.Complete(C.FinalStatus(FinishReason(h)), T.FinalOutput(s)).finish ==
               if FinishReason(h) == "length" then R.Length
               else if exists k: nat :: k < |Slots(h)| && k in Slots(h) then R.ToolCalls
               else R.Stop
  {
    hide C.FeedChunks, C.AllFragments, C.Finalize, T.FinalOutput, R.ReadOutput, StreamedFinish, DistinctFresh;
    hide T.SlotCalls, Slots, FinishReason, Matches, M.Spoken, M.Thought, M.Calls, Chain.TableTracks, Written, Reasoned, LateReasoning;
    var s, h := C.FeedChunks(C.INITIAL, chunks), C.AllFragments(chunks);
    T.ContentTheorem(chunks);
    StreamedCalls(chunks);
    EndFinish(h, s);
    SomeSlotCall(s.tools.calls, |Slots(h)|);
    InTable(h, s.tools, s.counters.nextIndex);
  }

  lemma InTable(h: seq<C.Fragment>, tools: C.ToolTable, next: nat)
    requires Chain.TableTracks(h, tools, next)
    ensures forall k: int :: k in tools.calls <==> k in Slots(h)
  {
    hide Slots, Chain.CallsTrack;
    forall k: int ensures k in tools.calls <==> k in Slots(h) {
      assert k in tools.calls <==> k in tools.outIndex;
    }
  }

  lemma EndFinish(h: seq<C.Fragment>, s: C.State)
    requires Chain.ChatTracks(h, s) && Matches(h, s.tools.calls, M.Calls(C.Finalize(s).out))
    ensures StreamedFinish(C.Finalize(s).out) == Some(R.FinishOf(Some(C.FinalStatus(FinishReason(h))), Slots(h) != []))
  {
    T.FinalizeIs(s);
    var u := Chain.BeforeEnd(s);
    var t := u.(completed := true);
    EmitSame(t, T.EndBody(u));
    MatchesCount(h, s.tools.calls, M.Calls(C.Finalize(s).out));
    M.CallsAreStarts(u.out);
    RunEnds(u.out, Event(u.counters.seqNo, T.EndBody(u)));
    EndKeepsFinish(s);
    hide Chain.BeforeEnd, C.Finalize, Slots, FinishReason, StreamedFinish, M.Calls, M.Starts, M.Owner, Matches, Chain.TableTracks, C.Output;
  }

  lemma EndKeepsFinish(s: C.State)
    ensures Chain.BeforeEnd(s).finish == s.finish
  {
    hide C.CloseTools;
  }
}
