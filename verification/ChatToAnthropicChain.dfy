/** What a list of chat fragments says, read directly and without any translator. */
module FragmentHistory {
  import opened ChatToResponsesSpec

  /** The visible text and the reasoning text, each in order of arrival. */
  function Written(h: seq<Fragment>): string {
    if h == [] then "" else
    var f := h[|h| - 1];
    Written(h[..|h| - 1]) + if f.Content? then f.text else ""
  }

  function Reasoned(h: seq<Fragment>): string {
    if h == [] then "" else
    var f := h[|h| - 1];
    Reasoned(h[..|h| - 1]) + if f.Reason? then f.text else ""
  }

  /** The tool slots in order of first appearance. */
  function Slots(h: seq<Fragment>): seq<int> {
    if h == [] then [] else
    var before, f := Slots(h[..|h| - 1]), h[|h| - 1];
    if f.Tool? && f.call.Slot() !in before then before + [f.call.Slot()] else before
  }

  /** The argument pieces of one slot, joined, however other slots interleave. */
  function Args(h: seq<Fragment>, k: int): string {
    if h == [] then "" else
    var f := h[|h| - 1];
    Args(h[..|h| - 1], k) + if f.Tool? && f.call.Slot() == k then f.call.args else ""
  }

  /** The first and the latest identity a slot was given. */
  datatype Identity = Identity(id: string, name: string)

  function FirstIdentity(h: seq<Fragment>, k: int): Identity {
    if h == [] then Identity("", "") else
    var before, f := h[..|h| - 1], h[|h| - 1];
    if k !in Slots(before) && f.Tool? && f.call.Slot() == k then Identity(f.call.id, f.call.name)
    else FirstIdentity(before, k)
  }

  function LatestIdentity(h: seq<Fragment>, k: int): Identity {
    if h == [] then Identity("", "") else
    var before, f := LatestIdentity(h[..|h| - 1], k), h[|h| - 1];
    if f.Tool? && f.call.Slot() == k
    then Identity(if f.call.id != "" then f.call.id else before.id, if f.call.name != "" then f.call.name else before.name)
    else before
  }

  function FinishReason(h: seq<Fragment>): string {
    if h == [] then "" else
    if h[|h| - 1].Finish? then h[|h| - 1].reason else FinishReason(h[..|h| - 1])
  }

  /** The reasoning span has ended: something after it made the translator close it. */
  predicate SpanEnded(h: seq<Fragment>) {
    h != [] &&
    var before, f := h[..|h| - 1], h[|h| - 1];
    SpanEnded(before) ||
    (Reasoned(before) != "" && (f.Content? || (f.Tool? && f.call.Slot() !in Slots(before))))
  }

  /** Some reasoning arrived after its span had ended. */
  predicate LateReasoning(h: seq<Fragment>) {
    h != [] && (LateReasoning(h[..|h| - 1]) || (h[|h| - 1].Reason? && SpanEnded(h[..|h| - 1])))
  }

  /** Reasoning and content fragments are never empty: the translator skips empty deltas. */
  predicate Solid(h: seq<Fragment>) {
    forall i :: 0 <= i < |h| ==> (h[i].Reason? || h[i].Content? ==> h[i].text != "")
  }

  /** Every reading of a history with one more fragment. */
  lemma Extend(h: seq<Fragment>, f: Fragment)
    ensures var g := h + [f];
            && Written(g) == Written(h) + (if f.Content? then f.text else "")
            && Reasoned(g) == Reasoned(h) + (if f.Reason? then f.text else "")
            && Slots(g) == (if f.Tool? && f.call.Slot() !in Slots(h) then Slots(h) + [f.call.Slot()] else Slots(h))
            && FinishReason(g) == (if f.Finish? then f.reason else FinishReason(h))
            && SpanEnded(g) == (SpanEnded(h) || (Reasoned(h) != "" && (f.Content? || (f.Tool? && f.call.Slot() !in Slots(h)))))
            && LateReasoning(g) == (LateReasoning(h) || (f.Reason? && SpanEnded(h)))
    ensures forall k :: Args(h + [f], k) == Args(h, k) + if f.Tool? && f.call.Slot() == k then f.call.args else ""
    ensures forall k :: FirstIdentity(h + [f], k) ==
                        if k !in Slots(h) && f.Tool? && f.call.Slot() == k then Identity(f.call.id, f.call.name)
                        else FirstIdentity(h, k)
    ensures forall k :: LatestIdentity(h + [f], k) ==
                        if f.Tool? && f.call.Slot() == k
                        then var l := LatestIdentity(h, k);
                             Identity(if f.call.id != "" then f.call.id else l.id,
                                      if f.call.name != "" then f.call.name else l.name)
                        else LatestIdentity(h, k)
  {
    assert (h + [f])[..|h|] == h;
  }

  /** A slot that never appeared has said nothing. */
  lemma {:induction false} Silent(h: seq<Fragment>, k: int)
    requires k !in Slots(h)
    ensures Args(h, k) == "" && LatestIdentity(h, k) == Identity("", "")
  {
    if h != [] { Silent(h[..|h| - 1], k); }
  }

  lemma {:induction false} ToolFragmentsSolid(tools: seq<ToolFragment>)
    ensures Solid(ToolFragments(tools))
  {
    if tools != [] { ToolFragmentsSolid(tools[..|tools| - 1]); }
  }

  lemma {:induction false} FragmentsSolid(choices: seq<Choice>)
    ensures Solid(Fragments(choices))
  {
    if choices != [] {
      FragmentsSolid(choices[..|choices| - 1]);
      ToolFragmentsSolid(choices[|choices| - 1].tools);
    }
  }

  lemma {:induction false} AllFragmentsSolid(chunks: seq<Chunk>)
    ensures Solid(AllFragments(chunks))
  {
    if chunks != [] {
      AllFragmentsSolid(chunks[..|chunks| - 1]);
      FragmentsSolid(chunks[|chunks| - 1].choices);
    }
  }

  lemma {:induction false} SlotsDistinct(h: seq<Fragment>)
    ensures forall i, j :: 0 <= i < j < |Slots(h)| ==> Slots(h)[i] != Slots(h)[j]
    ensures forall k :: k in Slots(h) <==> exists i :: 0 <= i < |h| && h[i].Tool? && h[i].call.Slot() == k
  {
    if h != [] {
      var before, n := h[..|h| - 1], |h| - 1;
      SlotsDistinct(before);
      forall k ensures k in Slots(h) <==> exists i :: 0 <= i < |h| && h[i].Tool? && h[i].call.Slot() == k {
        if k in Slots(before) {
          var i :| 0 <= i < n && before[i].Tool? && before[i].call.Slot() == k;
          assert h[i].Tool? && h[i].call.Slot() == k;
        }
        forall i | 0 <= i < n && h[i].Tool? && h[i].call.Slot() == k ensures k in Slots(before) {
          assert before[i].Tool? && before[i].call.Slot() == k;
        }
      }
    }
  }

  /** A fragment that ends a reasoning span: content, or the first fragment of a tool slot. */
  predicate Ends(h: seq<Fragment>, j: nat)
    requires j < |h|
  {
    h[j].Content? || (h[j].Tool? && forall i :: 0 <= i < j && h[i].Tool? ==> h[i].call.Slot() != h[j].call.Slot())
  }

  lemma EndsPrefix(h: seq<Fragment>)
    requires h != []
    ensures var before, n := h[..|h| - 1], |h| - 1;
            && (forall j :: 0 <= j < n ==> Ends(h, j) == Ends(before, j))
            && (Ends(h, n) <==> h[n].Content? || (h[n].Tool? && h[n].call.Slot() !in Slots(before)))
  {
    var before, n := h[..|h| - 1], |h| - 1;
    SlotsDistinct(before);
    if h[n].Tool? {
      var k := h[n].call.Slot();
      forall i | 0 <= i < n && h[i].Tool? && h[i].call.Slot() == k ensures k in Slots(before) {
        assert before[i].Tool? && before[i].call.Slot() == k;
      }
      hide Slots;
      if k in Slots(before) {
        var i :| 0 <= i < n && before[i].Tool? && before[i].call.Slot() == k;
        assert h[i].Tool? && h[i].call.Slot() == k;
      }
    }
  }

  lemma {:induction false} ReasonedMeans(h: seq<Fragment>)
    requires Solid(h)
    ensures Reasoned(h) != "" <==> exists i :: 0 <= i < |h| && h[i].Reason?
  {
    if h != [] {
      var before, n := h[..|h| - 1], |h| - 1;
      ReasonedMeans(before);
      if i :| 0 <= i < n && before[i].Reason? { assert h[i].Reason?; }
      if i :| 0 <= i < |h| && h[i].Reason? { assert i < n ==> before[i].Reason?; }
    }
  }

  lemma {:induction false} SpanEndedMeans(h: seq<Fragment>)
    requires Solid(h)
    ensures SpanEnded(h) <==> exists i, j :: 0 <= i < j < |h| && h[i].Reason? && Ends(h, j)
  {
    if h != [] {
      var before, n := h[..|h| - 1], |h| - 1;
      SpanEndedMeans(before);
      ReasonedMeans(before);
      EndsPrefix(h);
      assert before + [h[n]] == h;
      Extend(before, h[n]);
      hide Ends, Slots, SpanEnded, Reasoned, Written, LateReasoning, FinishReason, Args, FirstIdentity, LatestIdentity;
      if i, j :| 0 <= i < j < n && before[i].Reason? && Ends(before, j) { assert h[i].Reason? && Ends(h, j); }
      if i :| 0 <= i < n && before[i].Reason? && Ends(h, n) { assert h[i].Reason?; }
      if i, j :| 0 <= i < j < |h| && h[i].Reason? && Ends(h, j) {
        assert before[i].Reason? && (j < n ==> Ends(before, j));
      }
    }
  }

  /** Late reasoning, in words: two reasoning fragments with something in between that ends
      the span. Any caller can check this on the chunks alone. */
  lemma {:induction false} LateReasoningMeans(h: seq<Fragment>)
    requires Solid(h)
    ensures LateReasoning(h) <==>
            exists i, j, k :: 0 <= i < j < k < |h| && h[i].Reason? && Ends(h, j) && h[k].Reason?
  {
    if h != [] {
      var before, n := h[..|h| - 1], |h| - 1;
      LateReasoningMeans(before);
      SpanEndedMeans(before);
      EndsPrefix(h);
      hide Ends, Slots, SpanEnded;
      if LateReasoning(before) {
        var i, j, k :| 0 <= i < j < k < n && before[i].Reason? && Ends(before, j) && before[k].Reason?;
        assert h[i].Reason? && Ends(h, j) && h[k].Reason?;
      } else if LateReasoning(h) {
        var i, j :| 0 <= i < j < n && before[i].Reason? && Ends(before, j);
        assert h[i].Reason? && Ends(h, j) && h[n].Reason?;
      }
    }
  }
}

/** The Chat -> Responses -> Anthropic chain: the Anthropic translator, buffering tool
    calls, reads every event the chat translator has emitted. */
module ChatToAnthropicChain {
  import opened Text
  import R = ResponsesEvents
  import opened AnthropicEvents
  import C = ChatToResponsesSpec
  import A = ResponsesToAnthropicSpec
  import opened H = FragmentHistory

  /** The Anthropic side of a chat translator state. */
  ghost function View(codec: A.Codec, c: C.State): A.State {
    A.Run(codec, A.Initial(true), c.out)
  }

  lemma ViewEmit(codec: A.Codec, c: C.State, body: R.Body)
    ensures View(codec, C.Emit(c, body)) == A.Step(codec, View(codec, c), body)
  {
    A.RunOne(codec, A.Initial(true), c.out, R.Event(c.counters.seqNo, body));
  }

  // ---- each helper of the chat translator, seen from the Anthropic side -----------------

  lemma ViewCreated(codec: A.Codec, c: C.State)
    ensures View(codec, C.EnsureCreated(c)) == if c.created then View(codec, c) else A.Start(View(codec, c))
  {
    ViewEmit(codec, c.(created := true), R.Created);
  }

  lemma ViewOpenReasoning(codec: A.Codec, c: C.State)
    requires !c.reasoning.open && !c.reasoning.done
    ensures var d := C.OpenReasoning(c);
            View(codec, d) == A.AddItem(View(codec, c), d.reasoning.index, R.ReasoningItem(d.reasoning.id, "", false))
  {
    hide A.Run;
    var r := c.reasoning.(open := true, id := R.Fresh(c.counters.serial), index := c.counters.nextIndex);
    var t := c.(reasoning := r, counters := C.Allocated(C.Drawn(c.counters)));
    var b := R.ItemAdded(r.index, R.ReasoningItem(r.id, "", false));
    ViewEmit(codec, t, b);
    ViewEmit(codec, C.Emit(t, b), R.SummaryPartAdded(r.index, r.id));
  }

  lemma ViewCloseReasoning(codec: A.Codec, c: C.State)
    ensures View(codec, C.CloseReasoning(c)) ==
            if c.reasoning.open then A.CloseBlock(View(codec, c)) else View(codec, c)
  {
    hide A.Run;
    var r := c.reasoning.(open := false, done := true);
    var t := c.(reasoning := r);
    var b1, b2, b3 := R.SummaryTextDone(r.index, r.id, r.text), R.SummaryPartDone(r.index, r.id, r.text),
                      R.ItemDone(r.index, R.ReasoningItem(r.id, r.text, true));
    ViewEmit(codec, t, b1);
    ViewEmit(codec, C.Emit(t, b1), b2);
    ViewEmit(codec, C.Emit(C.Emit(t, b1), b2), b3);
  }

  lemma ViewOpenMessage(codec: A.Codec, c: C.State)
    ensures View(codec, C.OpenTextPart(C.OpenMessage(c))) == View(codec, c)
  {
    hide A.Run;
    var m := c.message.(id := R.Fresh(c.counters.serial), index := c.counters.nextIndex);
    ViewEmit(codec, c.(message := m, counters := C.Allocated(C.Drawn(c.counters))),
             R.ItemAdded(m.index, R.MessageItem(m.id, "", false)));
    var d := C.OpenMessage(c);
    ViewEmit(codec, d.(message := d.message.(partOpen := true)), R.PartAdded(d.message.index, d.message.id));
  }

  lemma ViewAddText(codec: A.Codec, c: C.State, delta: string)
    ensures View(codec, C.AddText(c, delta)) == A.AddText(View(codec, c), delta)
  {
    hide A.Run;
    ViewOpenMessage(codec, c);
    var t := C.OpenTextPart(C.OpenMessage(c));
    ViewEmit(codec, t.(message := t.message.(text := t.message.text + delta)),
             R.TextDelta(t.message.index, t.message.id, delta));
  }

  lemma ViewAddReasoning(codec: A.Codec, c: C.State, delta: string)
    ensures var t := C.OpenReasoning(c);
            View(codec, C.AddReasoning(c, delta)) == A.AddReasoning(View(codec, t), t.reasoning.index, delta)
  {
    hide A.Run;
    var t := C.OpenReasoning(c);
    ViewEmit(codec, t.(reasoning := t.reasoning.(text := t.reasoning.text + delta)),
             R.ReasoningDelta(t.reasoning.index, t.reasoning.id, delta));
  }

  lemma ViewOpenTool(codec: A.Codec, c: C.State, f: C.ToolFragment)
    ensures var d := C.OpenTool(c, f);
            View(codec, d) == A.AddItem(View(codec, C.CloseReasoning(c)), d.tools.outIndex[f.Slot()],
                                        R.CallItem(d.tools.itemIds[f.Slot()], d.tools.calls[f.Slot()].id, f.name, "", false))
  {
    hide A.Run;
    var t := C.CloseReasoning(c);
    var d := C.OpenTool(c, f);
    var cs := if f.id == "" then C.Drawn(t.counters) else t.counters;
    ViewEmit(codec, t.(tools := d.tools, counters := C.Allocated(C.Drawn(cs))),
             R.ItemAdded(cs.nextIndex, R.CallItem(R.Fresh(cs.serial), d.tools.calls[f.Slot()].id, f.name, "", false)));
  }

  lemma ViewAddArgs(codec: A.Codec, c: C.State, k: int, delta: string)
    requires k in c.tools.calls
    ensures View(codec, C.AddArgs(c, k, delta)) ==
            A.AddArgs(View(codec, c), Lookup(c.tools.outIndex, k, 0), delta)
  {
    hide A.Run;
    if delta != "" {
      var call := c.tools.calls[k].(args := c.tools.calls[k].args + delta);
      ViewEmit(codec, C.SetCall(c, k, call),
               R.ArgsDelta(Lookup(c.tools.outIndex, k, 0), Lookup(c.tools.itemIds, k, R.NoId), delta, call.id, call.name));
    }
  }

  lemma ViewCloseMessage(codec: A.Codec, c: C.State)
    ensures View(codec, C.CloseMessage(c)) ==
            if c.message.id.NoId? then View(codec, c) else A.CloseBlock(View(codec, c))
  {
    hide A.Run;
    var m := c.message;
    var b1, b2 := R.TextDone(m.index, m.id, m.text), R.PartDone(m.index, m.id, m.text);
    ViewEmit(codec, c, b1);
    ViewEmit(codec, C.Emit(c, b1), b2);
    var t := if !m.partOpen then c else C.Emit(C.Emit(c, b1), b2);
    ViewEmit(codec, t, R.ItemDone(m.index, R.MessageItem(m.id, m.text, true)));
  }

  lemma ViewCloseTool(codec: A.Codec, c: C.State, k: int)
    requires k in c.tools.calls && View(codec, c).buffered
    ensures var call, x := c.tools.calls[k], Lookup(c.tools.outIndex, k, 0);
            var p := Lookup(View(codec, c).pending, x, A.NO_PENDING);
            View(codec, C.CloseTool(c, k)) ==
            A.SetPending(View(codec, c), x, A.Confirm(p, call.id, call.name, C.ArgsOrObject(call.args)))
  {
    hide A.Run;
    var call, x, id := c.tools.calls[k], Lookup(c.tools.outIndex, k, 0), Lookup(c.tools.itemIds, k, R.NoId);
    var b := R.ArgsDone(x, id, call.id, call.name, C.ArgsOrObject(call.args));
    ViewEmit(codec, c, b);
    ViewEmit(codec, C.Emit(c, b), R.ItemDone(x, R.CallItem(id, call.id, call.name, C.ArgsOrObject(call.args), true)));
    var a := View(codec, c);
    var p := A.Confirm(Lookup(a.pending, x, A.NO_PENDING), call.id, call.name, C.ArgsOrObject(call.args));
    assert a.pending[x := p][x := p] == a.pending[x := p];
  }

  // ---- what a reader of the Anthropic stream sees --------------------------------------

  function BlockFor(kind: A.CurrentType): Block {
    if kind == A.ThinkingType then ThinkingBlock else TextBlock
  }

  /** Where a reader stands: in step with the translator, or lost after late reasoning. */
  function PhaseFor(block: A.BlockPart, late: bool): Phase {
    if late then Broken else if block.open then Inside(block.index, BlockFor(block.kind)) else Idle(block.index)
  }

  ghost predicate InStep(s: A.State, late: bool, text: string, thinking: string) {
    && ReadAll(s.out) == Reading(PhaseFor(s.block, late), text, thinking, [])
    && (s.block.open ==> s.block.kind == A.TextType || s.block.kind == A.ThinkingType)
  }

  lemma CloseInStep(s: A.State, late: bool, text: string, thinking: string)
    requires InStep(s, late, text, thinking)
    ensures InStep(A.CloseBlock(s), late, text, thinking)
  {
    hide ReadAll;
    ReadOne(s.out, BlockStop(s.block.index));
  }

  lemma OpenInStep(s: A.State, late: bool, text: string, thinking: string, kind: A.CurrentType)
    requires InStep(s, late, text, thinking) && !s.block.open
    requires kind == A.TextType || kind == A.ThinkingType
    ensures InStep(A.OpenBlock(s, kind, BlockFor(kind)), late, text, thinking)
  {
    hide ReadAll;
    ReadOne(s.out, BlockStart(s.block.index, BlockFor(kind)));
  }

  lemma AddTextInStep(s: A.State, late: bool, text: string, thinking: string, delta: string)
    requires InStep(s, late, text, thinking) && delta != ""
    ensures var t := A.AddText(s, delta);
            && InStep(t, late, text + delta, thinking) && t.block.open && t.block.kind == A.TextType
            && t.block.index >= s.block.index
            && t == s.(block := t.block, tool := t.tool, out := t.out)
  {
    hide ReadAll;
    CloseInStep(s, late, text, thinking);
    var c := A.CloseBlock(s);
    OpenInStep(c, late, text, thinking, A.TextType);
    var t := if s.block.open && s.block.kind == A.TextType then s else A.OpenBlock(c, A.TextType, TextBlock);
    ReadOne(t.out, BlockDelta(t.block.index, TextPiece(delta)));
  }

  lemma ThinkInStep(s: A.State, late: bool, text: string, thinking: string, x: int, delta: string)
    requires InStep(s, late, text, thinking) && delta != "" && x in s.blockOf
    requires s.blockOf[x] <= s.block.index
    requires s.blockOf[x] == s.block.index ==> s.block.open && s.block.kind == A.ThinkingType
    ensures InStep(A.AddReasoning(s, x, delta), late || s.blockOf[x] < s.block.index, text, thinking + delta)
  {
    hide ReadAll;
    ReadOne(s.out, BlockDelta(s.blockOf[x], ThinkingPiece(delta)));
  }

  // ---- the joint invariant ------------------------------------------------------------

  /** An identifier that was given is kept; otherwise the gateway drew one. */
  predicate Known(id: R.Id, text: string) {
    if text != "" then id == R.Given(text) else id.Fresh?
  }

  /** Output indices are handed out in order of first appearance. */
  ghost predicate Ordered(slots: seq<int>, outIndex: map<int, nat>, nextIndex: nat) {
    && (forall k :: k in outIndex <==> k in slots)
    && (forall i, j :: 0 <= i < j < |slots| ==> Lookup(outIndex, slots[i], 0) < Lookup(outIndex, slots[j], 0))
    && (forall i :: 0 <= i < |slots| ==> Lookup(outIndex, slots[i], 0) < nextIndex)
  }

  ghost predicate CallsTrack(h: seq<C.Fragment>, calls: map<int, C.ToolCall>) {
    forall k :: k in calls ==>
      && calls[k].args == Args(h, k)
      && calls[k].name == LatestIdentity(h, k).name
      && Known(calls[k].id, LatestIdentity(h, k).id)
  }

  ghost predicate TableTracks(h: seq<C.Fragment>, tools: C.ToolTable, nextIndex: nat) {
    && tools.calls.Keys == tools.itemIds.Keys == tools.outIndex.Keys
    && Ordered(Slots(h), tools.outIndex, nextIndex)
    && CallsTrack(h, tools.calls)
  }

  ghost predicate Holds(p: A.Pending, h: seq<C.Fragment>, k: int) {
    p.args == Args(h, k) && p.name == FirstIdentity(h, k).name && Known(p.callId, FirstIdentity(h, k).id) && p.final == ""
  }

  /** The output indices of the slots, in order. */
  function Indices(slots: seq<int>, outIndex: map<int, nat>): seq<int> {
    seq(|slots|, i requires 0 <= i < |slots| => Lookup(outIndex, slots[i], 0))
  }

  ghost predicate PendingTracks(h: seq<C.Fragment>, outIndex: map<int, nat>, pending: map<int, A.Pending>) {
    var xs := Indices(Slots(h), outIndex);
    && (forall x :: x in pending <==> x in xs)
    && (forall i :: 0 <= i < |xs| ==> Holds(Lookup(pending, xs[i], A.NO_PENDING), h, Slots(h)[i]))
  }

  ghost predicate ChatTracks(h: seq<C.Fragment>, c: C.State) {
    && c.created && !c.completed && c.finish == FinishReason(h)
    && c.message.text == Written(h) && (c.message.id.NoId? <==> Written(h) == "")
    && c.reasoning.text == Reasoned(h) && (c.reasoning.open || c.reasoning.done <==> Reasoned(h) != "")
    && !(c.reasoning.open && c.reasoning.done) && (c.reasoning.done <==> SpanEnded(h))
    && TableTracks(h, c.tools, c.counters.nextIndex)
  }

  /** The reasoning item and the block that shows it. */
  ghost predicate SpanTracks(r: C.ReasoningPart, a: A.State) {
    && (r.open ==> a.block.open && a.block.kind == A.ThinkingType && r.index in a.blockOf && a.blockOf[r.index] == a.block.index)
    && (r.done ==> r.index in a.blockOf && a.blockOf[r.index] < a.block.index)
    && (!r.open && a.block.open ==> a.block.kind == A.TextType)
  }

  ghost predicate ViewTracks(h: seq<C.Fragment>, c: C.State, a: A.State) {
    && a.buffered && a.started && !a.stopped && (a.hasTool <==> Slots(h) != [])
    && PendingTracks(h, c.tools.outIndex, a.pending)
    && SpanTracks(c.reasoning, a)
    && InStep(a, LateReasoning(h), Written(h), Reasoned(h))
  }

  ghost predicate Tracks(codec: A.Codec, h: seq<C.Fragment>, c: C.State) {
    ChatTracks(h, c) && ViewTracks(h, c, View(codec, c))
  }

  lemma TrackStart(codec: A.Codec)
    ensures Tracks(codec, [], C.EnsureCreated(C.INITIAL))
  {
    ViewCreated(codec, C.INITIAL);
    ReadOne([], MessageStart);
  }

  lemma ChatReason(h: seq<C.Fragment>, c: C.State, delta: string)
    requires ChatTracks(h, c) && delta != ""
    ensures ChatTracks(h + [C.Reason(delta)], C.AddReasoning(c, delta))
  {
    hide Written, Reasoned, Slots, Args, FirstIdentity, LatestIdentity, SpanEnded, LateReasoning, FinishReason;
    Extend(h, C.Reason(delta));
  }

  lemma ChatContent(h: seq<C.Fragment>, c: C.State, delta: string)
    requires ChatTracks(h, c) && delta != ""
    ensures ChatTracks(h + [C.Content(delta)], C.AddText(C.CloseReasoning(c), delta))
  {
    hide Written, Reasoned, Slots, Args, FirstIdentity, LatestIdentity, SpanEnded, LateReasoning, FinishReason;
    Extend(h, C.Content(delta));
  }

  lemma OrderedOpen(slots: seq<int>, outIndex: map<int, nat>, k: int, n: nat)
    requires Ordered(slots, outIndex, n) && k !in slots
    ensures Ordered(slots + [k], outIndex[k := n], n + 1)
  {
    var s, m := slots + [k], outIndex[k := n];
    forall i | 0 <= i < |slots| ensures Lookup(m, s[i], 0) == Lookup(outIndex, slots[i], 0) {
      var x := slots[i];
      assert x in slots;
    }
    forall x ensures x in m <==> x in s {
      assert x in s <==> x in slots || x == k;
    }
  }

  lemma CallsTool(h: seq<C.Fragment>, f: C.ToolFragment, calls: map<int, C.ToolCall>, call: C.ToolCall)
    requires CallsTrack(h, calls)
    requires if f.Slot() in calls then var c := C.Renamed(calls[f.Slot()], f); call == c.(args := c.args + f.args)
             else f.Slot() !in Slots(h) && call.args == f.args && call.name == f.name && Known(call.id, f.id)
    ensures CallsTrack(h + [C.Tool(f)], calls[f.Slot() := call])
  {
    hide Written, Reasoned, Slots, Args, FirstIdentity, LatestIdentity, SpanEnded, LateReasoning, FinishReason;
    Extend(h, C.Tool(f));
    if f.Slot() !in Slots(h) { Silent(h, f.Slot()); }
    assert "" + f.args == f.args;
  }

  lemma OpenToolShape(c: C.State, f: C.ToolFragment)
    ensures var d, k := C.OpenTool(c, f), f.Slot();
            && k in d.tools.calls && d.tools.calls == c.tools.calls[k := d.tools.calls[k]]
            && d == c.(counters := d.counters, reasoning := d.reasoning, tools := d.tools, out := d.out)
            && d.tools.calls[k].args == "" && d.tools.calls[k].name == f.name
            && Known(d.tools.calls[k].id, f.id) && d.reasoning == C.CloseReasoning(c).reasoning
            && k in d.tools.itemIds && d.tools.itemIds == c.tools.itemIds[k := d.tools.itemIds[k]]
            && d.tools.outIndex == c.tools.outIndex[k := c.counters.nextIndex]
            && d.counters.nextIndex == c.counters.nextIndex + 1
  {
  }

  lemma AddArgsShape(c: C.State, k: int, delta: string)
    requires k in c.tools.calls
    ensures var d, call := C.AddArgs(c, k, delta), c.tools.calls[k];
            && d.tools == c.tools.(calls := c.tools.calls[k := call.(args := call.args + delta)])
            && d == c.(counters := d.counters, tools := d.tools, out := d.out) && d.counters.nextIndex == c.counters.nextIndex
  {
    assert c.tools.calls[k].args + "" == c.tools.calls[k].args;
  }

  /** What a tool fragment does to the table, on a known slot and on a new one. */
  lemma AddToolShape(c: C.State, f: C.ToolFragment)
    ensures var d, k := C.AddTool(c, f), f.Slot();
            && k in d.tools.calls && d.tools.calls == c.tools.calls[k := d.tools.calls[k]]
            && d == c.(counters := d.counters, reasoning := d.reasoning, tools := d.tools, out := d.out)
            && if k in c.tools.calls then
                 var r := C.Renamed(c.tools.calls[k], f);
                 && d.tools.calls[k] == r.(args := r.args + f.args) && d.reasoning == c.reasoning
                 && d.tools.itemIds == c.tools.itemIds && d.tools.outIndex == c.tools.outIndex
                 && d.counters.nextIndex == c.counters.nextIndex
               else
                 && d.tools.calls[k].args == f.args && d.tools.calls[k].name == f.name
                 && Known(d.tools.calls[k].id, f.id) && d.reasoning == C.CloseReasoning(c).reasoning
                 && k in d.tools.itemIds && d.tools.itemIds == c.tools.itemIds[k := d.tools.itemIds[k]]
                 && d.tools.outIndex == c.tools.outIndex[k := c.counters.nextIndex]
                 && d.counters.nextIndex == c.counters.nextIndex + 1
  {
    var k := f.Slot();
    assert "" + f.args == f.args;
    OpenToolShape(c, f);
    var t := if k in c.tools.calls then C.SetCall(c, k, C.Renamed(c.tools.calls[k], f)) else C.OpenTool(c, f);
    AddArgsShape(t, k, f.args);
    hide C.OpenTool, C.AddArgs, C.CloseReasoning;
  }

  lemma SlotsNext(h: seq<C.Fragment>, f: C.ToolFragment)
    ensures Slots(h + [C.Tool(f)]) == if f.Slot() in Slots(h) then Slots(h) else Slots(h) + [f.Slot()]
  {
    Extend(h, C.Tool(f));
  }

  lemma SlotKnown(h: seq<C.Fragment>, tools: C.ToolTable, n: nat, k: int)
    requires TableTracks(h, tools, n)
    ensures k in tools.calls <==> k in Slots(h)
  {
    assert k in tools.calls <==> k in tools.outIndex;
  }

  lemma TableKeys(c: C.State, f: C.ToolFragment)
    requires c.tools.calls.Keys == c.tools.itemIds.Keys == c.tools.outIndex.Keys
    ensures var t := C.AddTool(c, f).tools; t.calls.Keys == t.itemIds.Keys == t.outIndex.Keys
  {
    AddToolShape(c, f);
    var k, t := f.Slot(), C.AddTool(c, f).tools;
    hide C.AddTool, Known, C.Renamed, C.CloseReasoning;
    assert t.calls.Keys == c.tools.calls.Keys + {k};
    assert k in c.tools.calls || t.itemIds.Keys == c.tools.itemIds.Keys + {k};
    assert k in c.tools.calls ==> c.tools.calls.Keys + {k} == c.tools.calls.Keys;
  }

  lemma TableTool(h: seq<C.Fragment>, c: C.State, f: C.ToolFragment)
    requires TableTracks(h, c.tools, c.counters.nextIndex)
    ensures var d := C.AddTool(c, f); TableTracks(h + [C.Tool(f)], d.tools, d.counters.nextIndex)
  {
    var k, d := f.Slot(), C.AddTool(c, f);
    SlotsNext(h, f);
    TableKeys(c, f);
    AddToolShape(c, f);
    SlotKnown(h, c.tools, c.counters.nextIndex, k);
    hide Slots, C.AddTool, CallsTrack, Ordered, Known, C.Renamed, C.CloseReasoning;
    CallsTool(h, f, c.tools.calls, d.tools.calls[k]);
    if k !in Slots(h) { OrderedOpen(Slots(h), c.tools.outIndex, k, c.counters.nextIndex); }
  }

  lemma ChatTool(h: seq<C.Fragment>, c: C.State, f: C.ToolFragment)
    requires ChatTracks(h, c)
    ensures ChatTracks(h + [C.Tool(f)], C.AddTool(c, f))
  {
    hide Written, Reasoned, Slots, Args, FirstIdentity, LatestIdentity, SpanEnded, LateReasoning, FinishReason, C.AddTool;
    Extend(h, C.Tool(f));
    TableTool(h, c, f);
    AddToolShape(c, f);
    assert f.Slot() in c.tools.calls <==> f.Slot() in c.tools.outIndex;
    hide TableTracks;
  }

  // ---- one fragment, both sides --------------------------------------------------------

  lemma PendingSame(h: seq<C.Fragment>, f: C.Fragment, outIndex: map<int, nat>, pending: map<int, A.Pending>)
    requires PendingTracks(h, outIndex, pending) && !f.Tool?
    ensures PendingTracks(h + [f], outIndex, pending)
  {
    hide Written, Reasoned, Slots, Args, FirstIdentity, LatestIdentity, SpanEnded, LateReasoning, FinishReason;
    Extend(h, f);
  }

  lemma IndicesOpen(slots: seq<int>, outIndex: map<int, nat>, k: int, n: nat)
    requires Ordered(slots, outIndex, n) && k !in slots
    ensures Indices(slots + [k], outIndex[k := n]) == Indices(slots, outIndex) + [n]
    ensures n !in Indices(slots, outIndex)
  {
    forall i | 0 <= i < |slots| ensures Lookup(outIndex[k := n], slots[i], 0) == Lookup(outIndex, slots[i], 0) {
      var x := slots[i];
      assert x in slots;
    }
  }

  lemma HoldsNew(h: seq<C.Fragment>, f: C.ToolFragment, callId: R.Id)
    requires f.Slot() !in Slots(h) && Known(callId, f.id)
    ensures Holds(A.Pending(callId, f.name, f.args, ""), h + [C.Tool(f)], f.Slot())
  {
    Extend(h, C.Tool(f));
    Silent(h, f.Slot());
    assert "" + f.args == f.args;
    hide Args, FirstIdentity;
  }

  lemma HoldsAgain(p: A.Pending, h: seq<C.Fragment>, f: C.ToolFragment)
    requires f.Slot() in Slots(h) && Holds(p, h, f.Slot())
    ensures Holds(p.(args := p.args + f.args), h + [C.Tool(f)], f.Slot())
  {
    Extend(h, C.Tool(f));
    hide Args, FirstIdentity;
  }

  lemma HoldsElse(p: A.Pending, h: seq<C.Fragment>, f: C.ToolFragment, k: int)
    requires f.Slot() != k && Holds(p, h, k)
    ensures Holds(p, h + [C.Tool(f)], k)
  {
    Extend(h, C.Tool(f));
    assert Args(h, k) + "" == Args(h, k);
    hide Args, FirstIdentity;
  }

  lemma OneMoreKey(pending: map<int, A.Pending>, xs: seq<int>, n: int, p: A.Pending)
    requires forall x :: x in pending <==> x in xs
    ensures forall x :: x in pending[n := p] <==> x in xs + [n]
    ensures n in xs ==> forall x :: x in pending[n := p] <==> x in xs
  {
  }

  lemma PendingOpen(h: seq<C.Fragment>, f: C.ToolFragment, outIndex: map<int, nat>, pending: map<int, A.Pending>,
                    n: nat, callId: R.Id)
    requires PendingTracks(h, outIndex, pending) && Ordered(Slots(h), outIndex, n)
    requires f.Slot() !in Slots(h) && Known(callId, f.id)
    ensures PendingTracks(h + [C.Tool(f)], outIndex[f.Slot() := n], pending[n := A.Pending(callId, f.name, f.args, "")])
    ensures n !in pending
  {
    hide Slots, Holds, Known;
    SlotsNext(h, f);
    IndicesOpen(Slots(h), outIndex, f.Slot(), n);
    HoldsNew(h, f, callId);
    var slots, xs, p := Slots(h), Indices(Slots(h), outIndex), A.Pending(callId, f.name, f.args, "");
    assert |xs| == |slots|;
    OneMoreKey(pending, xs, n, p);
    hide Indices, Ordered;
    forall i | 0 <= i < |xs| ensures Holds(Lookup(pending[n := p], xs[i], A.NO_PENDING), h + [C.Tool(f)], slots[i]) {
      var x, k := xs[i], slots[i];
      assert x in xs && k in slots;
      HoldsElse(Lookup(pending, x, A.NO_PENDING), h, f, k);
    }
  }

  lemma IndicesDistinct(slots: seq<int>, outIndex: map<int, nat>, n: nat)
    requires Ordered(slots, outIndex, n)
    ensures var xs := Indices(slots, outIndex);
            |xs| == |slots| && (forall i, j :: 0 <= i < |xs| && 0 <= j < |xs| && i != j ==> xs[i] != xs[j])
            && forall i :: 0 <= i < |xs| ==> xs[i] == Lookup(outIndex, slots[i], 0)
  {
    var xs := Indices(slots, outIndex);
    forall i, j | 0 <= i < |xs| && 0 <= j < |xs| && i != j ensures xs[i] != xs[j] {
      assert Lookup(outIndex, slots[i], 0) != Lookup(outIndex, slots[j], 0);
    }
  }

  lemma PendingAgain(h: seq<C.Fragment>, f: C.ToolFragment, outIndex: map<int, nat>, pending: map<int, A.Pending>, n: nat)
    requires PendingTracks(h, outIndex, pending) && Ordered(Slots(h), outIndex, n) && f.Slot() in Slots(h)
    ensures var x := Lookup(outIndex, f.Slot(), 0);
            var p := Lookup(pending, x, A.NO_PENDING);
            PendingTracks(h + [C.Tool(f)], outIndex, pending[x := p.(args := p.args + f.args)])
  {
    hide Slots, Holds;
    SlotsNext(h, f);
    SlotsDistinct(h);
    IndicesDistinct(Slots(h), outIndex, n);
    hide Ordered, Indices;
    var slots, xs := Slots(h), Indices(Slots(h), outIndex);
    var i :| 0 <= i < |slots| && slots[i] == f.Slot();
    var x := xs[i];
    var p := Lookup(pending, x, A.NO_PENDING);
    var q := p.(args := p.args + f.args);
    assert x in xs;
    OneMoreKey(pending, xs, x, q);
    HoldsAgain(p, h, f);
    forall j | 0 <= j < |xs| ensures Holds(Lookup(pending[x := q], xs[j], A.NO_PENDING), h + [C.Tool(f)], slots[j]) {
      if j != i { HoldsElse(Lookup(pending, xs[j], A.NO_PENDING), h, f, slots[j]); }
    }
  }

  lemma ReasonStep(codec: A.Codec, h: seq<C.Fragment>, c: C.State, delta: string)
    requires Tracks(codec, h, c) && delta != ""
    ensures Tracks(codec, h + [C.Reason(delta)], C.AddReasoning(c, delta))
  {
    hide Written, Reasoned, Slots, Args, FirstIdentity, LatestIdentity, SpanEnded, LateReasoning, FinishReason, TableTracks, A.Run, ReadAll;
    var f := C.Reason(delta);
    Extend(h, f);
    ChatReason(h, c, delta);
    ViewAddReasoning(codec, c, delta);
    var a, t := View(codec, c), C.OpenReasoning(c);
    PendingSame(h, f, c.tools.outIndex, a.pending);
    if !c.reasoning.open && !c.reasoning.done {
      ViewOpenReasoning(codec, c);
      CloseInStep(a, LateReasoning(h), Written(h), Reasoned(h));
      var b := A.CloseBlock(a);
      OpenInStep(b.(blockOf := b.blockOf[t.reasoning.index := b.block.index]), LateReasoning(h), Written(h), Reasoned(h), A.ThinkingType);
    }
    ThinkInStep(View(codec, t), LateReasoning(h), Written(h), Reasoned(h), t.reasoning.index, delta);
  }

  lemma ContentStep(codec: A.Codec, h: seq<C.Fragment>, c: C.State, delta: string)
    requires Tracks(codec, h, c) && delta != ""
    ensures Tracks(codec, h + [C.Content(delta)], C.AddText(C.CloseReasoning(c), delta))
  {
    hide Written, Reasoned, Slots, Args, FirstIdentity, LatestIdentity, SpanEnded, LateReasoning, FinishReason, TableTracks, A.Run, ReadAll;
    var f := C.Content(delta);
    Extend(h, f);
    ChatContent(h, c, delta);
    ViewCloseReasoning(codec, c);
    ViewAddText(codec, C.CloseReasoning(c), delta);
    var a, b := View(codec, c), View(codec, C.CloseReasoning(c));
    PendingSame(h, f, c.tools.outIndex, a.pending);
    CloseInStep(a, LateReasoning(h), Written(h), Reasoned(h));
    AddTextInStep(b, LateReasoning(h), Written(h), Reasoned(h), delta);
  }

  /** A fragment on a known slot only lengthens the buffered arguments. */
  lemma ToolAgain(codec: A.Codec, h: seq<C.Fragment>, c: C.State, f: C.ToolFragment)
    requires Tracks(codec, h, c) && f.Slot() in Slots(h)
    ensures Tracks(codec, h + [C.Tool(f)], C.AddTool(c, f))
  {
    hide Written, Reasoned, Slots, Args, FirstIdentity, LatestIdentity, SpanEnded, LateReasoning, FinishReason, A.Run, ReadAll;
    var k, a := f.Slot(), View(codec, c);
    Extend(h, C.Tool(f));
    ChatTool(h, c, f);
    AddToolShape(c, f);
    assert k in c.tools.calls <==> k in c.tools.outIndex;
    ViewAddArgs(codec, C.SetCall(c, k, C.Renamed(c.tools.calls[k], f)), k, f.args);
    PendingAgain(h, f, c.tools.outIndex, a.pending, c.counters.nextIndex);
    var x := Lookup(c.tools.outIndex, k, 0);
    var p := Lookup(a.pending, x, A.NO_PENDING);
    PendingMember(h, c.tools.outIndex, a.pending, k);
    assert p.args + "" == p.args;
    assert f.args == "" ==> a.pending[x := p.(args := p.args + f.args)] == a.pending;
    hide PendingTracks, TableTracks;
  }

  lemma PendingMember(h: seq<C.Fragment>, outIndex: map<int, nat>, pending: map<int, A.Pending>, k: int)
    requires PendingTracks(h, outIndex, pending) && k in Slots(h)
    ensures Lookup(outIndex, k, 0) in pending
  {
    hide Slots;
    var i :| 0 <= i < |Slots(h)| && Slots(h)[i] == k;
    var x := Indices(Slots(h), outIndex)[i];
    assert x in Indices(Slots(h), outIndex);
  }

  /** The two Anthropic steps of a new slot, as one change of the buffered state. */
  lemma ToolOpenPending(a: A.State, b: A.State, n: nat, f: C.ToolFragment, itemId: R.Id, callId: R.Id)
    requires a.buffered && n !in a.pending && (b == a || b == A.CloseBlock(a))
    ensures A.AddArgs(A.AddItem(b, n, R.CallItem(itemId, callId, f.name, "", false)), n, f.args) ==
            A.CloseBlock(a).(hasTool := true, pending := a.pending[n := A.Pending(callId, f.name, f.args, "")])
  {
    var t := A.AddItem(b, n, R.CallItem(itemId, callId, f.name, "", false));
    assert t == A.CloseBlock(a).(hasTool := true, pending := a.pending[n := A.Pending(callId, f.name, "", "")]);
    assert "" + f.args == f.args;
    assert a.pending[n := A.Pending(callId, f.name, "", "")][n := A.Pending(callId, f.name, f.args, "")] ==
           a.pending[n := A.Pending(callId, f.name, f.args, "")];
  }

  lemma ViewToolOpen(codec: A.Codec, c: C.State, f: C.ToolFragment)
    requires f.Slot() !in c.tools.calls && View(codec, c).buffered && c.counters.nextIndex !in View(codec, c).pending
    ensures var a, d := View(codec, c), C.AddTool(c, f);
            View(codec, d) == A.CloseBlock(a).(hasTool := true, pending := a.pending[c.counters.nextIndex :=
              A.Pending(C.OpenTool(c, f).tools.calls[f.Slot()].id, f.name, f.args, "")])
  {
    hide A.Run;
    var o := C.OpenTool(c, f);
    ViewCloseReasoning(codec, c);
    ViewOpenTool(codec, c, f);
    ViewAddArgs(codec, o, f.Slot(), f.args);
    assert o.tools.outIndex[f.Slot()] == c.counters.nextIndex;
    ToolOpenPending(View(codec, c), View(codec, C.CloseReasoning(c)), c.counters.nextIndex, f,
                    o.tools.itemIds[f.Slot()], o.tools.calls[f.Slot()].id);
    hide A.AddItem, A.AddArgs, A.CloseBlock;
  }

  lemma ToolOpenTracks(h: seq<C.Fragment>, f: C.ToolFragment, c: C.State, d: C.State, a: A.State, pending: map<int, A.Pending>)
    requires ViewTracks(h, c, a) && f.Slot() !in Slots(h)
    requires !(c.reasoning.open && c.reasoning.done)
    requires d.reasoning == c.reasoning.(open := false, done := c.reasoning.done || c.reasoning.open)
    requires PendingTracks(h + [C.Tool(f)], d.tools.outIndex, pending)
    ensures ViewTracks(h + [C.Tool(f)], d, A.CloseBlock(a).(hasTool := true, pending := pending))
  {
    hide Written, Reasoned, Slots, Args, FirstIdentity, LatestIdentity, SpanEnded, LateReasoning, FinishReason, PendingTracks, ReadAll;
    Extend(h, C.Tool(f));
    CloseInStep(a, LateReasoning(h), Written(h), Reasoned(h));
  }

  /** The first fragment of a slot closes whatever block is open and starts buffering. */
  lemma ToolOpen(codec: A.Codec, h: seq<C.Fragment>, c: C.State, f: C.ToolFragment)
    requires Tracks(codec, h, c) && f.Slot() !in Slots(h)
    ensures Tracks(codec, h + [C.Tool(f)], C.AddTool(c, f))
  {
    hide Written, Reasoned, Slots, Args, FirstIdentity, LatestIdentity, SpanEnded, LateReasoning, FinishReason, A.Run;
    hide SpanTracks, InStep, A.CloseBlock;
    var k, a, n := f.Slot(), View(codec, c), c.counters.nextIndex;
    ChatTool(h, c, f);
    AddToolShape(c, f);
    assert k in c.tools.calls <==> k in c.tools.outIndex;
    var callId := C.OpenTool(c, f).tools.calls[k].id;
    PendingOpen(h, f, c.tools.outIndex, a.pending, n, callId);
    ViewToolOpen(codec, c, f);
    ToolOpenTracks(h, f, c, C.AddTool(c, f), a, a.pending[n := A.Pending(callId, f.name, f.args, "")]);
    hide ViewTracks, PendingTracks, TableTracks, C.AddTool, C.OpenTool;
  }

  lemma FragmentStep(codec: A.Codec, h: seq<C.Fragment>, c: C.State, f: C.Fragment)
    requires Tracks(codec, h, c) && (f.Reason? || f.Content? ==> f.text != "")
    ensures Tracks(codec, h + [f], C.Feed(c, f))
  {
    match f
    case Reason(d) => ReasonStep(codec, h, c, d);
    case Content(d) => ContentStep(codec, h, c, d);
    case Tool(call) => if call.Slot() in Slots(h) { ToolAgain(codec, h, c, call); } else { ToolOpen(codec, h, c, call); }
    case Finish(reason) => FinishStep(codec, h, c, reason);
  }

  lemma FinishStep(codec: A.Codec, h: seq<C.Fragment>, c: C.State, reason: string)
    requires Tracks(codec, h, c)
    ensures Tracks(codec, h + [C.Finish(reason)], c.(finish := reason))
  {
    hide Written, Reasoned, Slots, Args, FirstIdentity, LatestIdentity, SpanEnded, LateReasoning, FinishReason, A.Run, ReadAll;
    Extend(h, C.Finish(reason));
    PendingSame(h, C.Finish(reason), c.tools.outIndex, View(codec, c).pending);
    hide PendingTracks;
  }

  /** Every history of fragments is tracked. */
  lemma {:induction false} TrackAll(codec: A.Codec, h: seq<C.Fragment>)
    requires Solid(h)
    ensures Tracks(codec, h, C.FeedAll(C.EnsureCreated(C.INITIAL), h))
  {
    hide Tracks;
    if h == [] {
      TrackStart(codec);
    } else {
      var before, f := h[..|h| - 1], h[|h| - 1];
      TrackAll(codec, before);
      FragmentStep(codec, before, C.FeedAll(C.EnsureCreated(C.INITIAL), before), f);
      assert before + [f] == h;
    }
  }

  // ---- the end of the stream -----------------------------------------------------------

  /** What a client should see as text: the content, or the reasoning when nothing else came. */
  function VisibleText(h: seq<C.Fragment>): string {
    if Written(h) == "" && Slots(h) == [] && !IsBlank(Reasoned(h)) then Reasoned(h) else Written(h)
  }

  /** The identity under which a call is shown: the latest one if its slot is among
      0, ..., n - 1 for the n slots in use, otherwise the first one. */
  function ShownIdentity(h: seq<C.Fragment>, k: int): Identity {
    if 0 <= k < |Slots(h)| then LatestIdentity(h, k) else FirstIdentity(h, k)
  }

  /** The arguments shown for a slot. */
  function ShownJson(codec: A.Codec, h: seq<C.Fragment>, k: int): string {
    var raw := if IsBlank(Args(h, k)) then "{}" else Args(h, k);
    if ShownIdentity(h, k).name == "Read" then codec.dropEmptyPages(raw) else raw
  }

  predicate AllObjects(codec: A.Codec, h: seq<C.Fragment>) {
    forall i :: 0 <= i < |Slots(h)| ==> codec.validObject(ShownJson(codec, h, Slots(h)[i]))
  }

  function StopOf(h: seq<C.Fragment>): StopReason {
    if FinishReason(h) == "length" then MaxTokens else if Slots(h) != [] then ToolUse else EndTurn
  }

  lemma {:induction false} NamelessThroughout(h: seq<C.Fragment>, k: int)
    requires LatestIdentity(h, k).name == ""
    ensures FirstIdentity(h, k).name == ""
  {
    if h != [] {
      if k in Slots(h[..|h| - 1]) {
        NamelessThroughout(h[..|h| - 1], k);
      } else {
        Silent(h[..|h| - 1], k);
        NamelessThroughout(h[..|h| - 1], k);
      }
    }
  }

  lemma {:induction false} DistinctCount(slots: seq<int>)
    requires forall i, j :: 0 <= i < j < |slots| ==> slots[i] != slots[j]
    ensures |set k | k in slots| == |slots|
  {
    if slots != [] {
      var before, last := slots[..|slots| - 1], slots[|slots| - 1];
      DistinctCount(before);
      assert (set k | k in slots) == (set k | k in before) + {last} by {
        forall k ensures k in slots <==> k in before || k == last {
          assert slots == before + [last];
        }
      }
      assert last !in before;
    }
  }

  lemma TableSize(h: seq<C.Fragment>, tools: C.ToolTable, n: nat)
    requires TableTracks(h, tools, n)
    ensures |tools.calls| == |Slots(h)|
  {
    var slots, keys := Slots(h), tools.outIndex.Keys;
    assert forall k: int :: k in keys <==> k in slots;
    assert |tools.calls| == |tools.calls.Keys| && tools.calls.Keys == keys;
    SlotsDistinct(h);
    DistinctCount(slots);
    hide *;
    assert keys == set k | k in slots;
  }

  /** A buffered call once the closing events of slots 0, ..., m - 1 have been read. */
  ghost predicate Closed(p: A.Pending, h: seq<C.Fragment>, k: int, m: nat) {
    if 0 <= k < m then
      && p.args == Args(h, k) && p.final == C.ArgsOrObject(Args(h, k))
      && p.name == LatestIdentity(h, k).name && Known(p.callId, LatestIdentity(h, k).id)
    else Holds(p, h, k)
  }

  ghost predicate ClosedTracks(h: seq<C.Fragment>, outIndex: map<int, nat>, pending: map<int, A.Pending>, m: nat) {
    var xs := Indices(Slots(h), outIndex);
    && (forall x :: x in pending <==> x in xs)
    && (forall i :: 0 <= i < |xs| ==> Closed(Lookup(pending, xs[i], A.NO_PENDING), h, Slots(h)[i], m))
  }

  lemma ConfirmCloses(h: seq<C.Fragment>, k: nat, p: A.Pending, call: C.ToolCall)
    requires Holds(p, h, k)
    requires call.args == Args(h, k) && call.name == LatestIdentity(h, k).name && Known(call.id, LatestIdentity(h, k).id)
    ensures Closed(A.Confirm(p, call.id, call.name, C.ArgsOrObject(call.args)), h, k, k + 1)
  {
    hide Args, FirstIdentity, LatestIdentity;
    if call.name == "" { NamelessThroughout(h, k); }
    assert C.ArgsOrObject(call.args) != "";
  }

  lemma ClosedElse(p: A.Pending, h: seq<C.Fragment>, k: int, m: nat)
    requires Closed(p, h, k, m) && k != m
    ensures Closed(p, h, k, m + 1)
  {
  }

  lemma CloseOne(h: seq<C.Fragment>, tools: C.ToolTable, n: nat, pending: map<int, A.Pending>, m: nat)
    requires TableTracks(h, tools, n) && ClosedTracks(h, tools.outIndex, pending, m)
    ensures m !in tools.calls ==> ClosedTracks(h, tools.outIndex, pending, m + 1)
    ensures m in tools.calls ==>
              var x, call := Lookup(tools.outIndex, m, 0), tools.calls[m];
              ClosedTracks(h, tools.outIndex, pending[x := A.Confirm(Lookup(pending, x, A.NO_PENDING),
                call.id, call.name, C.ArgsOrObject(call.args))], m + 1)
  {
    hide Slots, Args, FirstIdentity, LatestIdentity, Known, Closed, A.Confirm, C.ArgsOrObject;
    var slots, xs := Slots(h), Indices(Slots(h), tools.outIndex);
    SlotsDistinct(h);
    IndicesDistinct(slots, tools.outIndex, n);
    assert m in tools.calls <==> m in slots;
    if m in tools.calls {
      var i :| 0 <= i < |slots| && slots[i] == m;
      var x, call := xs[i], tools.calls[m];
      var p := Lookup(pending, x, A.NO_PENDING);
      assert x in xs && Closed(p, h, m, m);
      NotYetClosed(p, h, m);
      ConfirmCloses(h, m, p, call);
      hide Holds, CallsTrack, Indices, Ordered;
      var q := A.Confirm(p, call.id, call.name, C.ArgsOrObject(call.args));
      OneMoreKey(pending, xs, x, q);
      forall j | 0 <= j < |xs| ensures Closed(Lookup(pending[x := q], xs[j], A.NO_PENDING), h, slots[j], m + 1) {
        if j != i { ClosedElse(Lookup(pending, xs[j], A.NO_PENDING), h, slots[j], m); }
      }
    } else {
      hide Holds, CallsTrack, Ordered, Indices;
      forall j | 0 <= j < |slots| ensures Closed(Lookup(pending, xs[j], A.NO_PENDING), h, slots[j], m + 1) {
        var k := slots[j];
        assert k in slots;
        ClosedElse(Lookup(pending, xs[j], A.NO_PENDING), h, k, m);
      }
    }
  }

  lemma NotYetClosed(p: A.Pending, h: seq<C.Fragment>, m: nat)
    ensures Closed(p, h, m, m) <==> Holds(p, h, m)
  {
  }

  lemma ViewCloseNext(codec: A.Codec, h: seq<C.Fragment>, t: C.State, m: nat)
    requires View(codec, t).buffered && TableTracks(h, t.tools, t.counters.nextIndex)
    requires ClosedTracks(h, t.tools.outIndex, View(codec, t).pending, m)
    ensures var u := if m in t.tools.calls && m in t.tools.itemIds then C.CloseTool(t, m) else t;
            var a, b := View(codec, t), View(codec, u);
            b == a.(pending := b.pending) && ClosedTracks(h, t.tools.outIndex, b.pending, m + 1) && u.tools == t.tools
            && u.counters.nextIndex == t.counters.nextIndex
  {
    CloseOne(h, t.tools, t.counters.nextIndex, View(codec, t).pending, m);
    SameKeys(h, t.tools, t.counters.nextIndex, m);
    if m in t.tools.calls { ViewCloseTool(codec, t, m); }
    hide A.Run, TableTracks, ClosedTracks;
  }

  lemma NothingClosed(h: seq<C.Fragment>, outIndex: map<int, nat>, pending: map<int, A.Pending>)
    requires PendingTracks(h, outIndex, pending)
    ensures ClosedTracks(h, outIndex, pending, 0)
  {
    hide Holds, Indices, Slots;
  }

  lemma {:induction false} ViewCloseTools(codec: A.Codec, h: seq<C.Fragment>, c: C.State, m: nat)
    requires View(codec, c).buffered && TableTracks(h, c.tools, c.counters.nextIndex)
    requires PendingTracks(h, c.tools.outIndex, View(codec, c).pending)
    ensures var t := C.CloseTools(c, m);
            var a, b := View(codec, c), View(codec, t);
            b == a.(pending := b.pending) && ClosedTracks(h, c.tools.outIndex, b.pending, m)
            && t.tools == c.tools && t.counters.nextIndex == c.counters.nextIndex
  {
    hide A.Run, TableTracks, PendingTracks, ClosedTracks, C.CloseTool, View;
    if m == 0 {
      NothingClosed(h, c.tools.outIndex, View(codec, c).pending);
    } else {
      ViewCloseTools(codec, h, c, m - 1);
      ViewCloseNext(codec, h, C.CloseTools(c, m - 1), m - 1);
    }
  }

  lemma SameKeys(h: seq<C.Fragment>, tools: C.ToolTable, n: nat, k: int)
    requires TableTracks(h, tools, n)
    ensures k in tools.calls <==> k in tools.itemIds
  {
  }

  /** The tool call shown for one pending entry. */
  function ShownCall(codec: A.Codec, p: A.Pending): ToolUseCall {
    ToolUseCall(A.FromCallId(p.callId), p.name, A.Sanitize(codec, p.name, A.RawArgs(p)))
  }

  function ShownCalls(codec: A.Codec, pending: map<int, A.Pending>, xs: seq<int>): seq<ToolUseCall> {
    seq(|xs|, i requires 0 <= i < |xs| => ShownCall(codec, Lookup(pending, xs[i], A.NO_PENDING)))
  }

  /** A whole call: its start, one JSON piece and its stop. */
  lemma CallReads(out: seq<Event>, n: nat, call: ToolUseCall)
    requires ReadAll(out).phase == Idle(n) || ReadAll(out).phase == Broken
    ensures var r := ReadAll(out);
            ReadAll(out + [BlockStart(n, ToolUseBlock(call.id, call.name))] + [BlockDelta(n, JsonPiece(call.json))] + [BlockStop(n)]) ==
            Reading(if r.phase == Broken then Broken else Idle(n + 1), r.text, r.thinking, r.calls + [call])
  {
    hide ReadAll;
    var e1, e2 := BlockStart(n, ToolUseBlock(call.id, call.name)), BlockDelta(n, JsonPiece(call.json));
    ReadOne(out, e1);
    ReadOne(out + [e1], e2);
    ReadOne(out + [e1] + [e2], BlockStop(n));
    var r := ReadAll(out);
    var more := r.calls + [ToolUseCall(call.id, call.name, "")];
    assert more[..|more| - 1] == r.calls;
    assert "" + call.json == call.json;
  }

  lemma FlushOneReads(codec: A.Codec, s: A.State, late: bool, x: int)
    requires !s.block.open && ReadAll(s.out).phase == PhaseFor(s.block, late)
    ensures var f, call := A.FlushOne(codec, s, x), ShownCall(codec, Lookup(s.pending, x, A.NO_PENDING));
            if codec.validObject(call.json) then
              var r := ReadAll(s.out);
              && f.error.None? && f.state == s.(block := f.state.block, out := f.state.out) && !f.state.block.open
              && ReadAll(f.state.out) == Reading(PhaseFor(f.state.block, late), r.text, r.thinking, r.calls + [call])
            else f == A.Flushed(s, Some(InvalidArguments(call.name)))
  {
    hide ReadAll, A.Sanitize, A.RawArgs, A.FromCallId;
    CallReads(s.out, s.block.index, ShownCall(codec, Lookup(s.pending, x, A.NO_PENDING)));
  }

  predicate Objects(codec: A.Codec, calls: seq<ToolUseCall>) {
    forall i :: 0 <= i < |calls| ==> codec.validObject(calls[i].json)
  }

  /** Flushing shows every pending call, in order, when all arguments are objects. */
  lemma {:induction false} FlushShows(codec: A.Codec, s: A.State, late: bool, xs: seq<int>)
    requires !s.block.open && ReadAll(s.out).phase == PhaseFor(s.block, late)
    requires Objects(codec, ShownCalls(codec, s.pending, xs))
    ensures var f, r := A.FlushAll(codec, s, xs), ReadAll(s.out);
            && f.error.None? && f.state == s.(block := f.state.block, out := f.state.out) && !f.state.block.open
            && ReadAll(f.state.out) == Reading(PhaseFor(f.state.block, late), r.text, r.thinking,
                                               r.calls + ShownCalls(codec, s.pending, xs))
  {
    hide ReadAll, ShownCall, PhaseFor, A.FlushOne;
    var calls, r := ShownCalls(codec, s.pending, xs), ReadAll(s.out);
    if xs == [] {
      assert r.calls + calls == r.calls;
    } else {
      var n := |xs| - 1;
      assert ShownCalls(codec, s.pending, xs[..n]) == calls[..n];
      FlushShows(codec, s, late, xs[..n]);
      FlushOneReads(codec, A.FlushAll(codec, s, xs[..n]).state, late, xs[n]);
      assert r.calls + calls[..n] + [calls[n]] == r.calls + calls;
    }
  }

  /** Flushing stops at the first call whose arguments are no object. */
  lemma FlushStops(codec: A.Codec, s: A.State, late: bool, xs: seq<int>)
    requires !s.block.open && ReadAll(s.out).phase == PhaseFor(s.block, late)
    requires !Objects(codec, ShownCalls(codec, s.pending, xs))
    ensures var f, calls := A.FlushAll(codec, s, xs), ShownCalls(codec, s.pending, xs);
            && f.state == s.(block := f.state.block, out := f.state.out)
            && exists i :: 0 <= i < |xs| && Objects(codec, calls[..i]) && !codec.validObject(calls[i].json)
                           && f.error == Some(InvalidArguments(calls[i].name))
  {
    hide ReadAll, ShownCall, PhaseFor, A.FlushOne, A.FlushAll;
    var calls := ShownCalls(codec, s.pending, xs);
    var i := FirstBad(codec, calls);
    assert ShownCalls(codec, s.pending, xs[..i]) == calls[..i];
    FlushShows(codec, s, late, xs[..i]);
    A.FlushNext(codec, s, xs, i);
    FlushOneReads(codec, A.FlushAll(codec, s, xs[..i]).state, late, xs[i]);
    A.FlushStopsAtError(codec, s, xs, i + 1);
  }

  lemma FirstBad(codec: A.Codec, calls: seq<ToolUseCall>) returns (i: nat)
    requires !Objects(codec, calls)
    ensures i < |calls| && Objects(codec, calls[..i]) && !codec.validObject(calls[i].json)
  {
    i := 0;
    while codec.validObject(calls[i].json)
      invariant i < |calls| && Objects(codec, calls[..i])
      decreases |calls| - i
    {
      i := i + 1;
    }
  }

  lemma StopReads(s: A.State, late: bool, reason: StopReason)
    requires !s.block.open && ReadAll(s.out).phase == PhaseFor(s.block, late)
    ensures var t, r := A.Stop(s, reason), ReadAll(s.out);
            && t.stopped && ReadAll(t.out) == Reading(if late then Broken else Complete, r.text, r.thinking, r.calls)
            && t.out == s.out + [MessageDelta(reason)] + [MessageStop]
  {
    hide ReadAll;
    ReadOne(s.out, MessageDelta(reason));
    ReadOne(s.out + [MessageDelta(reason)], MessageStop);
  }

  lemma FlushAndStopShows(codec: A.Codec, s: A.State, reason: StopReason, late: bool, text: string, thinking: string)
    requires InStep(s, late, text, thinking) && !s.block.open
    requires Objects(codec, ShownCalls(codec, s.pending, A.SortedKeys(s.pending.Keys)))
    ensures var t, calls := A.FlushAndStop(codec, s, reason), ShownCalls(codec, s.pending, A.SortedKeys(s.pending.Keys));
            && t.stopped && ReadAll(t.out) == Reading(if late then Broken else Complete, text, thinking, calls)
            && |t.out| >= 2 && t.out[|t.out| - 2] == MessageDelta(reason) && t.out[|t.out| - 1] == MessageStop
  {
    hide ReadAll, A.FlushAll, A.SortedKeys, ShownCalls, A.Stop;
    var xs := A.SortedKeys(s.pending.Keys);
    FlushShows(codec, s, late, xs);
    assert [] + ShownCalls(codec, s.pending, xs) == ShownCalls(codec, s.pending, xs);
    StopReads(A.FlushAll(codec, s, xs).state.(pending := map[]), late, reason);
  }

  lemma FlushAndStopFails(codec: A.Codec, s: A.State, reason: StopReason, late: bool, text: string, thinking: string)
    requires InStep(s, late, text, thinking) && !s.block.open
    requires !Objects(codec, ShownCalls(codec, s.pending, A.SortedKeys(s.pending.Keys)))
    ensures var t, calls := A.FlushAndStop(codec, s, reason), ShownCalls(codec, s.pending, A.SortedKeys(s.pending.Keys));
            && t.stopped && ReadAll(t.out) == Reading(if late then Broken else Phase.Failed, text, thinking, [])
            && exists i :: 0 <= i < |calls| && Objects(codec, calls[..i]) && !codec.validObject(calls[i].json)
                 && |t.out| >= 1 && t.out[|t.out| - 1] == Error(InvalidArguments(calls[i].name))
  {
    hide ReadAll, A.FlushAll, A.SortedKeys, ShownCalls;
    var xs := A.SortedKeys(s.pending.Keys);
    FlushStops(codec, s, late, xs);
    ShownCount(codec, s.pending, xs);
    ReadOne(s.out, Error(A.FlushAll(codec, s, xs).error.value));
  }

  lemma ShownCount(codec: A.Codec, pending: map<int, A.Pending>, xs: seq<int>)
    ensures |ShownCalls(codec, pending, xs)| == |xs|
  {
  }

  /** The chat translator just before its terminal event. */
  function BeforeEnd(c: C.State): C.State {
    var t := C.CloseMessage(C.Fallback(C.CloseReasoning(c)));
    C.CloseTools(t, |t.tools.calls|)
  }

  lemma FallbackInStep(codec: A.Codec, h: seq<C.Fragment>, c: C.State)
    requires Tracks(codec, h, c)
    ensures var a, d := View(codec, c), C.CloseMessage(C.Fallback(C.CloseReasoning(c)));
            var b := View(codec, d);
            && InStep(b, LateReasoning(h), VisibleText(h), Reasoned(h))
            && b == a.(block := b.block, tool := b.tool, out := b.out)
            && d.tools == c.tools && d.finish == c.finish && d.completed == c.completed && d.created == c.created
            && d.counters.nextIndex >= c.counters.nextIndex
  {
    hide Written, Reasoned, Slots, LateReasoning, SpanEnded, FinishReason, TableTracks, PendingTracks, A.Run, ReadAll, IsBlank;
    var a, c1 := View(codec, c), C.CloseReasoning(c);
    ViewCloseReasoning(codec, c);
    CloseInStep(a, LateReasoning(h), Written(h), Reasoned(h));
    var a1 := View(codec, c1);
    NoCalls(h, c.tools, c.counters.nextIndex);
    BlankEmpty();
    if C.NeedsFallback(c1) {
      ViewAddText(codec, c1, Reasoned(h));
      AddTextInStep(a1, LateReasoning(h), Written(h), Reasoned(h), Reasoned(h));
      assert "" + Reasoned(h) == Reasoned(h);
    }
    var c2 := C.Fallback(c1);
    ViewCloseMessage(codec, c2);
    CloseInStep(View(codec, c2), LateReasoning(h), VisibleText(h), Reasoned(h));
    hide C.AddText, A.AddText;
  }

  lemma BracesNotBlank()
    ensures !IsBlank("{}")
  {
    assert !IsSpace('{') && !IsSpace('}');
    hide IsSpace;
  }

  lemma BlankEmpty()
    ensures IsBlank("")
  {
  }

  lemma NoCalls(h: seq<C.Fragment>, tools: C.ToolTable, n: nat)
    requires TableTracks(h, tools, n)
    ensures tools.calls == map[] <==> Slots(h) == []
  {
    hide Slots;
    TableSize(h, tools, n);
    assert tools.calls == map[] <==> |tools.calls| == 0;
  }

  /** What is known of the Anthropic side just before the terminal event. */
  ghost predicate Ready(h: seq<C.Fragment>, outIndex: map<int, nat>, b: A.State) {
    && InStep(b, LateReasoning(h), VisibleText(h), Reasoned(h))
    && b.buffered && b.started && !b.stopped && (b.hasTool <==> Slots(h) != [])
    && ClosedTracks(h, outIndex, b.pending, |Slots(h)|)
    && exists n :: Ordered(Slots(h), outIndex, n)
  }

  lemma ReadyAtEnd(codec: A.Codec, h: seq<C.Fragment>, c: C.State)
    requires Tracks(codec, h, c)
    ensures Ready(h, c.tools.outIndex, View(codec, BeforeEnd(c)))
    ensures BeforeEnd(c).finish == c.finish
  {
    hide Written, Reasoned, Slots, LateReasoning, SpanEnded, FinishReason, A.Run, ReadAll, InStep, VisibleText;
    FallbackInStep(codec, h, c);
    TableSize(h, c.tools, c.counters.nextIndex);
    var d := C.CloseMessage(C.Fallback(C.CloseReasoning(c)));
    OrderedLater(Slots(h), c.tools.outIndex, c.counters.nextIndex, d.counters.nextIndex);
    ViewCloseTools(codec, h, d, |Slots(h)|);
    InStepSame(View(codec, d), View(codec, BeforeEnd(c)), LateReasoning(h), VisibleText(h), Reasoned(h));
    hide C.CloseMessage, C.Fallback, C.CloseReasoning, C.CloseTools, PendingTracks, ClosedTracks, Ordered, CallsTrack;
  }

  lemma OrderedLater(slots: seq<int>, outIndex: map<int, nat>, n: nat, m: nat)
    requires Ordered(slots, outIndex, n) && n <= m
    ensures Ordered(slots, outIndex, m)
  {
  }

  lemma InStepSame(a: A.State, b: A.State, late: bool, text: string, thinking: string)
    requires InStep(a, late, text, thinking) && b == a.(pending := b.pending)
    ensures InStep(b, late, text, thinking)
  {
  }

  lemma SortedIsOrdered(h: seq<C.Fragment>, outIndex: map<int, nat>, n: nat, pending: map<int, A.Pending>, m: nat)
    requires Ordered(Slots(h), outIndex, n) && ClosedTracks(h, outIndex, pending, m)
    ensures A.SortedKeys(pending.Keys) == Indices(Slots(h), outIndex)
  {
    hide Slots;
    A.IncreasingUnique(A.SortedKeys(pending.Keys), Indices(Slots(h), outIndex));
  }

  predicate KnownShown(id: R.Id, text: string) {
    if text != "" then SameCall(R.Given(text), id) else id.Fresh?
  }

  predicate ShownAs(codec: A.Codec, h: seq<C.Fragment>, k: int, call: ToolUseCall) {
    && call.name == ShownIdentity(h, k).name && KnownShown(call.id, ShownIdentity(h, k).id)
    && call.json == ShownJson(codec, h, k)
  }

  /** The calls a client sees: one per slot in order of first appearance, with its whole arguments. */
  ghost predicate Shows(codec: A.Codec, h: seq<C.Fragment>, calls: seq<ToolUseCall>) {
    |calls| == |Slots(h)| && forall i :: 0 <= i < |calls| ==> ShownAs(codec, h, Slots(h)[i], calls[i])
  }

  lemma ClosedShows(codec: A.Codec, h: seq<C.Fragment>, k: int, p: A.Pending)
    requires Closed(p, h, k, |Slots(h)|)
    ensures ShownAs(codec, h, k, ShownCall(codec, p))
  {
    hide Slots, Args, FirstIdentity, LatestIdentity, IsBlank, SameCall;
    BracesNotBlank();
    BlankEmpty();
    A.FromCallIdShows(p.callId);
    FreshShown(p.callId);
    hide A.FromCallId;
  }

  lemma FreshShown(id: R.Id)
    ensures id.Fresh? ==> A.FromCallId(id) == id
  {
  }

  /** Two calls with different identifiers, neither in the legacy form, are shown under different
      identifiers, and so are a call that has one and a call that has none. */
  lemma CallsToldApart(codec: A.Codec, h: seq<C.Fragment>, calls: seq<ToolUseCall>, i: nat, j: nat)
    requires Shows(codec, h, calls) && i < |calls| && j < |calls|
    requires var a, b := ShownIdentity(h, Slots(h)[i]).id, ShownIdentity(h, Slots(h)[j]).id;
             a != b && !Prefixed(R.Given(a)) && !Prefixed(R.Given(b))
    ensures calls[i].id != calls[j].id
  {
    hide Slots, ShownIdentity, ShownJson;
  }

  lemma ReadyShows(codec: A.Codec, h: seq<C.Fragment>, outIndex: map<int, nat>, b: A.State)
    requires Ready(h, outIndex, b)
    ensures Shows(codec, h, ShownCalls(codec, b.pending, A.SortedKeys(b.pending.Keys)))
  {
    hide Slots, InStep, Closed, ShownCall, ShownAs, A.SortedKeys, Ordered, VisibleText, LateReasoning, Reasoned;
    var n :| Ordered(Slots(h), outIndex, n);
    SortedIsOrdered(h, outIndex, n, b.pending, |Slots(h)|);
    var xs := Indices(Slots(h), outIndex);
    forall i | 0 <= i < |xs| ensures ShownAs(codec, h, Slots(h)[i], ShownCall(codec, Lookup(b.pending, xs[i], A.NO_PENDING))) {
      ClosedShows(codec, h, Slots(h)[i], Lookup(b.pending, xs[i], A.NO_PENDING));
    }
  }

  /** The Anthropic stream of a cleanly ended chat stream. */
  ghost function Shown(codec: A.Codec, chunks: seq<C.Chunk>): seq<Event> {
    View(codec, C.Finalize(C.FeedChunks(C.INITIAL, chunks))).out
  }

  lemma {:induction false} ChunksAreFragments(chunks: seq<C.Chunk>)
    requires chunks != []
    ensures C.FeedChunks(C.INITIAL, chunks) == C.FeedAll(C.EnsureCreated(C.INITIAL), C.AllFragments(chunks))
  {
    hide C.FeedAll;
    var before, last := chunks[..|chunks| - 1], chunks[|chunks| - 1];
    var start := C.EnsureCreated(C.INITIAL);
    if before == [] {
      assert C.AllFragments(chunks) == C.Fragments(last.choices);
    } else {
      ChunksAreFragments(before);
      FeedKeepsCreated(start, C.AllFragments(before));
      C.FeedAppend(start, C.AllFragments(before), C.Fragments(last.choices));
    }
  }

  lemma {:induction false} FeedKeepsCreated(s: C.State, h: seq<C.Fragment>)
    requires s.created
    ensures C.FeedAll(s, h).created
  {
    if h != [] { FeedKeepsCreated(s, h[..|h| - 1]); }
  }

  /** The stream a client receives when every call's arguments are JSON objects. */
  ghost predicate EndsShown(codec: A.Codec, h: seq<C.Fragment>, out: seq<Event>) {
    var r := ReadAll(out);
    && r.phase == (if LateReasoning(h) then Broken else Complete)
    && r.text == VisibleText(h) && r.thinking == Reasoned(h) && Shows(codec, h, r.calls)
    && |out| >= 2 && out[|out| - 2] == MessageDelta(StopOf(h)) && out[|out| - 1] == MessageStop
  }

  /** The calls are shown in order, so the first slot with bad arguments is the one reported. */
  predicate FirstBadSlot(codec: A.Codec, h: seq<C.Fragment>, i: nat)
    requires i < |Slots(h)|
  {
    && !codec.validObject(ShownJson(codec, h, Slots(h)[i]))
    && forall j :: 0 <= j < i ==> codec.validObject(ShownJson(codec, h, Slots(h)[j]))
  }

  /** The stream otherwise: the text stands, no call is shown, and one error closes it. */
  ghost predicate EndsFailed(codec: A.Codec, h: seq<C.Fragment>, out: seq<Event>) {
    && ReadAll(out) == Reading(if LateReasoning(h) then Broken else Phase.Failed, VisibleText(h), Reasoned(h), [])
    && |out| >= 1
    && exists i :: 0 <= i < |Slots(h)| && FirstBadSlot(codec, h, i)
                   && out[|out| - 1] == Error(InvalidArguments(ShownIdentity(h, Slots(h)[i]).name))
  }

  lemma ObjectsShown(codec: A.Codec, h: seq<C.Fragment>, calls: seq<ToolUseCall>)
    requires Shows(codec, h, calls)
    ensures Objects(codec, calls) <==> AllObjects(codec, h)
    ensures forall i :: 0 <= i < |calls| ==> calls[i].name == ShownIdentity(h, Slots(h)[i]).name
    ensures forall i :: 0 <= i < |calls| && Objects(codec, calls[..i]) && !codec.validObject(calls[i].json) ==> FirstBadSlot(codec, h, i)
  {
    hide Slots, ShownIdentity, ShownJson;
    forall i | 0 <= i < |calls| && Objects(codec, calls[..i]) && !codec.validObject(calls[i].json)
      ensures FirstBadSlot(codec, h, i)
    {
      forall j | 0 <= j < i ensures codec.validObject(ShownJson(codec, h, Slots(h)[j])) {
        assert calls[..i][j] == calls[j];
      }
    }
  }

  /** The terminal event, seen from the Anthropic side. */
  lemma EndView(codec: A.Codec, h: seq<C.Fragment>, c: C.State)
    requires Tracks(codec, h, c)
    ensures var b := View(codec, BeforeEnd(c));
            Ready(h, c.tools.outIndex, b) && View(codec, C.Finalize(c)) == A.FlushAndStop(codec, A.CloseBlock(b), StopOf(h))
  {
    hide Slots, LateReasoning, Written, Reasoned, VisibleText, A.Run, ReadAll, TableTracks, ViewTracks, A.FlushAndStop;
    var u := BeforeEnd(c);
    ReadyAtEnd(codec, h, c);
    var status := C.FinalStatus(u.finish);
    var end := R.Terminal(Some(status), C.Output(u.reasoning, u.message, u.tools, u.counters.serial));
    ViewEmit(codec, u.(completed := true), end);
    assert C.EnsureCreated(c) == c;
    hide C.Output, InStep, ClosedTracks, Ordered, C.CloseTools, C.CloseMessage, C.Fallback, C.CloseReasoning;
  }

  lemma ClosedReady(h: seq<C.Fragment>, outIndex: map<int, nat>, b: A.State)
    requires Ready(h, outIndex, b)
    ensures var t := A.CloseBlock(b);
            && InStep(t, LateReasoning(h), VisibleText(h), Reasoned(h)) && !t.block.open && t.pending == b.pending
  {
    CloseInStep(b, LateReasoning(h), VisibleText(h), Reasoned(h));
    hide InStep, LateReasoning, VisibleText, Reasoned, ClosedTracks, Ordered;
  }

  /** The end of a tracked stream. */
  lemma EndReads(codec: A.Codec, h: seq<C.Fragment>, c: C.State)
    requires Tracks(codec, h, c)
    ensures var out := View(codec, C.Finalize(c)).out;
            if AllObjects(codec, h) then EndsShown(codec, h, out) else EndsFailed(codec, h, out)
  {
    hide Slots, LateReasoning, Written, Reasoned, VisibleText, A.Run, ReadAll, Tracks, InStep, Shows, AllObjects, Objects, FirstBadSlot, StopOf;
    hide A.FlushAndStop, A.CloseBlock, Ready, BeforeEnd, ShownCalls, A.SortedKeys;
    var b := View(codec, BeforeEnd(c));
    EndView(codec, h, c);
    ClosedReady(h, c.tools.outIndex, b);
    ReadyShows(codec, h, c.tools.outIndex, b);
    var t, calls := A.CloseBlock(b), ShownCalls(codec, b.pending, A.SortedKeys(b.pending.Keys));
    ObjectsShown(codec, h, calls);
    if Objects(codec, calls) {
      FlushAndStopShows(codec, t, StopOf(h), LateReasoning(h), VisibleText(h), Reasoned(h));
    } else {
      FlushAndStopFails(codec, t, StopOf(h), LateReasoning(h), VisibleText(h), Reasoned(h));
      ShowsCount(codec, h, calls);
    }
    hide View;
  }

  lemma ShowsCount(codec: A.Codec, h: seq<C.Fragment>, calls: seq<ToolUseCall>)
    requires Shows(codec, h, calls)
    ensures |calls| == |Slots(h)|
  {
  }

  /** Every cleanly ended chat stream of at least one chunk. With h its fragments: the
      visible text, the thinking text and the tool calls, each with its own arguments joined
      in order however the slots interleave, reach the client unchanged; or, exactly when
      some call's arguments are no JSON object, the first such call is reported instead. */
  lemma ChainTheorem(codec: A.Codec, chunks: seq<C.Chunk>)
    requires chunks != []
    ensures var h, out := C.AllFragments(chunks), Shown(codec, chunks);
            if AllObjects(codec, h) then EndsShown(codec, h, out) else EndsFailed(codec, h, out)
  {
    hide C.AllFragments, Tracks, View, C.Finalize, AllObjects, EndsShown, EndsFailed;
    var h := C.AllFragments(chunks);
    AllFragmentsSolid(chunks);
    ChunksAreFragments(chunks);
    TrackAll(codec, h);
    EndReads(codec, h, C.FeedChunks(C.INITIAL, chunks));
  }

  /** Late reasoning breaks the block structure, and nothing else does: the stream is well
      formed exactly when no reasoning fragment follows the end of its span. */
  lemma WellFormedExactly(codec: A.Codec, chunks: seq<C.Chunk>)
    requires chunks != []
    ensures var h, p := C.AllFragments(chunks), ReadAll(Shown(codec, chunks)).phase;
            && (p == (if AllObjects(codec, h) then Complete else Phase.Failed) || p == Broken)
            && (p == Broken <==>
                exists i, j, k :: 0 <= i < j < k < |h| && h[i].Reason? && Ends(h, j) && h[k].Reason?)
  {
    var h := C.AllFragments(chunks);
    hide C.AllFragments, View, Shown, ReadAll, C.Finalize, LateReasoning, AllObjects, Shows, VisibleText, StopOf, Reasoned, FirstBadSlot;
    ChainTheorem(codec, chunks);
    AllFragmentsSolid(chunks);
    LateReasoningMeans(h);
  }

  /** One choice with reasoning and content, then more reasoning: the smallest such stream. */
  lemma LateReasoningBreaks(codec: A.Codec)
    ensures var chunks := [C.Chunk([C.Choice("a", "b", [], "")]), C.Chunk([C.Choice("c", "", [], "")])];
            ReadAll(Shown(codec, chunks)).phase == Broken
  {
    var c, d := C.Choice("a", "b", [], ""), C.Choice("c", "", [], "");
    var chunks := [C.Chunk([c]), C.Chunk([d])];
    var h := C.AllFragments(chunks);
    assert h == [C.Reason("a"), C.Content("b"), C.Reason("c")] by {
      hide Shown, ReadAll;
      assert [] + [C.Chunk([c])] == [C.Chunk([c])] && [C.Chunk([c])] + [C.Chunk([d])] == chunks;
      C.OneMore([], c);
      C.OneMore([C.Chunk([c])], d);
      assert C.ToolFragments([]) == [];
    }
    assert h[0].Reason? && Ends(h, 1) && h[2].Reason?;
    hide C.AllFragments, ReadAll, Shown;
    WellFormedExactly(codec, chunks);
  }
}
