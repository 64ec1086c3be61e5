/** The done events of the Responses stream of a chat upstream repeat what the deltas said. */
module ChatToResponsesDone {
  import opened Text
  import opened ResponsesEvents
  import opened C = ChatToResponsesSpec
  import J = AnthropicToResponsesSpec

  /** The deltas joined under one identifier. */
  function Said(out: seq<Event>, kind: ItemKind, id: Id): string {
    J.Joined(out, kind, id)
  }

  /** Arguments as they are reported in the end: none at all, or nothing but white space, are the
      empty object. */
  function Whole(args: string): string {
    if IsBlank(args) then "{}" else args
  }

  /** A done event repeats what was said under its identifier. */
  predicate Repeats(before: seq<Event>, body: Body) {
    match body
    case SummaryTextDone(_, id, text) => text == Said(before, Reasoning, id)
    case SummaryPartDone(_, id, text) => text == Said(before, Reasoning, id)
    case TextDone(_, id, text) => text == Said(before, Message, id)
    case PartDone(_, id, text) => text == Said(before, Message, id)
    case ArgsDone(_, id, _, _, args) => args == Whole(Said(before, FunctionCall, id))
    case ItemDone(_, item) =>
      if item.kind.FunctionCall? then item.text == "" && item.args == Whole(Said(before, FunctionCall, item.id))
      else item.args == "" && item.text == Said(before, item.kind, item.id)
    case _ => true
  }

  predicate IsPart(body: Body) {
    body.SummaryPartAdded? || body.PartAdded?
  }

  /** An announced reasoning or message, whose part comes next. */
  predicate WantsPart(body: Body) {
    body.ItemAdded? && (body.item.kind.Reasoning? || body.item.kind.Message?)
  }

  predicate PartOf(added: Body, body: Body) {
    && WantsPart(added)
    && body == if added.item.kind.Reasoning? then SummaryPartAdded(added.index, added.item.id) else PartAdded(added.index, added.item.id)
  }

  predicate Settled(out: seq<Event>) {
    out == [] || !WantsPart(out[|out| - 1].body)
  }

  /** An item is reported done right after its content and its part are, or its arguments. */
  predicate Closed(before: seq<Event>, index: int, item: Item) {
    var n := |before|;
    match item.kind
    case Reasoning =>
      n >= 2 && before[n - 2].body == SummaryTextDone(index, item.id, item.text) && before[n - 1].body == SummaryPartDone(index, item.id, item.text)
    case Message =>
      n >= 2 && before[n - 2].body == TextDone(index, item.id, item.text) && before[n - 1].body == PartDone(index, item.id, item.text)
    case FunctionCall => n >= 1 && before[n - 1].body == ArgsDone(index, item.id, item.callId, item.name, item.args)
    case _ => false
  }

  /** A part comes right behind the item it belongs to, and only there. */
  predicate Placed(before: seq<Event>, body: Body) {
    && (if IsPart(body) then before != [] && PartOf(before[|before| - 1].body, body) else Settled(before))
    && (body.ItemDone? ==> Closed(before, body.index, body.item))
  }

  predicate AllRepeat(out: seq<Event>) {
    out == [] ||
    var before, last := out[..|out| - 1], out[|out| - 1].body;
    AllRepeat(before) && Repeats(before, last) && Placed(before, last)
  }

  predicate Unsaid(out: seq<Event>, id: Id) {
    Said(out, Message, id) == Said(out, Reasoning, id) == Said(out, FunctionCall, id) == ""
  }

  /** Every identifier drawn so far is below the serial, and nothing was said under later ones. */
  ghost predicate Spent(s: State) {
    && (s.reasoning.id.NoId? || (s.reasoning.id.Fresh? && s.reasoning.id.serial < s.counters.serial))
    && (s.message.id.NoId? || (s.message.id.Fresh? && s.message.id.serial < s.counters.serial))
    && (forall k :: k in s.tools.itemIds ==> s.tools.itemIds[k].Fresh? && s.tools.itemIds[k].serial < s.counters.serial)
    && (forall n :: n >= s.counters.serial ==> Unsaid(s.out, Fresh(n)))
  }

  /** The calls have items of their own, and hold what was said under them. */
  ghost predicate Calls(tools: ToolTable, out: seq<Event>) {
    && tools.calls.Keys == tools.itemIds.Keys
    && (forall j, k :: j in tools.itemIds && k in tools.itemIds && tools.itemIds[j] == tools.itemIds[k] ==> j == k)
    && (forall k :: k in tools.calls ==> tools.calls[k].args == Said(out, FunctionCall, tools.itemIds[k]))
  }

  /** The translator holds what it has said. */
  ghost predicate Holds(s: State) {
    && Spent(s) && Calls(s.tools, s.out) && AllRepeat(s.out) && Settled(s.out) && (s.message.partOpen <==> !s.message.id.NoId?)
    && (if s.reasoning.id.NoId? then !s.reasoning.open && !s.reasoning.done
        else s.reasoning.text == Said(s.out, Reasoning, s.reasoning.id) && (s.reasoning.open || s.reasoning.done))
    && (if s.message.id.NoId? then s.message.text == "" else s.message.text == Said(s.out, Message, s.message.id))
    && (s.reasoning.id.NoId? ==> s.reasoning.text == "")
  }

  lemma Emitted(s: State, body: Body)
    ensures var out := Emit(s, body).out;
            && (AllRepeat(out) <==> AllRepeat(s.out) && Repeats(s.out, body) && Placed(s.out, body))
            && (Settled(out) <==> !WantsPart(body))
            && (forall id :: Said(out, Message, id) ==
                  if body.TextDelta? && body.itemId == id then Said(s.out, Message, id) + body.delta else Said(s.out, Message, id))
            && (forall id :: Said(out, Reasoning, id) ==
                  if body.ReasoningDelta? && body.itemId == id then Said(s.out, Reasoning, id) + body.delta else Said(s.out, Reasoning, id))
            && (forall id :: Said(out, FunctionCall, id) ==
                  if body.ArgsDelta? && body.itemId == id then Said(s.out, FunctionCall, id) + body.delta else Said(s.out, FunctionCall, id))
  {
    J.ReadOne(s.out, Event(s.counters.seqNo, body));
    assert (s.out + [Event(s.counters.seqNo, body)])[..|s.out|] == s.out;
    assert forall kind, id :: Said(s.out, kind, id) + "" == Said(s.out, kind, id);
  }

  predicate Delta(body: Body) {
    body.TextDelta? || body.ReasoningDelta? || body.ArgsDelta?
  }

  ghost predicate SameSaid(a: seq<Event>, b: seq<Event>) {
    && (forall id :: Said(a, Message, id) == Said(b, Message, id)) && (forall id :: Said(a, Reasoning, id) == Said(b, Reasoning, id))
    && (forall id :: Said(a, FunctionCall, id) == Said(b, FunctionCall, id))
  }

  /** An event without new words. */
  lemma Wordless(s: State, body: Body)
    requires Holds(s) && !Delta(body) && !IsPart(body) && !WantsPart(body) && Repeats(s.out, body)
    requires body.ItemDone? ==> Closed(s.out, body.index, body.item)
    ensures Holds(Emit(s, body)) && SameSaid(Emit(s, body).out, s.out)
  {
    hide Said, AllRepeat, Repeats, Closed;
    Emitted(s, body);
  }

  /** An item and its part. */
  lemma Announces(s: State, added: Body, part: Body)
    requires Holds(s) && PartOf(added, part)
    ensures Holds(Emit(Emit(s, added), part))
  {
    hide Said, AllRepeat;
    Emitted(s, added);
    Emitted(Emit(s, added), part);
  }

  lemma OpensReasoning(s: State)
    requires Holds(s)
    ensures Holds(OpenReasoning(s))
  {
    hide Said, AllRepeat;
    if !s.reasoning.open && !s.reasoning.done {
      var r := s.reasoning.(open := true, id := Fresh(s.counters.serial), index := s.counters.nextIndex);
      var t := s.(reasoning := r, counters := Allocated(Drawn(s.counters)));
      assert Unsaid(s.out, Fresh(s.counters.serial));
      var a := ItemAdded(r.index, ReasoningItem(r.id, "", false));
      assert Holds(t);
      hide Holds;
      Announces(t, a, SummaryPartAdded(r.index, r.id));
    }
  }

  lemma ClosesReasoning(s: State)
    requires Holds(s)
    ensures Holds(CloseReasoning(s))
  {
    hide Said, AllRepeat;
    if s.reasoning.open {
      var r := s.reasoning.(open := false, done := true);
      var t := s.(reasoning := r);
      var a, b, c := SummaryTextDone(r.index, r.id, r.text), SummaryPartDone(r.index, r.id, r.text),
                     ItemDone(r.index, ReasoningItem(r.id, r.text, true));
      assert Holds(t) && r.text == Said(t.out, Reasoning, r.id);
      hide Holds;
      Wordless(t, a);
      Wordless(Emit(t, a), b);
      Wordless(Emit(Emit(t, a), b), c);
    }
  }

  lemma OpensText(s: State)
    requires Holds(s)
    ensures Holds(OpenTextPart(OpenMessage(s))) && !OpenTextPart(OpenMessage(s)).message.id.NoId?
  {
    hide Said, AllRepeat;
    if s.message.id.NoId? {
      var m := s.message.(id := Fresh(s.counters.serial), index := s.counters.nextIndex, partOpen := true);
      var t := s.(message := m, counters := Allocated(Drawn(s.counters)));
      assert Unsaid(s.out, Fresh(s.counters.serial));
      assert Holds(t);
      hide Holds;
      Announces(t, ItemAdded(m.index, MessageItem(m.id, "", false)), PartAdded(m.index, m.id));
    }
  }

  lemma AddsReasoning(s: State, delta: string)
    requires Holds(s)
    ensures Holds(AddReasoning(s, delta))
  {
    hide Said, AllRepeat;
    OpensReasoning(s);
    var t := OpenReasoning(s);
    assert t.reasoning.open || t.reasoning.done;
    hide OpenReasoning;
    Emitted(t.(reasoning := t.reasoning.(text := t.reasoning.text + delta)), ReasoningDelta(t.reasoning.index, t.reasoning.id, delta));
  }

  lemma AddsText(s: State, delta: string)
    requires Holds(s)
    ensures Holds(AddText(s, delta))
  {
    hide Said, AllRepeat;
    OpensText(s);
    var t := OpenTextPart(OpenMessage(s));
    hide OpenTextPart, OpenMessage;
    Emitted(t.(message := t.message.(text := t.message.text + delta)), TextDelta(t.message.index, t.message.id, delta));
  }

  /** A call on a new slot has said nothing yet. */
  lemma NewCall(s: State, k: int, serial: nat, c: ToolCall, index: nat)
    requires Holds(s) && k !in s.tools.calls && serial >= s.counters.serial && c.args == ""
    ensures var tools := ToolTable(s.tools.calls[k := c], s.tools.itemIds[k := Fresh(serial)], s.tools.outIndex[k := index]);
            Holds(s.(tools := tools, counters := s.counters.(serial := serial + 1, nextIndex := s.counters.nextIndex + 1)))
  {
    hide Said, AllRepeat;
    assert Unsaid(s.out, Fresh(serial));
  }

  lemma OpensTool(s: State, f: ToolFragment)
    requires Holds(s) && f.Slot() !in s.tools.calls
    ensures Holds(OpenTool(s, f)) && f.Slot() in OpenTool(s, f).tools.calls
  {
    hide Said, AllRepeat, Holds;
    ClosesReasoning(s);
    var t := CloseReasoning(s);
    var id := if f.id == "" then Fresh(t.counters.serial) else Given(f.id);
    var c := if f.id == "" then Drawn(t.counters) else t.counters;
    NewCall(t, f.Slot(), c.serial, ToolCall(id, f.name, ""), c.nextIndex);
    var d := OpenTool(s, f);
    Wordless(t.(tools := d.tools, counters := Allocated(Drawn(c))), ItemAdded(c.nextIndex, CallItem(Fresh(c.serial), id, f.name, "", false)));
  }

  lemma AddsArgs(s: State, k: int, delta: string)
    requires Holds(s) && k in s.tools.calls
    ensures Holds(AddArgs(s, k, delta))
  {
    hide Said, AllRepeat;
    if delta != "" {
      var c := s.tools.calls[k].(args := s.tools.calls[k].args + delta);
      Emitted(SetCall(s, k, c), ArgsDelta(Lookup(s.tools.outIndex, k, 0), Lookup(s.tools.itemIds, k, NoId), delta, c.id, c.name));
    }
  }

  lemma Renames(s: State, k: int, f: ToolFragment)
    requires Holds(s) && k in s.tools.calls
    ensures Holds(SetCall(s, k, Renamed(s.tools.calls[k], f)))
  {
    hide Said, AllRepeat;
  }

  lemma Feeds(s: State, f: Fragment)
    requires Holds(s)
    ensures Holds(Feed(s, f))
  {
    match f
    case Reason(d) => AddsReasoning(s, d);
    case Content(d) =>
      ClosesReasoning(s);
      AddsText(CloseReasoning(s), d);
    case Tool(call) =>
      var k := call.Slot();
      if k in s.tools.calls {
        Renames(s, k, call);
        AddsArgs(SetCall(s, k, Renamed(s.tools.calls[k], call)), k, call.args);
      } else {
        OpensTool(s, call);
        AddsArgs(OpenTool(s, call), k, call.args);
      }
      hide Holds, OpenTool, AddArgs;
    case Finish(reason) =>
  }

  lemma {:induction false} FeedsAll(s: State, fs: seq<Fragment>)
    requires Holds(s)
    ensures Holds(FeedAll(s, fs))
  {
    if fs != [] {
      hide Holds, Feed;
      FeedsAll(s, fs[..|fs| - 1]);
      Feeds(FeedAll(s, fs[..|fs| - 1]), fs[|fs| - 1]);
    }
  }

  lemma Creates(s: State)
    requires Holds(s)
    ensures Holds(EnsureCreated(s))
  {
    if !s.created {
      var t := s.(created := true);
      assert Holds(t);
      hide Holds;
      Wordless(t, Created);
    }
  }

  lemma {:induction false} ChunksHold(chunks: seq<Chunk>)
    ensures Holds(FeedChunks(INITIAL, chunks))
  {
    if chunks == [] {
      assert Holds(INITIAL);
    } else {
      hide Holds, EnsureCreated, FeedAll;
      var before := FeedChunks(INITIAL, chunks[..|chunks| - 1]);
      ChunksHold(chunks[..|chunks| - 1]);
      Creates(before);
      FeedsAll(EnsureCreated(before), Fragments(chunks[|chunks| - 1].choices));
    }
  }

  lemma ClosesMessage(s: State)
    requires Holds(s)
    ensures Holds(CloseMessage(s))
  {
    hide Said, AllRepeat;
    var m := s.message;
    if !m.id.NoId? {
      assert m.text == Said(s.out, Message, m.id) && m.partOpen;
      hide Holds;
      var a, b, c := TextDone(m.index, m.id, m.text), PartDone(m.index, m.id, m.text), ItemDone(m.index, MessageItem(m.id, m.text, true));
      Wordless(s, a);
      Wordless(Emit(s, a), b);
      Wordless(Emit(Emit(s, a), b), c);
    }
  }

  lemma ClosesTool(s: State, k: int)
    requires Holds(s) && k in s.tools.calls
    ensures Holds(CloseTool(s, k))
  {
    hide Said, AllRepeat, IsBlank;
    var c, index, id := s.tools.calls[k], Lookup(s.tools.outIndex, k, 0), Lookup(s.tools.itemIds, k, NoId);
    assert c.args == Said(s.out, FunctionCall, id);
    hide Holds;
    var a, b := ArgsDone(index, id, c.id, c.name, ArgsOrObject(c.args)), ItemDone(index, CallItem(id, c.id, c.name, ArgsOrObject(c.args), true));
    Wordless(s, a);
    Wordless(Emit(s, a), b);
  }

  lemma {:induction false} ClosesTools(s: State, n: nat)
    requires Holds(s)
    ensures Holds(CloseTools(s, n))
  {
    if n > 0 {
      hide Holds, CloseTool;
      ClosesTools(s, n - 1);
      var t := CloseTools(s, n - 1);
      if n - 1 in t.tools.calls && n - 1 in t.tools.itemIds { ClosesTool(t, n - 1); }
    }
  }

  lemma Finalizes(s: State)
    requires Holds(s) && !s.completed
    ensures Holds(Finalize(s))
  {
    hide Holds, EnsureCreated, CloseReasoning, NeedsFallback, AddText, CloseMessage, CloseTools, Output, FinalStatus;
    var a := CloseReasoning(EnsureCreated(s));
    Creates(s);
    ClosesReasoning(EnsureCreated(s));
    AddsText(a, a.reasoning.text);
    var t := CloseMessage(Fallback(a));
    ClosesMessage(Fallback(a));
    ClosesTools(t, |t.tools.calls|);
    var u := CloseTools(t, |t.tools.calls|);
    Ends(u, Terminal(Some(FinalStatus(u.finish)), Output(u.reasoning, u.message, u.tools, u.counters.serial)));
  }

  lemma Ends(s: State, body: Body)
    requires Holds(s) && body.Terminal?
    ensures Holds(Emit(s.(completed := true), body))
  {
    var t := s.(completed := true);
    assert Holds(t);
    hide Holds;
    Wordless(t, body);
  }

  /** Whatever the chunks, every event that reports something done, before the end of the stream
      and at it, carries exactly the deltas sent under its identifier; the arguments of a call that
      has none are the empty object. An item is reported right after its content and its part are,
      or its arguments; and an announced reasoning or message is followed at once by its part. */
  lemma DoneRepeats(chunks: seq<Chunk>, i: nat)
    ensures var out := Finalize(FeedChunks(INITIAL, chunks)).out; i < |out| ==> Repeats(out[..i], out[i].body) && Placed(out[..i], out[i].body)
  {
    hide Holds, Finalize, AllRepeat, Repeats, Placed;
    ChunksHold(chunks);
    StillGoing(chunks);
    Finalizes(FeedChunks(INITIAL, chunks));
    var s := Finalize(FeedChunks(INITIAL, chunks));
    HoldsRepeat(s);
    if i < |s.out| { RepeatsAt(s.out, i); }
  }

  lemma HoldsRepeat(s: State)
    requires Holds(s)
    ensures AllRepeat(s.out)
  {
  }

  lemma {:induction false} RepeatsAt(out: seq<Event>, i: nat)
    requires AllRepeat(out) && i < |out|
    ensures Repeats(out[..i], out[i].body) && Placed(out[..i], out[i].body)
  {
    hide Repeats, Placed;
    var n := |out| - 1;
    if i < n {
      RepeatsAt(out[..n], i);
      assert out[..n][..i] == out[..i];
    }
  }

  lemma GoesOn(s: State, f: Fragment)
    ensures Feed(s, f).completed == s.completed
  {
  }

  lemma {:induction false} FeedGoesOn(s: State, fs: seq<Fragment>)
    ensures FeedAll(s, fs).completed == s.completed
  {
    if fs != [] {
      hide Feed;
      FeedGoesOn(s, fs[..|fs| - 1]);
      GoesOn(FeedAll(s, fs[..|fs| - 1]), fs[|fs| - 1]);
    }
  }

  lemma {:induction false} StillGoing(chunks: seq<Chunk>)
    ensures !FeedChunks(INITIAL, chunks).completed
  {
    if chunks != [] {
      var before := FeedChunks(INITIAL, chunks[..|chunks| - 1]);
      StillGoing(chunks[..|chunks| - 1]);
      FeedGoesOn(EnsureCreated(before), Fragments(chunks[|chunks| - 1].choices));
      hide FeedAll;
    }
  }
}
