/** The order of the items of a chat answer: as the stream announces them, and as the output array
    of the terminal event lists them. */
module ChatToResponsesOrder {
  import opened Text
  import opened ResponsesEvents
  import C = ChatToResponsesSpec
  import A = ResponsesToAnthropicSpec
  import opened H = FragmentHistory
  import Chain = ChatToAnthropicChain
  import P = ChatToResponsesPump
  import T = ChatToResponsesContent
  import K = ChatToResponsesCalls

  /** The items an answer can have. */
  datatype Part = ReasoningAt | MessageAt | SlotAt(slot: int)

  function KindOf(p: Part): ItemKind {
    match p
    case ReasoningAt => Reasoning
    case MessageAt => Message
    case SlotAt(_) => FunctionCall
  }

  /** The part a fragment belongs to. */
  function PartOf(f: C.Fragment): Option<Part> {
    match f
    case Reason(_) => Some(ReasoningAt)
    case Content(_) => Some(MessageAt)
    case Tool(call) => Some(SlotAt(call.Slot()))
    case Finish(_) => None
  }

  /** The parts in order of first appearance. */
  function Parts(h: seq<C.Fragment>): seq<Part> {
    if h == [] then [] else
    var before, p := Parts(h[..|h| - 1]), PartOf(h[|h| - 1]);
    if p.Some? && p.value !in before then before + [p.value] else before
  }

  /** A reasoning-only answer ends with a message of its own. */
  function FinalParts(h: seq<C.Fragment>): seq<Part> {
    Parts(h) + if Written(h) == "" && Chain.VisibleText(h) != "" then [MessageAt] else []
  }

  function SlotParts(h: seq<C.Fragment>, n: nat): seq<Part> {
    if n == 0 then [] else SlotParts(h, n - 1) + if n - 1 in Slots(h) then [SlotAt(n - 1)] else []
  }

  /** The parts in the order of the output array. */
  function ArrayParts(h: seq<C.Fragment>): seq<Part> {
    (if Reasoned(h) != "" then [ReasoningAt] else []) +
    (if Chain.VisibleText(h) != "" || Slots(h) == [] then [MessageAt] else []) +
    SlotParts(h, |Slots(h)|)
  }

  lemma PartsOne(h: seq<C.Fragment>, f: C.Fragment)
    ensures Parts(h + [f]) == if PartOf(f).Some? && PartOf(f).value !in Parts(h) then Parts(h) + [PartOf(f).value] else Parts(h)
  {
    assert (h + [f])[..|h|] == h;
  }

  ghost predicate PartsTell(h: seq<C.Fragment>, parts: seq<Part>) {
    && (ReasoningAt in parts <==> Reasoned(h) != "") && (MessageAt in parts <==> Written(h) != "")
    && forall k :: SlotAt(k) in parts <==> k in Slots(h)
  }

  lemma PartsTellOne(h: seq<C.Fragment>, f: C.Fragment)
    requires PartsTell(h, Parts(h)) && (f.Reason? || f.Content? ==> f.text != "")
    ensures PartsTell(h + [f], Parts(h + [f]))
  {
    Extend(h, f);
    PartsOne(h, f);
    hide Written, Reasoned, Slots, Parts, Args, FirstIdentity, LatestIdentity, SpanEnded, LateReasoning, FinishReason;
  }

  lemma {:induction false} PartsMean(h: seq<C.Fragment>)
    requires Solid(h)
    ensures PartsTell(h, Parts(h))
  {
    hide PartsTell;
    if h == [] {
      NoParts();
    } else {
      var before := h[..|h| - 1];
      PartsMean(before);
      PartsTellOne(before, h[|h| - 1]);
      SplitLast([], h);
    }
  }

  lemma NoParts()
    ensures PartsTell([], Parts([]))
  {
  }

  // ---- the stream --------------------------------------------------------------------------------

  datatype Mark = Mark(index: int, kind: ItemKind)

  /** The items announced: output index and kind. */
  function Marks(out: seq<Event>): seq<Mark> {
    if out == [] then [] else
    var body := out[|out| - 1].body;
    Marks(out[..|out| - 1]) + if body.ItemAdded? then [Mark(body.index, body.item.kind)] else []
  }

  lemma EmitMarks(s: C.State, body: Body)
    ensures Marks(C.Emit(s, body).out) == Marks(s.out) + if body.ItemAdded? then [Mark(body.index, body.item.kind)] else []
  {
    var e := Event(s.counters.seqNo, body);
    assert (s.out + [e])[..|s.out|] == s.out;
  }

  lemma EmitUnmarked(s: C.State, body: Body)
    requires !body.ItemAdded?
    ensures Marks(C.Emit(s, body).out) == Marks(s.out)
  {
    EmitMarks(s, body);
    assert Marks(s.out) + [] == Marks(s.out);
  }

  function MarksOf(parts: seq<Part>): seq<Mark> {
    seq(|parts|, i requires 0 <= i < |parts| => Mark(i, KindOf(parts[i])))
  }

  lemma MarksOfOne(parts: seq<Part>, p: Part)
    ensures MarksOf(parts + [p]) == MarksOf(parts) + [Mark(|parts|, KindOf(p))]
  {
  }

  /** The stream announces the parts at indices 0, 1, 2, ... in their order. */
  ghost predicate Indexed(parts: seq<Part>, s: C.State) {
    s.counters.nextIndex == |parts| && Marks(s.out) == MarksOf(parts)
  }

  lemma CloseReasoningMarks(s: C.State)
    ensures var t := C.CloseReasoning(s);
            Marks(t.out) == Marks(s.out) && t.counters.nextIndex == s.counters.nextIndex && t.message == s.message && t.tools == s.tools
  {
    hide Marks;
    var r := s.reasoning.(open := false, done := true);
    var t := s.(reasoning := r);
    var a, b := SummaryTextDone(r.index, r.id, r.text), SummaryPartDone(r.index, r.id, r.text);
    EmitUnmarked(t, a);
    EmitUnmarked(C.Emit(t, a), b);
    EmitUnmarked(C.Emit(C.Emit(t, a), b), ItemDone(r.index, ReasoningItem(r.id, r.text, true)));
  }

  lemma AddReasoningMarks(parts: seq<Part>, s: C.State, delta: string)
    requires Indexed(parts, s)
    ensures Indexed(if s.reasoning.open || s.reasoning.done then parts else parts + [ReasoningAt], C.AddReasoning(s, delta))
  {
    hide Marks, MarksOf;
    var r := s.reasoning.(open := true, id := Fresh(s.counters.serial), index := s.counters.nextIndex);
    var o := s.(reasoning := r, counters := C.Allocated(C.Drawn(s.counters)));
    var b := ItemAdded(r.index, ReasoningItem(r.id, "", false));
    EmitMarks(o, b);
    EmitUnmarked(C.Emit(o, b), SummaryPartAdded(r.index, r.id));
    MarksOfOne(parts, ReasoningAt);
    var t := C.OpenReasoning(s);
    EmitUnmarked(t.(reasoning := t.reasoning.(text := t.reasoning.text + delta)), ReasoningDelta(t.reasoning.index, t.reasoning.id, delta));
  }

  lemma AddTextMarks(parts: seq<Part>, s: C.State, delta: string)
    requires Indexed(parts, s)
    ensures Indexed(if s.message.id.NoId? then parts + [MessageAt] else parts, C.AddText(s, delta))
  {
    hide Marks, MarksOf;
    var m := s.message.(id := Fresh(s.counters.serial), index := s.counters.nextIndex);
    EmitMarks(s.(message := m, counters := C.Allocated(C.Drawn(s.counters))), ItemAdded(m.index, MessageItem(m.id, "", false)));
    MarksOfOne(parts, MessageAt);
    var o := C.OpenMessage(s);
    EmitUnmarked(o.(message := o.message.(partOpen := true)), PartAdded(o.message.index, o.message.id));
    var t := C.OpenTextPart(o);
    EmitUnmarked(t.(message := t.message.(text := t.message.text + delta)), TextDelta(t.message.index, t.message.id, delta));
  }

  lemma AddToolMarks(parts: seq<Part>, s: C.State, f: C.ToolFragment)
    requires Indexed(parts, s)
    ensures Indexed(if f.Slot() in s.tools.calls then parts else parts + [SlotAt(f.Slot())], C.AddTool(s, f))
  {
    var k := f.Slot();
    var o := if k in s.tools.calls then C.SetCall(s, k, C.Renamed(s.tools.calls[k], f)) else C.OpenTool(s, f);
    OpenToolMarks(parts, s, f);
    hide Marks, MarksOf, C.OpenTool;
    if f.args != "" {
      var d := o.tools.calls[k].(args := o.tools.calls[k].args + f.args);
      EmitUnmarked(C.SetCall(o, k, d), ArgsDelta(Lookup(o.tools.outIndex, k, 0), Lookup(o.tools.itemIds, k, NoId), f.args, d.id, d.name));
    }
  }

  lemma OpenToolMarks(parts: seq<Part>, s: C.State, f: C.ToolFragment)
    requires Indexed(parts, s)
    ensures Indexed(parts + [SlotAt(f.Slot())], C.OpenTool(s, f))
  {
    CloseReasoningMarks(s);
    MarksOfOne(parts, SlotAt(f.Slot()));
    hide Marks, MarksOf, C.CloseReasoning;
    var a, k := C.CloseReasoning(s), f.Slot();
    var c := if f.id == "" then C.Drawn(a.counters) else a.counters;
    var id := if f.id == "" then Fresh(a.counters.serial) else Given(f.id);
    var tools := C.ToolTable(a.tools.calls[k := C.ToolCall(id, f.name, "")], a.tools.itemIds[k := Fresh(c.serial)],
                             a.tools.outIndex[k := c.nextIndex]);
    EmitMarks(a.(tools := tools, counters := C.Allocated(C.Drawn(c))),
              ItemAdded(c.nextIndex, CallItem(Fresh(c.serial), id, f.name, "", false)));
  }

  lemma IndexedNext(h: seq<C.Fragment>, s: C.State, f: C.Fragment)
    requires Solid(h) && Chain.ChatTracks(h, s) && Indexed(Parts(h), s)
    ensures Indexed(Parts(h + [f]), C.Feed(s, f))
  {
    PartsOne(h, f);
    PartsMean(h);
    K.InTable(h, s.tools, s.counters.nextIndex);
    hide Marks, MarksOf, C.AddReasoning, C.AddText, C.AddTool, C.CloseReasoning, Parts, Slots, Written, Reasoned, Chain.TableTracks;
    match f
    case Reason(d) => AddReasoningMarks(Parts(h), s, d);
    case Content(d) =>
      CloseReasoningMarks(s);
      AddTextMarks(Parts(h), C.CloseReasoning(s), d);
    case Tool(call) => AddToolMarks(Parts(h), s, call);
    case Finish(_) =>
  }

  lemma {:induction false} IndexedAll(h: seq<C.Fragment>)
    requires Solid(h)
    ensures var s := C.FeedAll(C.EnsureCreated(C.INITIAL), h); Indexed(Parts(h), s) && Chain.ChatTracks(h, s)
  {
    hide Chain.ChatTracks, Indexed;
    if h == [] {
      IndexedStart();
      K.ChatStart();
    } else {
      var before, f := h[..|h| - 1], h[|h| - 1];
      IndexedAll(before);
      var s := C.FeedAll(C.EnsureCreated(C.INITIAL), before);
      IndexedNext(before, s, f);
      K.ChatNext(before, s, f);
      SplitLast([], h);
    }
  }

  lemma IndexedStart()
    ensures Indexed(Parts([]), C.EnsureCreated(C.INITIAL))
  {
    EmitUnmarked(C.INITIAL.(created := true), Created);
  }

  lemma CloseMessageMarks(s: C.State)
    ensures Marks(C.CloseMessage(s).out) == Marks(s.out)
  {
    hide Marks;
    var m := s.message;
    var a, b := TextDone(m.index, m.id, m.text), PartDone(m.index, m.id, m.text);
    EmitUnmarked(s, a);
    EmitUnmarked(C.Emit(s, a), b);
    EmitUnmarked(if !m.partOpen then s else C.Emit(C.Emit(s, a), b), ItemDone(m.index, MessageItem(m.id, m.text, true)));
  }

  lemma {:induction false} CloseToolsMarks(s: C.State, n: nat)
    ensures Marks(C.CloseTools(s, n).out) == Marks(s.out)
  {
    hide Marks, C.CloseTool;
    if n > 0 {
      CloseToolsMarks(s, n - 1);
      var t := C.CloseTools(s, n - 1);
      if n - 1 in t.tools.calls { CloseToolMarks(t, n - 1); }
    }
  }

  lemma CloseToolMarks(s: C.State, k: int)
    requires k in s.tools.calls
    ensures Marks(C.CloseTool(s, k).out) == Marks(s.out)
  {
    hide Marks, C.ArgsOrObject;
    var c := s.tools.calls[k];
    var index, id := Lookup(s.tools.outIndex, k, 0), Lookup(s.tools.itemIds, k, NoId);
    var a := ArgsDone(index, id, c.id, c.name, C.ArgsOrObject(c.args));
    EmitUnmarked(s, a);
    EmitUnmarked(C.Emit(s, a), ItemDone(index, CallItem(id, c.id, c.name, C.ArgsOrObject(c.args), true)));
  }

  lemma FinalizeMarks(h: seq<C.Fragment>, s: C.State)
    requires Chain.ChatTracks(h, s) && Indexed(Parts(h), s)
    ensures Marks(C.Finalize(s).out) == MarksOf(FinalParts(h))
  {
    var a := C.CloseReasoning(s);
    CloseReasoningMarks(s);
    FallbackMarks(h, s);
    var b := C.Fallback(a);
    CloseMessageMarks(b);
    var d := C.CloseMessage(b);
    CloseToolsMarks(d, |d.tools.calls|);
    T.FinalizeIs(s);
    var u := Chain.BeforeEnd(s);
    EmitUnmarked(u.(completed := true), T.EndBody(u));
    hide Marks, MarksOf, C.CloseReasoning, C.Fallback, C.CloseMessage, C.CloseTools, C.Finalize, FinalParts, Chain.ChatTracks;
  }

  /** When the reasoning is shown as text. */
  lemma FallbackWhen(h: seq<C.Fragment>, s: C.State)
    requires Chain.ChatTracks(h, s)
    ensures var a := C.CloseReasoning(s);
            && (C.NeedsFallback(a) <==> Written(h) == "" && Chain.VisibleText(h) != "")
            && (C.NeedsFallback(a) ==> a.message.id.NoId?)
  {
    var a := C.CloseReasoning(s);
    assert a.reasoning.text == s.reasoning.text && a.message == s.message && a.tools == s.tools;
    Chain.NoCalls(h, s.tools, s.counters.nextIndex);
    Chain.BlankEmpty();
    hide C.CloseReasoning, IsBlank, Slots, Written, Reasoned, Chain.TableTracks;
  }

  lemma FallbackMarks(h: seq<C.Fragment>, s: C.State)
    requires Chain.ChatTracks(h, s) && Indexed(Parts(h), s)
    ensures Marks(C.Fallback(C.CloseReasoning(s)).out) == MarksOf(FinalParts(h))
  {
    var a := C.CloseReasoning(s);
    CloseReasoningMarks(s);
    FallbackWhen(h, s);
    AddTextMarks(Parts(h), a, a.reasoning.text);
    assert Parts(h) + [] == Parts(h);
    hide Marks, MarksOf, C.CloseReasoning, C.AddText, C.NeedsFallback, Parts, Written, Chain.VisibleText, Chain.ChatTracks;
  }

  // ---- the output array --------------------------------------------------------------------------

  /** The item of a part: its kind, and for a tool slot its call, with the identity and arguments
      kept for that slot. */
  predicate ItemFor(item: Item, p: Part, calls: map<int, C.ToolCall>) {
    && item.kind == KindOf(p)
    && (p.SlotAt? ==>
          p.slot in calls && var call := calls[p.slot];
                             item == CallItem(item.id, call.id, call.name, C.ArgsOrObject(call.args), true))
  }

  predicate Lists(output: seq<Item>, parts: seq<Part>, calls: map<int, C.ToolCall>) {
    |output| == |parts| && forall i :: 0 <= i < |output| ==> ItemFor(output[i], parts[i], calls)
  }

  lemma {:induction false} OutputCallsListed(h: seq<C.Fragment>, tools: C.ToolTable, serial: nat, n: nat)
    requires forall k: int :: k in tools.calls <==> k in Slots(h)
    ensures Lists(C.OutputCalls(tools, serial, n), SlotParts(h, n), tools.calls)
  {
    hide Slots, C.ArgsOrObject;
    if n > 0 { OutputCallsListed(h, tools, serial, n - 1); }
  }

  lemma OutputShape(h: seq<C.Fragment>, r: C.ReasoningPart, m: C.MessagePart, tools: C.ToolTable, serial: nat)
    requires r.text == Reasoned(h) && (m.id.NoId? <==> Chain.VisibleText(h) == "") && |tools.calls| == |Slots(h)|
    requires Lists(C.OutputCalls(tools, serial, |Slots(h)|), SlotParts(h, |Slots(h)|), tools.calls)
    ensures Lists(C.Output(r, m, tools, serial), ArrayParts(h), tools.calls)
  {
    hide C.OutputCalls, SlotParts, Slots, Reasoned, Chain.VisibleText, C.ArgsOrObject;
    assert Slots(h) == [] <==> |tools.calls| == 0;
    var a := if r.text != "" then [ReasoningItem(Fresh(serial), r.text, true)] else [];
    var b := if !m.id.NoId? || |tools.calls| == 0
             then [MessageItem(if !m.id.NoId? then m.id else Fresh(serial + 1), m.text, true)] else [];
    var x := if Reasoned(h) != "" then [ReasoningAt] else [];
    var y := if Chain.VisibleText(h) != "" || Slots(h) == [] then [MessageAt] else [];
    ListsAppend(a, x, b, y, tools.calls);
    ListsAppend(a + b, x + y, C.OutputCalls(tools, serial, |Slots(h)|), SlotParts(h, |Slots(h)|), tools.calls);
  }

  lemma ListsAppend(a: seq<Item>, x: seq<Part>, b: seq<Item>, y: seq<Part>, calls: map<int, C.ToolCall>)
    requires Lists(a, x, calls) && Lists(b, y, calls)
    ensures Lists(a + b, x + y, calls)
  {
    hide ItemFor;
  }

  /** The output array lists the parts in its own fixed order. */
  lemma OutputLists(h: seq<C.Fragment>, s: C.State)
    requires Chain.ChatTracks(h, s) && T.Told(s)
    ensures Lists(T.FinalOutput(s), ArrayParts(h), s.tools.calls) && Chain.CallsTrack(h, s.tools.calls)
  {
    T.EndSays(h, s);
    T.FinalizeIs(s);
    EndMessage(h, s);
    var u := Chain.BeforeEnd(s);
    K.InTable(h, s.tools, s.counters.nextIndex);
    Chain.TableSize(h, s.tools, s.counters.nextIndex);
    hide Chain.BeforeEnd, T.FinalOutput, C.OutputCalls, C.Output, SlotParts, ArrayParts, Slots, Reasoned, Chain.VisibleText, T.Told, Lists;
    hide Chain.CallsTrack;
    OutputCallsListed(h, u.tools, u.counters.serial, |Slots(h)|);
    OutputShape(h, u.reasoning, u.message, u.tools, u.counters.serial);
  }

  lemma EndMessage(h: seq<C.Fragment>, s: C.State)
    requires Chain.ChatTracks(h, s)
    ensures Chain.BeforeEnd(s).message.id.NoId? <==> Chain.VisibleText(h) == ""
  {
    FallbackWhen(h, s);
    var a := C.CloseReasoning(s);
    assert a.message == s.message;
    var b := C.Fallback(a);
    assert b.message.id.NoId? <==> a.message.id.NoId? && !C.NeedsFallback(a);
    assert C.CloseMessage(b).message == b.message;
    hide C.CloseReasoning, C.NeedsFallback, C.Fallback, C.CloseMessage, C.CloseTools, Written, Reasoned, Slots, IsBlank, Chain.TableTracks;
  }

  // ---- when the two orders agree -------------------------------------------------------------------

  /** Reasoning, then the message, then the slots in increasing order. */
  function Rank(p: Part): int {
    match p
    case ReasoningAt => 0
    case MessageAt => 1
    case SlotAt(k) => if k < 0 then k else k + 2
  }

  predicate Ranked(parts: seq<Part>) {
    forall i, j :: 0 <= i < j < |parts| ==> Rank(parts[i]) < Rank(parts[j])
  }

  function Ranks(parts: seq<Part>): seq<int> {
    seq(|parts|, i requires 0 <= i < |parts| => Rank(parts[i]))
  }

  lemma RanksMean(parts: seq<Part>, p: Part)
    ensures Rank(p) in Ranks(parts) <==> p in parts
  {
    if p in parts {
      var i :| 0 <= i < |parts| && parts[i] == p;
      assert Ranks(parts)[i] == Rank(p);
    }
    if Rank(p) in Ranks(parts) {
      var i :| 0 <= i < |Ranks(parts)| && Ranks(parts)[i] == Rank(p);
    }
  }

  /** Only one ranked sequence has given members. */
  lemma RankedUnique(a: seq<Part>, b: seq<Part>)
    requires Ranked(a) && Ranked(b) && forall p :: p in a <==> p in b
    ensures a == b
  {
    var x, y := Ranks(a), Ranks(b);
    forall r: int ensures r in x <==> r in y {
      if r in x {
        var i :| 0 <= i < |x| && x[i] == r;
        assert a[i] in a;
        RanksMean(b, a[i]);
      }
      if r in y {
        var i :| 0 <= i < |y| && y[i] == r;
        assert b[i] in b;
        RanksMean(a, b[i]);
      }
    }
    A.IncreasingUnique(x, y);
    forall i | 0 <= i < |a| ensures a[i] == b[i] {
      assert x[i] == y[i];
    }
  }

  lemma {:induction false} SlotPartsMean(h: seq<C.Fragment>, n: nat)
    ensures Ranked(SlotParts(h, n))
    ensures forall i :: 0 <= i < |SlotParts(h, n)| ==> SlotParts(h, n)[i].SlotAt? && 0 <= SlotParts(h, n)[i].slot < n
    ensures forall k: int :: SlotAt(k) in SlotParts(h, n) <==> 0 <= k < n && k in Slots(h)
  {
    hide Slots;
    if n > 0 { SlotPartsMean(h, n - 1); }
  }

  lemma RankedAfter(a: seq<Part>, b: seq<Part>)
    requires Ranked(a) && Ranked(b)
    requires (forall i :: 0 <= i < |a| ==> Rank(a[i]) < 2) && forall j :: 0 <= j < |b| ==> Rank(b[j]) >= 2
    ensures Ranked(a + b)
  {
  }

  lemma SlotPartsRanked(h: seq<C.Fragment>, n: nat)
    ensures Ranked(SlotParts(h, n)) && forall j :: 0 <= j < |SlotParts(h, n)| ==> Rank(SlotParts(h, n)[j]) >= 2
  {
    SlotPartsMean(h, n);
    hide SlotParts, Slots, Ranked;
  }

  function HeadParts(reasoning: bool, message: bool): seq<Part> {
    (if reasoning then [ReasoningAt] else []) + (if message then [MessageAt] else [])
  }

  lemma HeadRanked(reasoning: bool, message: bool)
    ensures Ranked(HeadParts(reasoning, message))
    ensures forall i :: 0 <= i < |HeadParts(reasoning, message)| ==> Rank(HeadParts(reasoning, message)[i]) < 2
  {
  }

  lemma ArrayRanked(h: seq<C.Fragment>)
    ensures Ranked(ArrayParts(h))
  {
    hide SlotParts, Slots, Reasoned, Chain.VisibleText, Ranked;
    var reasoning, message := Reasoned(h) != "", Chain.VisibleText(h) != "" || Slots(h) == [];
    HeadRanked(reasoning, message);
    SlotPartsRanked(h, |Slots(h)|);
    assert ArrayParts(h) == HeadParts(reasoning, message) + SlotParts(h, |Slots(h)|);
    RankedAfter(HeadParts(reasoning, message), SlotParts(h, |Slots(h)|));
  }

  /** Membership in the array, part by part. */
  lemma InArray(h: seq<C.Fragment>, p: Part)
    ensures p in ArrayParts(h) <==>
            || (p == ReasoningAt && Reasoned(h) != "") || (p == MessageAt && (Chain.VisibleText(h) != "" || Slots(h) == []))
            || p in SlotParts(h, |Slots(h)|)
  {
    hide SlotParts, Slots, Reasoned, Chain.VisibleText;
  }

  lemma ArrayPartsMean(h: seq<C.Fragment>)
    ensures Ranked(ArrayParts(h))
    ensures ReasoningAt in ArrayParts(h) <==> Reasoned(h) != ""
    ensures MessageAt in ArrayParts(h) <==> Chain.VisibleText(h) != "" || Slots(h) == []
    ensures forall k: int :: SlotAt(k) in ArrayParts(h) <==> 0 <= k < |Slots(h)| && k in Slots(h)
  {
    ArrayRanked(h);
    SlotPartsMean(h, |Slots(h)|);
    InArray(h, ReasoningAt);
    InArray(h, MessageAt);
    hide SlotParts, Slots, Reasoned, Chain.VisibleText, ArrayParts, Ranked;
    forall k: int ensures SlotAt(k) in ArrayParts(h) <==> 0 <= k < |Slots(h)| && k in Slots(h) { InArray(h, SlotAt(k)); }
  }

  lemma FinalPartsMean(h: seq<C.Fragment>)
    requires Solid(h)
    ensures ReasoningAt in FinalParts(h) <==> Reasoned(h) != ""
    ensures MessageAt in FinalParts(h) <==> Chain.VisibleText(h) != ""
    ensures forall k: int :: SlotAt(k) in FinalParts(h) <==> k in Slots(h)
  {
    PartsMean(h);
    hide Parts, Slots, Reasoned, Written, IsBlank;
  }

  /** Reasoning first, text before tools, slots 0, ..., n - 1 in increasing order, and something
      to say: the order the upstream must keep. */
  predicate InOrder(h: seq<C.Fragment>) {
    Ranked(FinalParts(h)) && P.Contiguous(h) && (Chain.VisibleText(h) != "" || Slots(h) != [])
  }

  lemma InOrderExactly(h: seq<C.Fragment>)
    requires Solid(h)
    ensures FinalParts(h) == ArrayParts(h) <==> InOrder(h)
  {
    ArrayPartsMean(h);
    FinalPartsMean(h);
    SlotsIn(h);
    hide FinalParts, ArrayParts, Slots, Reasoned, Chain.VisibleText, Ranked;
    if InOrder(h) {
      forall p ensures p in FinalParts(h) <==> p in ArrayParts(h) {
        match p
        case ReasoningAt =>
        case MessageAt =>
        case SlotAt(k) =>
      }
      RankedUnique(FinalParts(h), ArrayParts(h));
    }
  }

  ghost predicate Below(slots: seq<int>, n: nat) {
    forall k: int :: k in slots ==> 0 <= k < n
  }

  lemma SlotsIn(h: seq<C.Fragment>)
    ensures P.Contiguous(h) <==> Below(Slots(h), |Slots(h)|)
  {
    hide Slots;
    var slots := Slots(h);
    if P.Contiguous(h) {
      forall k: int | k in slots ensures 0 <= k < |slots| {
        var i :| 0 <= i < |slots| && slots[i] == k;
      }
    }
    if Below(slots, |slots|) {
      forall i | 0 <= i < |slots| ensures 0 <= slots[i] < |slots| {
        var k := slots[i];
        assert k in slots;
      }
    }
  }

  /** The stream announces its items at indices 0, 1, 2, ..., and the output array lists them in
      its own order; the two match exactly when the upstream kept that order. */
  lemma OrderTheorem(chunks: seq<C.Chunk>)
    requires chunks != []
    ensures var s, h := C.FeedChunks(C.INITIAL, chunks), C.AllFragments(chunks);
            && Marks(C.Finalize(s).out) == MarksOf(FinalParts(h))
            && Lists(T.FinalOutput(s), ArrayParts(h), s.tools.calls) && Chain.CallsTrack(h, s.tools.calls)
            && (FinalParts(h) == ArrayParts(h) <==> InOrder(h))
  {
    var s, h := C.FeedChunks(C.INITIAL, chunks), C.AllFragments(chunks);
    AllFragmentsSolid(chunks);
    Chain.ChunksAreFragments(chunks);
    IndexedAll(h);
    T.StartTold();
    T.FeedTold(C.EnsureCreated(C.INITIAL), h);
    hide C.FeedChunks, C.FeedAll, C.AllFragments, C.Finalize, Indexed, Chain.ChatTracks, T.Told, T.FinalOutput, Lists, MarksOf, Marks, Chain.CallsTrack;
    FinalizeMarks(h, s);
    OutputLists(h, s);
    InOrderExactly(h);
    hide InOrder, FinalParts, ArrayParts;
  }
}
