/** The Responses stream of a chat upstream as a client sees it: numbering, which items are
    ever reported done, and how the stream ends. */
module ChatToResponsesPump {
  import opened Text
  import opened ResponsesEvents
  import C = ChatToResponsesSpec
  import A = ResponsesToAnthropicSpec
  import ChatToResponses
  import opened H = FragmentHistory
  import Chain = ChatToAnthropicChain
  import P = ChatToAnthropicPump

  /** The items announced and not yet reported done. */
  function Unfinished(out: seq<Event>): set<Id> {
    if out == [] then {} else
    var before := Unfinished(out[..|out| - 1]);
    match out[|out| - 1].body
    case ItemAdded(_, item) => before + {item.id}
    case ItemDone(_, item) => before - {item.id}
    case _ => before
  }

  function Terminals(out: seq<Event>): nat {
    if out == [] then 0 else Terminals(out[..|out| - 1]) + if out[|out| - 1].body.Terminal? then 1 else 0
  }

  predicate Numbered(out: seq<Event>) {
    forall i :: 0 <= i < |out| ==> out[i].seqNo == i
  }

  lemma EmitReads(s: C.State, body: Body)
    ensures var t := C.Emit(s, body);
            && Terminals(t.out) == Terminals(s.out) + (if body.Terminal? then 1 else 0)
            && Unfinished(t.out) == (if body.ItemAdded? then Unfinished(s.out) + {body.item.id}
                                     else if body.ItemDone? then Unfinished(s.out) - {body.item.id} else Unfinished(s.out))
            && (Numbered(s.out) && |s.out| == s.counters.seqNo ==> Numbered(t.out) && |t.out| == t.counters.seqNo)
  {
    var e := Event(s.counters.seqNo, body);
    assert (s.out + [e])[..|s.out|] == s.out;
  }

  function OpenReasoningId(r: C.ReasoningPart): set<Id> {
    if r.open then {r.id} else {}
  }

  function MessageId(m: C.MessagePart): set<Id> {
    if m.id.NoId? then {} else {m.id}
  }

  ghost predicate Drawn(ids: set<Id>, serial: nat) {
    forall id :: id in ids ==> id.Fresh? && id.serial < serial
  }

  /** Every slot has an item of its own. */
  ghost predicate Injective<K, V>(m: map<K, V>) {
    forall j, k :: j in m && k in m && m[j] == m[k] ==> j == k
  }

  lemma ValuesUpdate<K, V>(m: map<K, V>, k: K, v: V)
    requires k !in m && v !in m.Values
    ensures m[k := v].Values == m.Values + {v} && (Injective(m) ==> Injective(m[k := v]))
  {
    var now := m[k := v];
    forall x | x in m.Values ensures x in now.Values {
      var i :| i in m && m[i] == x;
      assert now[i] == x;
    }
    assert now[k] == v;
    forall i, j | Injective(m) && i in now && j in now && now[i] == now[j] ensures i == j {
      assert i != k ==> m[i] in m.Values;
      assert j != k ==> m[j] in m.Values;
    }
  }

  lemma ValuesRemove<K, V>(m: map<K, V>, k: K)
    requires k in m && Injective(m)
    ensures (m - {k}).Values == m.Values - {m[k]} && Injective(m - {k})
  {
    var now := m - {k};
    forall x | x in m.Values && x != m[k] ensures x in now.Values {
      var i :| i in m && m[i] == x;
      assert now[i] == x;
    }
  }

  /** The open items are those of the translator's own records, no two alike. */
  ghost predicate Ledger(s: C.State) {
    var r, m, t := OpenReasoningId(s.reasoning), MessageId(s.message), s.tools.itemIds.Values;
    && Unfinished(s.out) == r + m + t
    && Drawn(r + m + t, s.counters.serial) && r !! m && r !! t && m !! t && Injective(s.tools.itemIds)
  }

  ghost predicate Tidy(s: C.State) {
    Numbered(s.out) && |s.out| == s.counters.seqNo && Terminals(s.out) == 0
  }

  ghost predicate Kept(s: C.State) {
    Ledger(s) && Tidy(s)
  }

  predicate Neutral(body: Body) {
    !body.ItemAdded? && !body.ItemDone? && !body.Terminal?
  }

  lemma EmitNeutral(s: C.State, body: Body)
    requires Kept(s) && Neutral(body)
    ensures Kept(C.Emit(s, body))
  {
    hide Unfinished, Terminals, Numbered, Injective;
    EmitReads(s, body);
  }

  lemma OpenReasoningKept(s: C.State)
    requires Kept(s)
    ensures Kept(C.OpenReasoning(s))
  {
    hide Unfinished, Terminals, Numbered, Injective;
    if !s.reasoning.open && !s.reasoning.done {
      var r := s.reasoning.(open := true, id := Fresh(s.counters.serial), index := s.counters.nextIndex);
      var t := s.(reasoning := r, counters := C.Allocated(C.Drawn(s.counters)));
      var b := ItemAdded(r.index, ReasoningItem(r.id, "", false));
      EmitReads(t, b);
      EmitNeutral(C.Emit(t, b), SummaryPartAdded(r.index, r.id));
    }
  }

  lemma CloseReasoningKept(s: C.State)
    requires Kept(s)
    ensures Kept(C.CloseReasoning(s)) && !C.CloseReasoning(s).reasoning.open
  {
    hide Unfinished, Terminals, Numbered, Injective;
    var r := s.reasoning.(open := false, done := true);
    var t := s.(reasoning := r);
    var a, b := SummaryTextDone(r.index, r.id, r.text), SummaryPartDone(r.index, r.id, r.text);
    EmitReads(t, a);
    EmitReads(C.Emit(t, a), b);
    EmitReads(C.Emit(C.Emit(t, a), b), ItemDone(r.index, ReasoningItem(r.id, r.text, true)));
  }

  lemma AddTextKept(s: C.State, delta: string)
    requires Kept(s)
    ensures Kept(C.AddText(s, delta))
  {
    hide Unfinished, Terminals, Numbered, Injective;
    OpenMessageKept(s);
    var o := C.OpenMessage(s);
    EmitNeutral(o.(message := o.message.(partOpen := true)), PartAdded(o.message.index, o.message.id));
    var t := C.OpenTextPart(o);
    EmitNeutral(t.(message := t.message.(text := t.message.text + delta)), TextDelta(t.message.index, t.message.id, delta));
    hide C.OpenMessage;
  }

  lemma OpenMessageKept(s: C.State)
    requires Kept(s)
    ensures Kept(C.OpenMessage(s))
  {
    hide Unfinished, Terminals, Numbered, Injective;
    if s.message.id.NoId? {
      var m := s.message.(id := Fresh(s.counters.serial), index := s.counters.nextIndex);
      EmitReads(s.(message := m, counters := C.Allocated(C.Drawn(s.counters))), ItemAdded(m.index, MessageItem(m.id, "", false)));
    }
  }

  lemma AddReasoningKept(s: C.State, delta: string)
    requires Kept(s)
    ensures Kept(C.AddReasoning(s, delta))
  {
    hide Unfinished, Terminals, Numbered, Injective, C.OpenReasoning;
    OpenReasoningKept(s);
    var t := C.OpenReasoning(s);
    EmitNeutral(t.(reasoning := t.reasoning.(text := t.reasoning.text + delta)),
                ReasoningDelta(t.reasoning.index, t.reasoning.id, delta));
  }

  /** A new item with an identifier of its own, with room for one more serial before it. */
  lemma LedgerOpen(t: C.State, tools: C.ToolTable, serial: nat, c: C.Counters, body: Body)
    requires Kept(t) && body.ItemAdded? && body.item.id == Fresh(serial) && serial >= t.counters.serial
    requires tools.itemIds.Values == t.tools.itemIds.Values + {Fresh(serial)} && Injective(tools.itemIds)
    requires c.seqNo == t.counters.seqNo && c.serial == serial + 1
    ensures Kept(C.Emit(t.(tools := tools, counters := c), body))
  {
    hide Unfinished, Terminals, Numbered, Injective;
    EmitReads(t.(tools := tools, counters := c), body);
    assert Fresh(serial) !in OpenReasoningId(t.reasoning) + MessageId(t.message) + t.tools.itemIds.Values;
    hide OpenReasoningId, MessageId;
  }

  lemma OpenToolKept(s: C.State, f: C.ToolFragment)
    requires Kept(s) && f.Slot() !in s.tools.itemIds
    ensures Kept(C.OpenTool(s, f))
  {
    CloseReasoningKept(s);
    var t, k := C.CloseReasoning(s), f.Slot();
    assert t.tools == s.tools;
    FreshIsNew(t, if f.id == "" then t.counters.serial + 1 else t.counters.serial);
    hide Kept, C.CloseReasoning, Injective;
    var c := if f.id == "" then C.Drawn(t.counters) else t.counters;
    ValuesUpdate(t.tools.itemIds, k, Fresh(c.serial));
    var id := if f.id == "" then Fresh(t.counters.serial) else Given(f.id);
    var tools := C.ToolTable(t.tools.calls[k := C.ToolCall(id, f.name, "")], t.tools.itemIds[k := Fresh(c.serial)],
                             t.tools.outIndex[k := c.nextIndex]);
    LedgerOpen(t, tools, c.serial, C.Allocated(C.Drawn(c)), ItemAdded(c.nextIndex, CallItem(Fresh(c.serial), id, f.name, "", false)));
  }

  lemma FreshIsNew(s: C.State, serial: nat)
    requires Kept(s) && serial >= s.counters.serial
    ensures Fresh(serial) !in s.tools.itemIds.Values && Injective(s.tools.itemIds)
  {
    hide Unfinished, Terminals, Numbered, Injective;
  }

  ghost predicate SameSlots(s: C.State) {
    s.tools.calls.Keys == s.tools.itemIds.Keys
  }

  lemma AddToolKept(s: C.State, f: C.ToolFragment)
    requires Kept(s) && SameSlots(s)
    ensures Kept(C.AddTool(s, f)) && SameSlots(C.AddTool(s, f))
  {
    hide Unfinished, Terminals, Numbered, Injective;
    var k := f.Slot();
    Chain.AddToolShape(s, f);
    assert k in s.tools.calls <==> k in s.tools.itemIds;
    var t := if k in s.tools.calls then C.SetCall(s, k, C.Renamed(s.tools.calls[k], f)) else C.OpenTool(s, f);
    if k !in s.tools.calls { OpenToolKept(s, f); }
    hide C.OpenTool;
    assert Kept(t);
    if f.args != "" {
      var c := t.tools.calls[k].(args := t.tools.calls[k].args + f.args);
      EmitNeutral(C.SetCall(t, k, c),
                  ArgsDelta(Lookup(t.tools.outIndex, k, 0), Lookup(t.tools.itemIds, k, NoId), f.args, c.id, c.name));
    }
  }

  lemma FeedOneKept(s: C.State, f: C.Fragment)
    requires Kept(s) && SameSlots(s)
    ensures Kept(C.Feed(s, f)) && SameSlots(C.Feed(s, f))
  {
    hide Kept, C.AddTool;
    match f
    case Reason(d) => AddReasoningKept(s, d);
    case Content(d) =>
      CloseReasoningKept(s);
      AddTextKept(C.CloseReasoning(s), d);
    case Tool(call) => AddToolKept(s, call);
    case Finish(reason) => FinishKept(s, reason);
  }

  lemma {:induction false} FeedKept(s: C.State, h: seq<C.Fragment>)
    requires Kept(s) && SameSlots(s)
    ensures Kept(C.FeedAll(s, h)) && SameSlots(C.FeedAll(s, h))
  {
    hide Kept, SameSlots, C.Feed;
    if h != [] {
      FeedKept(s, h[..|h| - 1]);
      FeedOneKept(C.FeedAll(s, h[..|h| - 1]), h[|h| - 1]);
    }
  }

  lemma FinishKept(s: C.State, reason: string)
    requires Kept(s)
    ensures Kept(s.(finish := reason))
  {
  }

  lemma StartKept()
    ensures Kept(C.EnsureCreated(C.INITIAL)) && SameSlots(C.EnsureCreated(C.INITIAL))
  {
    assert C.INITIAL.tools.itemIds.Values == {};
    EmitReads(C.INITIAL.(created := true), Created);
  }

  // ---- the end of the stream ---------------------------------------------------------------

  function Below(n: nat): (ks: set<int>)
    ensures forall k :: k in ks <==> 0 <= k < n
  {
    if n == 0 then {} else Below(n - 1) + {n as int - 1}
  }

  /** The items of the slots that closing up to n has not reached. */
  function Unreached(itemIds: map<int, Id>, n: nat): map<int, Id> {
    itemIds - Below(n)
  }

  lemma CloseMessageReads(s: C.State)
    requires Kept(s) && !s.reasoning.open
    ensures var t := C.CloseMessage(s);
            Tidy(t) && t.tools == s.tools && Unfinished(t.out) == s.tools.itemIds.Values && Injective(t.tools.itemIds)
  {
    hide Unfinished, Terminals, Numbered, Injective;
    var m := s.message;
    var a, b := TextDone(m.index, m.id, m.text), PartDone(m.index, m.id, m.text);
    EmitReads(s, a);
    EmitReads(C.Emit(s, a), b);
    var t := if !m.partOpen then s else C.Emit(C.Emit(s, a), b);
    EmitReads(t, ItemDone(m.index, MessageItem(m.id, m.text, true)));
  }

  lemma UnreachedNext(itemIds: map<int, Id>, n: nat)
    ensures Unreached(itemIds, n + 1) == Unreached(itemIds, n) - {n as int}
    ensures n in itemIds <==> n in Unreached(itemIds, n)
  {
  }

  lemma CloseToolReads(s: C.State, k: int)
    requires Tidy(s) && k in s.tools.calls
    ensures var t := C.CloseTool(s, k);
            Tidy(t) && t.tools == s.tools && Unfinished(t.out) == Unfinished(s.out) - {Lookup(s.tools.itemIds, k, NoId)}
  {
    hide Unfinished, Terminals, Numbered, C.ArgsOrObject;
    var c := s.tools.calls[k];
    var index, id := Lookup(s.tools.outIndex, k, 0), Lookup(s.tools.itemIds, k, NoId);
    var a := ArgsDone(index, id, c.id, c.name, C.ArgsOrObject(c.args));
    EmitReads(s, a);
    EmitReads(C.Emit(s, a), ItemDone(index, CallItem(id, c.id, c.name, C.ArgsOrObject(c.args), true)));
  }

  ghost predicate Closing(s: C.State, n: nat) {
    var left := Unreached(s.tools.itemIds, n);
    Tidy(s) && Unfinished(s.out) == left.Values && Injective(left)
  }

  lemma CloseNext(t: C.State, n: nat)
    requires Closing(t, n) && SameSlots(t)
    ensures n in t.tools.calls && n in t.tools.itemIds ==> Closing(C.CloseTool(t, n), n + 1) && C.CloseTool(t, n).tools == t.tools
    ensures !(n in t.tools.calls && n in t.tools.itemIds) ==> Closing(t, n + 1)
  {
    hide Unfinished, Injective, Tidy, C.CloseTool;
    var ids := t.tools.itemIds;
    UnreachedNext(ids, n);
    assert n in t.tools.calls <==> n in ids;
    if n in ids {
      CloseToolReads(t, n);
      ValuesRemove(Unreached(ids, n), n);
    } else {
      assert Unreached(ids, n + 1) == Unreached(ids, n);
    }
  }

  lemma {:induction false} CloseToolsReads(s: C.State, n: nat)
    requires Closing(s, 0) && SameSlots(s)
    ensures Closing(C.CloseTools(s, n), n) && C.CloseTools(s, n).tools == s.tools
  {
    hide Closing, C.CloseTool;
    if n > 0 {
      CloseToolsReads(s, n - 1);
      CloseNext(C.CloseTools(s, n - 1), n - 1);
    }
  }

  lemma FallbackKept(s: C.State)
    requires Kept(s) && !s.reasoning.open
    ensures Kept(C.Fallback(s)) && C.Fallback(s).tools == s.tools && !C.Fallback(s).reasoning.open
  {
    if C.NeedsFallback(s) { AddTextKept(s, s.reasoning.text); }
    hide Kept, C.NeedsFallback;
  }

  /** The finalized stream: numbered by position, one terminal event, and the items never
      reported done are exactly those of the slots from n on, for n slots in use. */
  lemma FinalizeReads(s: C.State)
    requires Kept(s) && SameSlots(s) && s.created && !s.completed
    ensures var out := C.Finalize(s).out;
            && Numbered(out) && Terminals(out) == 1 && out != [] && out[|out| - 1].body.Terminal?
            && Unfinished(out) == Unreached(s.tools.itemIds, |s.tools.calls|).Values
  {
    var a := C.CloseReasoning(s);
    CloseReasoningKept(s);
    FallbackKept(a);
    var b := C.Fallback(a);
    CloseMessageReads(b);
    var t := C.CloseMessage(b);
    assert a.tools == s.tools;
    assert Unreached(t.tools.itemIds, 0) == t.tools.itemIds;
    CloseToolsReads(t, |t.tools.calls|);
    var u := C.CloseTools(t, |t.tools.calls|);
    EmitReads(u.(completed := true), Terminal(Some(C.FinalStatus(u.finish)), C.Output(u.reasoning, u.message, u.tools, u.counters.serial)));
    hide Unfinished, Terminals, Numbered, Injective, Ledger, C.CloseReasoning, C.Fallback, C.CloseMessage, C.CloseTools, C.Output, Unreached;
  }

  lemma NoValues<K, V>(m: map<K, V>)
    ensures m.Values == {} <==> forall k :: k !in m
  {
    forall k | k in m ensures m.Values != {} {
      assert m[k] in m.Values;
    }
  }

  lemma StreamKept(chunks: seq<C.Chunk>)
    requires chunks != []
    ensures var s, h := C.FeedChunks(C.INITIAL, chunks), C.AllFragments(chunks);
            Kept(s) && SameSlots(s) && Chain.ChatTracks(h, s)
  {
    var h := C.AllFragments(chunks);
    AllFragmentsSolid(chunks);
    Chain.ChunksAreFragments(chunks);
    Chain.TrackAll(A.Codec(_ => true, t => t), h);
    StartKept();
    FeedKept(C.EnsureCreated(C.INITIAL), h);
    hide Kept, SameSlots, Chain.ChatTracks, Chain.ViewTracks, C.FeedAll, C.FeedChunks, C.AllFragments, C.EnsureCreated;
  }

  /** Slots 0, ..., n - 1 and no others. */
  predicate Contiguous(h: seq<C.Fragment>) {
    forall i :: 0 <= i < |Slots(h)| ==> 0 <= Slots(h)[i] < |Slots(h)|
  }

  lemma UnreachedExactly(h: seq<C.Fragment>, tools: C.ToolTable, next: nat)
    requires Chain.TableTracks(h, tools, next)
    ensures Unreached(tools.itemIds, |tools.calls|).Values == {} <==> Contiguous(h)
  {
    hide Slots, Chain.CallsTrack;
    Chain.TableSize(h, tools, next);
    var slots, left := Slots(h), Unreached(tools.itemIds, |tools.calls|);
    NoValues(left);
    forall k: int ensures k in left <==> k in slots && !(0 <= k < |slots|) {
      assert k in tools.itemIds <==> k in tools.outIndex;
    }
    if forall k :: k !in left {
      forall i | 0 <= i < |slots| ensures 0 <= slots[i] < |slots| {
        var k := slots[i];
        assert k in slots && k !in left;
      }
    }
    hide Unreached;
  }

  /** The stream of a cleanly ended chat answer. All its items are reported done exactly when
      the upstream numbered its tool calls 0, ..., n - 1; an item on any other slot stays
      unfinished for ever. */
  lemma FinishedExactly(chunks: seq<C.Chunk>)
    requires chunks != []
    ensures var out := C.Finalize(P.Named(C.FeedChunks(C.INITIAL, chunks))).out;
            && Numbered(out) && Terminals(out) == 1 && out[|out| - 1].body.Terminal?
            && (Unfinished(out) == {} <==> Contiguous(C.AllFragments(chunks)))
  {
    var s, h := C.FeedChunks(C.INITIAL, chunks), C.AllFragments(chunks);
    StreamKept(chunks);
    FinishKept(s, "stop");
    FinalizeReads(P.Named(s));
    UnreachedExactly(h, s.tools, s.counters.nextIndex);
    hide Kept, Chain.TableTracks, Unreached, C.Finalize, C.FeedChunks, C.AllFragments, Contiguous, Numbered, Unfinished, Terminals;
  }

  /** One call on slot 1: its item is never reported done. */
  lemma SlotOneStaysOpen()
    ensures var chunks := [C.Chunk([C.Choice("", "", [C.ToolFragment(Some(1), "x", "f", "{}")], "")])];
            Unfinished(C.Finalize(P.Named(C.FeedChunks(C.INITIAL, chunks))).out) != {}
  {
    var t := C.ToolFragment(Some(1), "x", "f", "{}");
    var c := C.Choice("", "", [t], "");
    var chunks := [C.Chunk([c])];
    var h := C.AllFragments(chunks);
    hide C.Finalize, C.FeedChunks, Unfinished;
    assert h == [C.Tool(t)] by {
      assert [] + chunks == chunks;
      C.OneMore([], c);
      C.OneTool(t);
    }
    assert h[..0] == [] && Slots(h) == [1];
    assert !Contiguous(h) by { assert Slots(h)[0] == 1; }
    hide C.AllFragments, Slots, Contiguous;
    FinishedExactly(chunks);
  }

  // ---- the pump ------------------------------------------------------------------------------

  const INTERRUPTED := Event(0, Terminal(Some(Failed), []))

  ghost function Delivered(decode: P.Decoder, lines: seq<string>, broken: bool): seq<Event> {
    var s := C.FeedChunks(C.INITIAL, P.Accepted(decode, lines));
    if P.Clean(decode, lines, broken) then C.Finalize(P.Named(s)).out else s.out + [INTERRUPTED]
  }

  /** A stream that is refused at some line, or whose connection breaks at the end. */
  lemma CutShort(decode: P.Decoder, lines: seq<string>, broken: bool, n: nat)
    requires n <= |lines| && (P.Saw(decode, lines[..n], P.Refused) || (n == |lines| && broken))
    ensures Delivered(decode, lines, broken) == C.FeedChunks(C.INITIAL, P.Accepted(decode, lines[..n])).out + [INTERRUPTED]
  {
    hide P.Saw, P.Accepted, C.FeedChunks, C.Finalize;
    assert n == |lines| ==> lines[..n] == lines;
    assert lines[..n] + lines[n..] == lines;
    if P.Saw(decode, lines[..n], P.Refused) { P.NothingAfterRefusal(decode, lines[..n], lines[n..]); }
  }

  /** Serves the lines of a chat upstream to a Responses client, and then writes [DONE]. */
  method PumpChatToResponses(decode: P.Decoder, lines: seq<string>, broken: bool) returns (written: seq<Event>)
    ensures written == Delivered(decode, lines, broken)
  {
    var chat := new ChatToResponses.StreamState();
    var sawChunk, sawDone := false, false;
    written := [];
    assert lines[..0] == [];
    assert C.FeedChunks(C.INITIAL, P.Accepted(decode, lines[..0])) == C.INITIAL;
    hide C.FeedChunk, C.Finalize, C.FeedChunks, P.Accepted, P.Saw, P.Classify, C.AllFragments, Delivered, P.SoFar;
    assert P.SoFar(decode, lines[..0], false, false) by { P.NoLines(decode); }
    for n := 0 to |lines|
      invariant fresh(chat) && P.SoFar(decode, lines[..n], sawChunk, sawDone)
      invariant chat.Abs(written) == C.FeedChunks(C.INITIAL, P.Accepted(decode, lines[..n]))
    {
      P.LineRead(decode, lines, n, sawChunk, sawDone);
      var what := P.Inspect(decode, lines[n]);
      match what
      case Sentinel => sawDone := true;
      case Other =>
      case Refused =>
        CutShort(decode, lines, broken, n + 1);
        return written + [INTERRUPTED];
      case Taken(chunk) =>
        sawChunk := true;
        P.FeedChunksOne(P.Accepted(decode, lines[..n]), chunk);
        written := chat.ConvertChunk(written, chunk);
    }
    assert lines[..|lines|] == lines;
    if broken {
      CutShort(decode, lines, broken, |lines|);
      return written + [INTERRUPTED];
    }
    written := Conclude(chat, written, sawChunk, sawDone, decode, lines);
  }

  /** The end of an unbroken connection, with what was seen of it. */
  method Conclude(chat: ChatToResponses.StreamState, before: seq<Event>, sawChunk: bool, sawDone: bool,
                  ghost decode: P.Decoder, ghost lines: seq<string>)
    returns (written: seq<Event>)
    requires chat.Abs(before) == C.FeedChunks(C.INITIAL, P.Accepted(decode, lines)) && P.SoFar(decode, lines, sawChunk, sawDone)
    modifies chat
    ensures written == Delivered(decode, lines, false)
  {
    hide P.Saw, P.Accepted, C.Finalize, C.FeedChunks, C.AllFragments, FinishReason, Chain.TableTracks, Kept, SameSlots;
    ghost var chunks := P.Accepted(decode, lines);
    if chunks != [] { StreamKept(chunks); }
    if !sawChunk || (chat.finishReason == "" && !sawDone) { return before + [INTERRUPTED]; }
    if chat.finishReason == "" {
      chat.finishReason := "stop";
    }
    written := chat.Finalize(before);
  }

  predicate Success(e: Event) {
    e.body.Terminal? && e.body.status != Some(Failed)
  }

  /** A Responses client sees exactly one terminal event, as the last one; it reports a failure
      exactly when the stream did not end cleanly. */
  lemma PumpEndsOnce(decode: P.Decoder, lines: seq<string>, broken: bool)
    ensures var out := Delivered(decode, lines, broken);
            && out != [] && Terminals(out) == 1 && out[|out| - 1].body.Terminal?
            && (Success(out[|out| - 1]) <==> P.Clean(decode, lines, broken))
  {
    var chunks := P.Accepted(decode, lines);
    var s := C.FeedChunks(C.INITIAL, chunks);
    PartialTidy(chunks);
    assert (s.out + [INTERRUPTED])[..|s.out|] == s.out;
    hide C.FeedChunks, C.Finalize, P.Accepted, Kept, SameSlots;
    if P.Clean(decode, lines, broken) {
      StreamKept(chunks);
      FinishKept(s, "stop");
      FinalizeReads(P.Named(s));
      FinalizeStatus(P.Named(s));
    }
    hide P.Clean;
  }

  lemma PartialTidy(chunks: seq<C.Chunk>)
    ensures Terminals(C.FeedChunks(C.INITIAL, chunks).out) == 0
  {
    if chunks != [] { StreamKept(chunks); }
    hide Ledger, Numbered, SameSlots, Chain.ChatTracks;
  }

  lemma FinalizeStatus(s: C.State)
    requires !s.completed
    ensures var out := C.Finalize(s).out; out != [] && out[|out| - 1].body.status == Some(C.FinalStatus(C.Finalize(s).finish))
  {
    hide C.CloseReasoning, C.Fallback, C.CloseMessage, C.CloseTools, C.Output;
  }
}
