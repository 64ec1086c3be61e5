/** What one Anthropic event does to the Responses stream, on values. */
module AnthropicToResponsesSpec {
  import opened Text
  import opened ResponsesEvents
  import A = AnthropicEvents

  /** An upstream event. A block or delta of a kind the translator does not look at reads as
      absent; block positions are never looked at. */
  datatype Input =
    | MessageStart
    | BlockStart(block: Option<A.Block>)
    | BlockDelta(delta: Option<A.Delta>)
    | BlockStop
    | MessageDelta
    | MessageStop
    | OtherInput

  datatype Counters = Counters(seqNo: nat, serial: nat, index: nat)

  datatype Buffers = Buffers(text: string, reasoning: string, args: string)

  /** The open item; its kind is `Absent` when there is none. */
  datatype Current = Current(kind: ItemKind, id: Id, callId: Id, name: string)

  datatype State = State(counters: Counters, created: bool, completed: bool, skipping: bool,
                         current: Current, buffers: Buffers, out: seq<Event>)

  const NOTHING := Current(Absent, NoId, NoId, "")

  const INITIAL := State(Counters(0, 0, 0), false, false, false, NOTHING, Buffers("", "", ""), [])

  function Emit(s: State, body: Body): State {
    s.(counters := s.counters.(seqNo := s.counters.seqNo + 1), out := s.out + [Event(s.counters.seqNo, body)])
  }

  /** The item that `c` stands for, with what has been gathered for it. */
  function ItemOf(c: Current, content: string, completed: bool): Item {
    if c.kind.FunctionCall? then CallItem(c.id, c.callId, c.name, content, completed)
    else Item(c.kind, c.id, NoId, "", "", content, completed)
  }

  function Gathered(c: Current, b: Buffers): string {
    match c.kind
    case Message => b.text
    case Reasoning => b.reasoning
    case FunctionCall => b.args
    case _ => ""
  }

  function CloseItem(s: State): State {
    if s.current.kind.Absent? then s else
    Emit(s.(current := NOTHING, buffers := Buffers("", "", ""), counters := s.counters.(index := s.counters.index + 1)),
         ItemDone(s.counters.index, ItemOf(s.current, Gathered(s.current, s.buffers), true)))
  }

  function OpenItem(s: State, kind: ItemKind, callId: Id, name: string): State {
    var t := CloseItem(s);
    var c := Current(kind, Fresh(t.counters.serial), callId, name);
    var b := t.buffers;
    var cleared := if kind.Message? then b.(text := "") else if kind.Reasoning? then b.(reasoning := "") else b.(args := "");
    Emit(t.(current := c, buffers := cleared, counters := t.counters.(serial := t.counters.serial + 1)),
         ItemAdded(t.counters.index, ItemOf(c, "", false)))
  }

  function StartBlock(s: State, block: A.Block): State {
    match block
    case ThinkingBlock =>
      var t := OpenItem(s, Reasoning, NoId, "");
      Emit(t, SummaryPartAdded(t.counters.index, t.current.id))
    case TextBlock =>
      if s.current.kind.Message? then s else
      var t := OpenItem(s, Message, NoId, "");
      Emit(t, PartAdded(t.counters.index, t.current.id))
    case ToolUseBlock(id, name) => OpenItem(s, FunctionCall, id, name)
    case _ => s.(skipping := true)
  }

  function AddDelta(s: State, delta: A.Delta): State {
    if s.skipping then s else
    var i, id := s.counters.index, s.current.id;
    match delta
    case TextPiece(d) =>
      if d == "" then s else Emit(s.(buffers := s.buffers.(text := s.buffers.text + d)), TextDelta(i, id, d))
    case ThinkingPiece(d) =>
      if d == "" then s else Emit(s.(buffers := s.buffers.(reasoning := s.buffers.reasoning + d)), ReasoningDelta(i, id, d))
    case JsonPiece(d) =>
      if d == "" then s else
      Emit(s.(buffers := s.buffers.(args := s.buffers.args + d)), ArgsDelta(i, id, d, s.current.callId, s.current.name))
  }

  function StopBlock(s: State): State {
    if s.skipping then s.(skipping := false) else
    var i, c := s.counters.index, s.current;
    match c.kind
    case Reasoning =>
      CloseItem(Emit(Emit(s, SummaryTextDone(i, c.id, s.buffers.reasoning)), SummaryPartDone(i, c.id, s.buffers.reasoning)))
    case FunctionCall => CloseItem(Emit(s, ArgsDone(i, c.id, c.callId, c.name, s.buffers.args)))
    case Message => Emit(Emit(s, TextDone(i, c.id, s.buffers.text)), PartDone(i, c.id, s.buffers.text))
    case _ => s
  }

  function Stop(s: State): State {
    if s.completed then s else Emit(CloseItem(s), Terminal(Some(Completed), [])).(completed := true)
  }

  function Step(s: State, e: Input): State {
    match e
    case MessageStart => if s.created then s else Emit(s.(created := true), Created)
    case BlockStart(Some(block)) => StartBlock(s, block)
    case BlockDelta(Some(delta)) => AddDelta(s, delta)
    case BlockStop => StopBlock(s)
    case MessageStop => Stop(s)
    case _ => s
  }

  function Run(s: State, events: seq<Input>): State {
    if events == [] then s else Step(Run(s, events[..|events| - 1]), events[|events| - 1])
  }

  /** Termination events of a stream that ended without a message stop. */
  function Finalize(s: State): State {
    if !s.created then s else Stop(s)
  }

  lemma {:induction false} RunAppend(s: State, a: seq<Input>, b: seq<Input>)
    ensures Run(s, a + b) == Run(Run(s, a), b)
    decreases |b|
  {
    if b == [] {
      assert a + b == a;
    } else {
      assert (a + b)[..|a + b| - 1] == a + b[..|b| - 1];
      RunAppend(s, a, b[..|b| - 1]);
    }
  }

  // ---- dropped blocks ------------------------------------------------------------------

  /** The start of a block that is dropped. */
  predicate Dropped(e: Input) {
    e.BlockStart? && e.block.Some? && (e.block.value.ServerToolBlock? || e.block.value.SearchResultBlock?)
  }

  /** A whole server-side search block: its start, any deltas, its stop. */
  predicate SearchBlock(block: seq<Input>) {
    && |block| >= 2 && Dropped(block[0]) && block[|block| - 1].BlockStop?
    && forall i :: 0 < i < |block| - 1 ==> block[i].BlockDelta?
  }

  predicate OpensDropped(events: seq<Input>, i: nat) {
    i < |events| && Dropped(events[i]) && forall j :: i < j < |events| ==> !events[j].BlockStop?
  }

  /** The events end inside a dropped block: none has stopped since its start. */
  ghost predicate InsideDropped(events: seq<Input>) {
    exists i: nat :: OpensDropped(events, i)
  }

  lemma InsideOne(events: seq<Input>, e: Input)
    ensures InsideDropped(events + [e]) <==> Dropped(e) || (InsideDropped(events) && !e.BlockStop?)
  {
    var now := events + [e];
    if Dropped(e) { assert OpensDropped(now, |events|); }
    if !e.BlockStop? {
      if i: nat :| OpensDropped(events, i) { assert OpensDropped(now, i); }
    }
    if i: nat :| OpensDropped(now, i) {
      if i < |events| {
        assert now[|events|] == e;
        assert forall j :: i < j < |events| ==> now[j] == events[j];
        assert OpensDropped(events, i);
      }
    }
  }

  lemma StepSkips(s: State, e: Input)
    ensures Step(s, e).skipping <==> Dropped(e) || (s.skipping && !e.BlockStop?)
  {
  }

  lemma {:induction false} SkippingMeans(events: seq<Input>)
    ensures Run(INITIAL, events).skipping <==> InsideDropped(events)
  {
    if events != [] {
      var before, e := events[..|events| - 1], events[|events| - 1];
      SkippingMeans(before);
      InsideOne(before, e);
      StepSkips(Run(INITIAL, before), e);
      SplitLast([], events);
      hide Step, InsideDropped;
    }
  }

  lemma {:induction false} SearchBlockRun(s: State, block: seq<Input>, n: nat)
    requires SearchBlock(block) && 0 < n <= |block|
    ensures Run(s, block[..n]) == s.(skipping := n < |block|)
  {
    assert block[..n][..n - 1] == block[..n - 1];
    if n == 1 {
      assert Run(s, block[..0]) == s;
    } else {
      SearchBlockRun(s, block, n - 1);
    }
  }

  const WORD := BlockDelta(Some(A.TextPiece("x")))

  /** A dropped block leaves no trace, whatever follows, exactly when it does not stand inside
      another dropped block. There, its stop ends the outer one too early, and already the next
      piece of text shows. */
  lemma SearchBlockLeavesNoTrace(before: seq<Input>, block: seq<Input>)
    requires SearchBlock(block)
    ensures !InsideDropped(before) ==> forall after :: Run(INITIAL, before + block + after) == Run(INITIAL, before + after)
    ensures InsideDropped(before) ==> Run(INITIAL, before + block + [WORD]).out != Run(INITIAL, before + [WORD]).out
  {
    var s := Run(INITIAL, before);
    SkippingMeans(before);
    SearchBlockRun(s, block, |block|);
    assert block[..|block|] == block;
    RunAppend(INITIAL, before, block);
    forall after ensures Run(INITIAL, before + block + after) == Run(Run(INITIAL, before + block), after)
                 ensures Run(INITIAL, before + after) == Run(s, after)
    {
      RunAppend(INITIAL, before + block, after);
      RunAppend(INITIAL, before, after);
    }
    hide InsideDropped, Run;
    WordShows(s);
  }

  /** A search result announced before the search has stopped. */
  lemma NestedSearchShows()
    ensures var start, stop := BlockStart(Some(A.ServerToolBlock(NoId))), BlockStop;
            Run(INITIAL, [start] + [start, stop] + [WORD]).out != Run(INITIAL, [start] + [WORD]).out
  {
    var start := BlockStart(Some(A.ServerToolBlock(NoId)));
    assert OpensDropped([start], 0);
    SearchBlockLeavesNoTrace([start], [start, BlockStop]);
  }

  /** One piece of text on its own. */
  lemma WordShows(s: State)
    ensures Run(s, [WORD]) == AddDelta(s, A.TextPiece("x"))
    ensures s.skipping ==> |Run(s.(skipping := false), [WORD]).out| == |Run(s, [WORD]).out| + 1
  {
    assert [WORD][..0] == [];
    assert Run(s, []) == s && Run(s.(skipping := false), []) == s.(skipping := false);
  }

  // ---- what has come ---------------------------------------------------------------------

  ghost predicate Stopped(inputs: seq<Input>) {
    exists i :: 0 <= i < |inputs| && inputs[i].MessageStop?
  }

  ghost predicate Started(inputs: seq<Input>) {
    exists i :: 0 <= i < |inputs| && inputs[i].MessageStart?
  }

  lemma Flags(s: State, e: Input)
    ensures Step(s, e).completed <==> s.completed || e.MessageStop?
    ensures Step(s, e).created <==> s.created || e.MessageStart?
  {
  }

  lemma SeenOne(inputs: seq<Input>, e: Input)
    ensures Stopped(inputs + [e]) <==> Stopped(inputs) || e.MessageStop?
    ensures Started(inputs + [e]) <==> Started(inputs) || e.MessageStart?
  {
    var now := inputs + [e];
    assert now[|inputs|] == e && forall i :: 0 <= i < |inputs| ==> now[i] == inputs[i];
    if i :| 0 <= i < |inputs| && inputs[i].MessageStop? { assert now[i].MessageStop?; }
    if i :| 0 <= i < |inputs| && inputs[i].MessageStart? { assert now[i].MessageStart?; }
  }

  lemma {:induction false} StoppedMeans(inputs: seq<Input>)
    ensures Run(INITIAL, inputs).completed <==> Stopped(inputs)
    ensures Run(INITIAL, inputs).created <==> Started(inputs)
  {
    if inputs != [] {
      hide Step, Stopped, Started;
      var before, e := inputs[..|inputs| - 1], inputs[|inputs| - 1];
      StoppedMeans(before);
      Flags(Run(INITIAL, before), e);
      SeenOne(before, e);
      assert before + [e] == inputs;
    } else {
      assert !Stopped(inputs) && !Started(inputs);
    }
  }

  // ---- reading the Responses stream back --------------------------------------------------

  /** The deltas of one kind under one item identifier, joined. */
  function Joined(out: seq<Event>, kind: ItemKind, id: Id): string {
    if out == [] then "" else
    Joined(out[..|out| - 1], kind, id) +
    match out[|out| - 1].body
    case TextDelta(_, x, d) => if kind.Message? && x == id then d else ""
    case ReasoningDelta(_, x, d) => if kind.Reasoning? && x == id then d else ""
    case ArgsDelta(_, x, d, _, _) => if kind.FunctionCall? && x == id then d else ""
    case _ => ""
  }

  /** Where a reader stands: items completed, the item that is open as it was announced,
      and which of the two framing events have come. */
  datatype Frame = Frame(items: nat, open: Option<Item>, created: bool, ended: bool) | Misplaced

  /** An event that belongs to the open item, of the given kind. */
  predicate Within(f: Frame, index: int, id: Id, kind: ItemKind) {
    f.Frame? && index == f.items && f.open.Some? && f.open.value.id == id && f.open.value.kind == kind
  }

  /** A delta carries the open item's address, or no item identifier while none is open. */
  predicate Addressed(f: Frame, index: int, id: Id) {
    f.Frame? && index == f.items && id == if f.open.Some? then f.open.value.id else NoId
  }

  /** An item as it must be reported once the events of `before` are out. */
  function Final(item: Item, before: seq<Event>): Item {
    var content := Joined(before, item.kind, item.id);
    if item.kind.FunctionCall? then item.(args := content, completed := true)
    else item.(text := content, completed := true)
  }

  predicate Announces(item: Item, before: seq<Event>) {
    && item.kind in {Reasoning, Message, FunctionCall} && item.id.Fresh? && item.text == item.args == "" && !item.completed
    && forall j :: 0 <= j < |before| ==> before[j].body.ItemAdded? ==> before[j].body.item.id != item.id
  }

  function Accept(f: Frame, before: seq<Event>, body: Body): Frame {
    match body
    case Created => if f.Frame? && !f.created then f.(created := true) else Misplaced
    case ItemAdded(i, item) =>
      if f.Frame? && f.open.None? && i == f.items && Announces(item, before) then f.(open := Some(item)) else Misplaced
    case SummaryPartAdded(i, id) => if Within(f, i, id, Reasoning) then f else Misplaced
    case PartAdded(i, id) => if Within(f, i, id, Message) then f else Misplaced
    case TextDelta(i, id, _) => if Addressed(f, i, id) then f else Misplaced
    case ReasoningDelta(i, id, _) => if Addressed(f, i, id) then f else Misplaced
    case ArgsDelta(i, id, _, callId, name) =>
      if Addressed(f, i, id) && (f.open.Some? ==> callId == f.open.value.callId && name == f.open.value.name) then f else Misplaced
    case SummaryTextDone(i, id, text) => if Within(f, i, id, Reasoning) && text == Joined(before, Reasoning, id) then f else Misplaced
    case SummaryPartDone(i, id, text) => if Within(f, i, id, Reasoning) && text == Joined(before, Reasoning, id) then f else Misplaced
    case TextDone(i, id, text) => if Within(f, i, id, Message) && text == Joined(before, Message, id) then f else Misplaced
    case PartDone(i, id, text) => if Within(f, i, id, Message) && text == Joined(before, Message, id) then f else Misplaced
    case ArgsDone(i, id, callId, name, args) =>
      if Within(f, i, id, FunctionCall) && callId == f.open.value.callId && name == f.open.value.name &&
         args == Joined(before, FunctionCall, id)
      then f else Misplaced
    case ItemDone(i, item) =>
      if f.Frame? && f.open.Some? && i == f.items && item == Final(f.open.value, before)
      then f.(items := i + 1, open := None) else Misplaced
    case Terminal(status, _) =>
      if f.Frame? && f.open.None? && !f.ended && status == Some(Completed) then f.(ended := true) else Misplaced
    case OtherEvent => Misplaced
  }

  function Read(out: seq<Event>): Frame {
    if out == [] then Frame(0, None, false, false) else
    Accept(Read(out[..|out| - 1]), out[..|out| - 1], out[|out| - 1].body)
  }

  /** Sequence numbers are positions. */
  predicate Numbered(out: seq<Event>) {
    forall i :: 0 <= i < |out| ==> out[i].seqNo == i
  }

  /** No identifier from `serial` on has been used. */
  ghost predicate Unused(out: seq<Event>, serial: nat) {
    && (forall i :: 0 <= i < |out| ==> out[i].body.ItemAdded? && out[i].body.item.id.Fresh? ==> out[i].body.item.id.serial < serial)
    && (forall kind, n :: n >= serial ==> Joined(out, kind, Fresh(n)) == "")
  }

  function OpenOf(c: Current): Option<Item> {
    if c.kind.Absent? then None else Some(ItemOf(c, "", false))
  }

  /** The translator state is what a reader of its output knows. */
  ghost predicate Faithful(s: State) {
    && Read(s.out) == Frame(s.counters.index, OpenOf(s.current), s.created, s.completed)
    && Numbered(s.out) && |s.out| == s.counters.seqNo && Unused(s.out, s.counters.serial)
    && (s.current.kind in {Absent, Message, Reasoning, FunctionCall})
    && if s.current.kind.Absent? then s.current == NOTHING
       else Gathered(s.current, s.buffers) == Joined(s.out, s.current.kind, s.current.id) &&
            s.current.id.Fresh? && s.current.id.serial < s.counters.serial &&
            (!s.current.kind.FunctionCall? ==> s.current.callId == NoId && s.current.name == "")
  }

  lemma ReadOne(out: seq<Event>, e: Event)
    ensures Read(out + [e]) == Accept(Read(out), out, e.body)
    ensures forall kind, id :: Joined(out + [e], kind, id) == Joined(out, kind, id) +
              match e.body
              case TextDelta(_, x, d) => if kind.Message? && x == id then d else ""
              case ReasoningDelta(_, x, d) => if kind.Reasoning? && x == id then d else ""
              case ArgsDelta(_, x, d, _, _) => if kind.FunctionCall? && x == id then d else ""
              case _ => ""
  {
    assert (out + [e])[..|out|] == out;
  }

  lemma CloseFaithful(s: State)
    requires Faithful(s)
    ensures Faithful(CloseItem(s)) && CloseItem(s).current == NOTHING && CloseItem(s).completed == s.completed
  {
    hide Read, Joined;
    if !s.current.kind.Absent? {
      ReadOne(s.out, Event(s.counters.seqNo, ItemDone(s.counters.index, ItemOf(s.current, Gathered(s.current, s.buffers), true))));
    }
  }

  lemma OpenFaithful(s: State, kind: ItemKind, callId: Id, name: string)
    requires Faithful(s) && kind in {Message, Reasoning, FunctionCall}
    requires !kind.FunctionCall? ==> callId == NoId && name == ""
    ensures Faithful(OpenItem(s, kind, callId, name))
  {
    hide Read, Joined;
    CloseFaithful(s);
    var t := CloseItem(s);
    var c := Current(kind, Fresh(t.counters.serial), callId, name);
    ReadOne(t.out, Event(t.counters.seqNo, ItemAdded(t.counters.index, ItemOf(c, "", false))));
    hide CloseItem;
  }

  /** Emitting an event that the reader accepts without moving. */
  lemma EmitFaithful(s: State, body: Body)
    requires Faithful(s) && Accept(Read(s.out), s.out, body) == Read(s.out)
    requires !body.ItemAdded? && !body.TextDelta? && !body.ReasoningDelta? && !body.ArgsDelta?
    ensures Faithful(Emit(s, body))
    ensures forall kind, id :: Joined(Emit(s, body).out, kind, id) == Joined(s.out, kind, id)
  {
    hide Read, Joined, Accept;
    ReadOne(s.out, Event(s.counters.seqNo, body));
  }

  lemma StartFaithful(s: State, block: A.Block)
    requires Faithful(s)
    ensures Faithful(StartBlock(s, block))
  {
    hide Read, Joined, Numbered, Unused;
    match block
    case ThinkingBlock =>
      OpenFaithful(s, Reasoning, NoId, "");
      var t := OpenItem(s, Reasoning, NoId, "");
      EmitFaithful(t, SummaryPartAdded(t.counters.index, t.current.id));
    case TextBlock =>
      OpenFaithful(s, Message, NoId, "");
      var t := OpenItem(s, Message, NoId, "");
      EmitFaithful(t, PartAdded(t.counters.index, t.current.id));
    case ToolUseBlock(id, name) => OpenFaithful(s, FunctionCall, id, name);
    case _ =>
  }

  lemma DeltaFaithful(s: State, delta: A.Delta)
    requires Faithful(s)
    ensures Faithful(AddDelta(s, delta))
  {
    hide Read, Joined;
    var i, id := s.counters.index, s.current.id;
    var body := match delta
      case TextPiece(d) => TextDelta(i, id, d)
      case ThinkingPiece(d) => ReasoningDelta(i, id, d)
      case JsonPiece(d) => ArgsDelta(i, id, d, s.current.callId, s.current.name);
    ReadOne(s.out, Event(s.counters.seqNo, body));
  }

  lemma StopBlockFaithful(s: State)
    requires Faithful(s)
    ensures Faithful(StopBlock(s))
  {
    hide Read, Joined, Numbered, Unused, CloseItem;
    var i, c := s.counters.index, s.current;
    match c.kind
    case Reasoning =>
      var a, b := SummaryTextDone(i, c.id, s.buffers.reasoning), SummaryPartDone(i, c.id, s.buffers.reasoning);
      EmitFaithful(s, a);
      EmitFaithful(Emit(s, a), b);
      CloseFaithful(Emit(Emit(s, a), b));
    case FunctionCall =>
      var a := ArgsDone(i, c.id, c.callId, c.name, s.buffers.args);
      EmitFaithful(s, a);
      CloseFaithful(Emit(s, a));
    case Message =>
      var a, b := TextDone(i, c.id, s.buffers.text), PartDone(i, c.id, s.buffers.text);
      EmitFaithful(s, a);
      EmitFaithful(Emit(s, a), b);
    case _ =>
  }

  lemma StopFaithful(s: State)
    requires Faithful(s)
    ensures Faithful(Stop(s))
  {
    hide Read, Joined, CloseItem;
    CloseFaithful(s);
    var t := CloseItem(s);
    ReadOne(t.out, Event(t.counters.seqNo, Terminal(Some(Completed), [])));
  }

  lemma StepFaithful(s: State, e: Input)
    requires Faithful(s)
    ensures Faithful(Step(s, e))
  {
    hide Read, Joined, StartBlock, AddDelta, StopBlock, Stop;
    match e
    case MessageStart => ReadOne(s.out, Event(s.counters.seqNo, Created));
    case BlockStart(Some(block)) => StartFaithful(s, block);
    case BlockDelta(Some(delta)) => DeltaFaithful(s, delta);
    case BlockStop => StopBlockFaithful(s);
    case MessageStop => StopFaithful(s);
    case _ =>
  }

  /** Whatever the upstream sends, the whole output is well placed: events are numbered
      0, 1, 2, ...; items open one at a time at indices 0, 1, 2, ...; each is reported done,
      once, under its own index and identifier and with exactly the deltas sent under that
      identifier, before the next opens and before the single terminal event. */
  lemma {:induction false} EveryRunIsFaithful(events: seq<Input>)
    ensures Faithful(Run(INITIAL, events))
    ensures Faithful(Finalize(Run(INITIAL, events)))
  {
    if events == [] {
      assert Faithful(INITIAL);
    } else {
      EveryRunIsFaithful(events[..|events| - 1]);
      StepFaithful(Run(INITIAL, events[..|events| - 1]), events[|events| - 1]);
    }
    StopFaithful(Run(INITIAL, events));
  }

  datatype Mark = Mark(index: int, id: Id)

  /** The items announced, and the items reported done, in order. */
  function Announced(out: seq<Event>): seq<Mark> {
    if out == [] then [] else
    Announced(out[..|out| - 1]) +
    match out[|out| - 1].body
    case ItemAdded(i, item) => [Mark(i, item.id)]
    case _ => []
  }

  function Reported(out: seq<Event>): seq<Mark> {
    if out == [] then [] else
    Reported(out[..|out| - 1]) +
    match out[|out| - 1].body
    case ItemDone(i, item) => [Mark(i, item.id)]
    case _ => []
  }

  function Terminals(out: seq<Event>): nat {
    if out == [] then 0 else
    Terminals(out[..|out| - 1]) + if out[|out| - 1].body.Terminal? then 1 else 0
  }

  predicate Success(e: Event) {
    e.body.Terminal? && e.body.status == Some(Completed)
  }

  /** What a well-placed stream amounts to: the i-th item announced is the i-th reported,
      at index i, and only the last may be missing. */
  lemma {:induction false} WellPlacedPairs(out: seq<Event>)
    requires Read(out).Frame?
    ensures var f := Read(out);
            && Announced(out) == Reported(out) + (if f.open.Some? then [Mark(f.items, f.open.value.id)] else [])
            && |Reported(out)| == f.items
            && forall i :: 0 <= i < f.items ==> Reported(out)[i].index == i
  {
    if out != [] {
      WellPlacedPairs(out[..|out| - 1]);
      hide Joined, Announces;
    }
  }

  /** Its terminal events: one that reports success, or none. */
  lemma {:induction false} WellPlacedTerminals(out: seq<Event>)
    requires Read(out).Frame?
    ensures Terminals(out) == if Read(out).ended then 1 else 0
    ensures Read(out).ended <==> exists i :: 0 <= i < |out| && Success(out[i])
  {
    if out != [] {
      var before := out[..|out| - 1];
      WellPlacedTerminals(before);
      hide Joined, Announces, Within, Addressed, Final;
      if i :| 0 <= i < |before| && Success(before[i]) { assert Success(out[i]); }
      if i :| 0 <= i < |out| && Success(out[i]) { assert i < |before| ==> Success(before[i]); }
    }
  }
}

/** The translator object of the source, and the pump that drives it. */
module AnthropicToResponses {
  import opened Text
  import opened ResponsesEvents
  import A = AnthropicEvents
  import Sse
  import S = AnthropicToResponsesSpec

  class StreamState {
    var counters: S.Counters
    var createdSent: bool
    var completedSent: bool
    var skippingBlock: bool
    var current: S.Current
    var buffers: S.Buffers

    /** The value of the object once `events` have been emitted. */
    ghost function Abs(events: seq<Event>): S.State
      reads this
    {
      S.State(counters, createdSent, completedSent, skippingBlock, current, buffers, events)
    }

    constructor ()
      ensures Abs([]) == S.INITIAL
    {
      counters, createdSent, completedSent, skippingBlock := S.Counters(0, 0, 0), false, false, false;
      current, buffers := S.NOTHING, S.Buffers("", "", "");
    }

    method MakeEvent(before: seq<Event>, body: Body) returns (events: seq<Event>)
      modifies this`counters
      ensures Abs(events) == S.Emit(old(Abs(before)), body)
    {
      events := before + [Event(counters.seqNo, body)];
      counters := counters.(seqNo := counters.seqNo + 1);
    }

    method CloseCurrentItem(before: seq<Event>) returns (events: seq<Event>)
      modifies this
      ensures Abs(events) == S.CloseItem(old(Abs(before)))
    {
      events := before;
      if current.kind.Absent? { return; }
      var item := Item(current.kind, current.id, NoId, "", "", "", true);
      match current.kind {
        case Message => item := item.(text := buffers.text);
        case Reasoning => item := item.(text := buffers.reasoning);
        case FunctionCall => item := item.(callId := current.callId, name := current.name, args := buffers.args);
        case _ =>
      }
      current, buffers := S.NOTHING, S.Buffers("", "", "");
      counters := counters.(index := counters.index + 1);
      events := MakeEvent(events, ItemDone(counters.index - 1, item));
    }

    method OpenItem(before: seq<Event>, kind: ItemKind, callId: Id, name: string) returns (events: seq<Event>)
      modifies this
      ensures Abs(events) == S.OpenItem(old(Abs(before)), kind, callId, name)
    {
      events := CloseCurrentItem(before);
      current := S.Current(kind, Fresh(counters.serial), callId, name);
      counters := counters.(serial := counters.serial + 1);
      match kind {
        case Message => buffers := buffers.(text := "");
        case Reasoning => buffers := buffers.(reasoning := "");
        case _ => buffers := buffers.(args := "");
      }
      events := MakeEvent(events, ItemAdded(counters.index, S.ItemOf(current, "", false)));
    }

    method HandleBlockStart(before: seq<Event>, block: A.Block) returns (events: seq<Event>)
      modifies this
      ensures Abs(events) == S.StartBlock(old(Abs(before)), block)
    {
      events := before;
      match block
      case ThinkingBlock =>
        events := OpenItem(events, Reasoning, NoId, "");
        events := MakeEvent(events, SummaryPartAdded(counters.index, current.id));
      case TextBlock =>
        if !current.kind.Message? {
          events := OpenItem(events, Message, NoId, "");
          events := MakeEvent(events, PartAdded(counters.index, current.id));
        }
      case ToolUseBlock(id, name) =>
        events := OpenItem(events, FunctionCall, id, name);
      case _ =>
        skippingBlock := true;
    }

    method HandleBlockDelta(before: seq<Event>, delta: A.Delta) returns (events: seq<Event>)
      modifies this
      ensures Abs(events) == S.AddDelta(old(Abs(before)), delta)
    {
      events := before;
      if skippingBlock { return; }
      match delta
      case TextPiece(text) =>
        if text == "" { return; }
        buffers := buffers.(text := buffers.text + text);
        events := MakeEvent(events, TextDelta(counters.index, current.id, text));
      case ThinkingPiece(text) =>
        if text == "" { return; }
        buffers := buffers.(reasoning := buffers.reasoning + text);
        events := MakeEvent(events, ReasoningDelta(counters.index, current.id, text));
      case JsonPiece(json) =>
        if json == "" { return; }
        buffers := buffers.(args := buffers.args + json);
        events := MakeEvent(events, ArgsDelta(counters.index, current.id, json, current.callId, current.name));
    }

    method HandleBlockStop(before: seq<Event>) returns (events: seq<Event>)
      modifies this
      ensures Abs(events) == S.StopBlock(old(Abs(before)))
    {
      events := before;
      if skippingBlock {
        skippingBlock := false;
        return;
      }
      match current.kind
      case Reasoning =>
        events := MakeEvent(events, SummaryTextDone(counters.index, current.id, buffers.reasoning));
        events := MakeEvent(events, SummaryPartDone(counters.index, current.id, buffers.reasoning));
        events := CloseCurrentItem(events);
      case FunctionCall =>
        events := MakeEvent(events, ArgsDone(counters.index, current.id, current.callId, current.name, buffers.args));
        events := CloseCurrentItem(events);
      case Message =>
        events := MakeEvent(events, TextDone(counters.index, current.id, buffers.text));
        events := MakeEvent(events, PartDone(counters.index, current.id, buffers.text));
      case _ =>
    }

    method HandleMessageStop(before: seq<Event>) returns (events: seq<Event>)
      modifies this
      ensures Abs(events) == S.Stop(old(Abs(before)))
    {
      events := before;
      if completedSent { return; }
      events := CloseCurrentItem(events);
      events := MakeEvent(events, Terminal(Some(Completed), []));
      completedSent := true;
    }

    /** One upstream event, turned into the events it causes. */
    method Convert(before: seq<Event>, input: S.Input) returns (events: seq<Event>)
      modifies this
      ensures Abs(events) == S.Step(old(Abs(before)), input)
    {
      events := before;
      match input
      case MessageStart =>
        if createdSent { return; }
        createdSent := true;
        events := MakeEvent(events, Created);
      case BlockStart(Some(block)) => events := HandleBlockStart(events, block);
      case BlockDelta(Some(delta)) => events := HandleBlockDelta(events, delta);
      case BlockStop => events := HandleBlockStop(events);
      case MessageStop => events := HandleMessageStop(events);
      case _ =>
    }

    /** Termination events of a stream that ended without a message stop. */
    method Finalize(before: seq<Event>) returns (events: seq<Event>)
      modifies this
      ensures Abs(events) == S.Finalize(old(Abs(before)))
    {
      events := before;
      if !createdSent || completedSent { return; }
      events := CloseCurrentItem(events);
      events := MakeEvent(events, Terminal(Some(Completed), []));
      completedSent := true;
    }
  }

  type Decoder = string -> Option<S.Input>

  /** The upstream events of the lines; a line that cannot be decoded is passed over. */
  function Inputs(decode: Decoder, lines: seq<string>): seq<S.Input> {
    if lines == [] then [] else
    var before, data := Inputs(decode, lines[..|lines| - 1]), Sse.Data(lines[|lines| - 1]);
    if data.None? || decode(data.value).None? then before else before + [decode(data.value).value]
  }

  const INTERRUPTED := Event(0, Terminal(Some(Failed), []))

  /** Serves the lines of an Anthropic upstream to a Responses client, and then writes the
      [DONE] line. It makes no difference whether the connection broke or merely ended. */
  method PumpAnthropicToResponses(decode: Decoder, lines: seq<string>) returns (written: seq<Event>)
    ensures var s := S.Run(S.INITIAL, Inputs(decode, lines));
            written == if s.completed then s.out else s.out + [INTERRUPTED]
  {
    var state := new StreamState();
    written := [];
    assert lines[..0] == [];
    hide S.Step;
    for n := 0 to |lines|
      invariant fresh(state)
      invariant state.Abs(written) == S.Run(S.INITIAL, Inputs(decode, lines[..n]))
    {
      assert lines[..n + 1][..n] == lines[..n];
      var data := Sse.Data(lines[n]);
      if data.None? { continue; }
      var input := decode(data.value);
      if input.None? { continue; }
      written := state.Convert(written, input.value);
      assert (Inputs(decode, lines[..n]) + [input.value])[..|Inputs(decode, lines[..n])|] == Inputs(decode, lines[..n]);
    }
    assert lines[..|lines|] == lines;
    if !state.completedSent {
      written := written + [INTERRUPTED];
    }
  }

  /** A Responses client always sees exactly one terminal event, and it reports success
      exactly when the upstream finished its message. */
  lemma PumpEndsOnce(decode: Decoder, lines: seq<string>)
    ensures var s, inputs := S.Run(S.INITIAL, Inputs(decode, lines)), Inputs(decode, lines);
            var written := if s.completed then s.out else s.out + [INTERRUPTED];
            && S.Terminals(written) == 1
            && ((exists i :: 0 <= i < |written| && S.Success(written[i])) <==>
                S.Stopped(inputs))
  {
    var inputs := Inputs(decode, lines);
    var s := S.Run(S.INITIAL, inputs);
    S.EveryRunIsFaithful(inputs);
    hide S.Run, Inputs, S.Unused, S.Read;
    S.WellPlacedTerminals(s.out);
    S.StoppedMeans(inputs);
    var t := s.out + [INTERRUPTED];
    assert t[..|s.out|] == s.out;
    if i :| 0 <= i < |t| && S.Success(t[i]) { assert i < |s.out|; }
  }
}
