/** What one Responses event does to the Anthropic stream, on values. */
module ResponsesToAnthropicSpec {
  import opened Text
  import R = ResponsesEvents
  import opened AnthropicEvents

  type Id = R.Id

  /** JSON text is opaque: what is known about it is which strings are JSON objects, and
      what a `Read` call's arguments look like once an empty `pages` member is dropped. */
  datatype Codec = Codec(validObject: string -> bool, dropEmptyPages: string -> string)

  function Sanitize(codec: Codec, name: string, raw: string): string {
    if name != "Read" || raw == "" then raw else codec.dropEmptyPages(raw)
  }

  /** Undoes the legacy `fc_` prefix of a call identifier. */
  function FromCallId(id: Id): Id {
    if id.Given? && "fc_" <= id.text && ("toolu_" <= id.text[3..] || "call_" <= id.text[3..])
    then R.Given(id.text[3..]) else id
  }

  lemma FromCallIdShows(id: Id)
    ensures SameCall(id, FromCallId(id))
  {
    if id.Given? {
      var t := id.text;
      assert "fc_toolu_"[..3] == "fc_" && "fc_toolu_"[3..] == "toolu_" && "fc_call_"[3..] == "call_" && "fc_call_"[..3] == "fc_";
      assert "fc_" <= t ==> t == "fc_" + t[3..];
      assert "fc_" <= t && "toolu_" <= t[3..] <==> "fc_toolu_" <= t by {
        assert "fc_toolu_" == "fc_" + "toolu_";
        if "fc_" <= t && "toolu_" <= t[3..] { assert t[..9] == t[..3] + t[3..][..6]; }
        if "fc_toolu_" <= t { assert t[3..][..6] == t[..9][3..] && t[..3] == t[..9][..3]; }
      }
      assert "fc_" <= t && "call_" <= t[3..] <==> "fc_call_" <= t by {
        assert "fc_call_" == "fc_" + "call_";
        if "fc_" <= t && "call_" <= t[3..] { assert t[..8] == t[..3] + t[3..][..5]; }
        if "fc_call_" <= t { assert t[3..][..5] == t[..8][3..] && t[..3] == t[..8][..3]; }
      }
    }
  }

  datatype CurrentType = NoType | TextType | ThinkingType | ToolType

  datatype BlockPart = BlockPart(index: nat, open: bool, kind: CurrentType)

  datatype ToolPart = ToolPart(name: string, args: string, hadDelta: bool)

  datatype Pending = Pending(callId: Id, name: string, args: string, final: string)

  const NO_TOOL := ToolPart("", "", false)
  const NO_PENDING := Pending(R.NoId, "", "", "")

  datatype State = State(started: bool, stopped: bool, block: BlockPart, tool: ToolPart, hasTool: bool,
                         buffered: bool, pending: map<int, Pending>, blockOf: map<int, nat>, out: seq<Event>)

  function Initial(buffered: bool): State {
    State(false, false, BlockPart(0, false, NoType), NO_TOOL, false, buffered, map[], map[], [])
  }

  function Push(s: State, e: Event): State {
    s.(out := s.out + [e])
  }

  function CloseBlock(s: State): State {
    if !s.block.open then s else
    Push(s.(block := s.block.(index := s.block.index + 1, open := false), tool := NO_TOOL), BlockStop(s.block.index))
  }

  function Start(s: State): State {
    if s.started then s else Push(s.(started := true), MessageStart)
  }

  function OpenBlock(s: State, kind: CurrentType, b: Block): State {
    Push(s.(block := s.block.(open := true, kind := kind)), BlockStart(s.block.index, b))
  }

  function SetPending(s: State, index: int, p: Pending): State {
    s.(pending := s.pending[index := p])
  }

  function AddItem(s: State, index: int, item: R.Item): State {
    match item.kind
    case FunctionCall | CustomToolCall =>
      var t := CloseBlock(s).(hasTool := true);
      if t.buffered then
        var p := Lookup(t.pending, index, NO_PENDING);
        SetPending(t, index, p.(callId := item.callId, name := item.name,
                                final := if item.args != "" then item.args else p.final))
      else
        OpenBlock(t.(blockOf := t.blockOf[index := t.block.index], tool := ToolPart(item.name, "", false)),
                  ToolType, ToolUseBlock(FromCallId(item.callId), item.name))
    case Reasoning =>
      var t := CloseBlock(s);
      OpenBlock(t.(blockOf := t.blockOf[index := t.block.index]), ThinkingType, ThinkingBlock)
    case _ => s
  }

  function AddText(s: State, delta: string): State {
    if delta == "" then s else
    var t := if s.block.open && s.block.kind == TextType then s else OpenBlock(CloseBlock(s), TextType, TextBlock);
    Push(t, BlockDelta(t.block.index, TextPiece(delta)))
  }

  function AddArgs(s: State, index: int, delta: string): State {
    if delta == "" then s
    else if s.buffered then
      var p := Lookup(s.pending, index, NO_PENDING);
      SetPending(s, index, p.(args := p.args + delta))
    else if s.block.kind == ToolType && s.tool.name == "Read" then
      s.(tool := s.tool.(args := s.tool.args + delta))
    else
      var t := if s.block.kind == ToolType then s.(tool := s.tool.(hadDelta := true)) else s;
      if index in t.blockOf then Push(t, BlockDelta(t.blockOf[index], JsonPiece(delta))) else t
  }

  /** What a closing event says about a buffered call; absent fields keep what was known. */
  function Confirm(p: Pending, callId: Id, name: string, args: string): Pending {
    p.(callId := if callId.NoId? then p.callId else callId,
       name := if name != "" then name else p.name,
       final := if args != "" then args else p.final)
  }

  function FinishArgs(codec: Codec, s: State, index: int, callId: Id, name: string, args: string): State {
    if s.buffered then
      SetPending(s, index, Confirm(Lookup(s.pending, index, NO_PENDING), callId, name, args))
    else if s.block.kind != ToolType then CloseBlock(s)
    else
      var raw := if args == "" then s.tool.args else args;
      if raw == "" || s.tool.hadDelta then CloseBlock(s) else
      var json := Sanitize(codec, s.tool.name, raw);
      if json == "" then CloseBlock(s) else
      CloseBlock(Push(s, BlockDelta(s.block.index, JsonPiece(json))))
  }

  function AddReasoning(s: State, index: int, delta: string): State {
    if delta == "" || index !in s.blockOf then s else Push(s, BlockDelta(s.blockOf[index], ThinkingPiece(delta)))
  }

  function SearchDone(s: State, id: Id): State {
    var t := CloseBlock(s);
    var n := t.block.index;
    Push(Push(Push(Push(t.(block := t.block.(index := n + 2)),
                        BlockStart(n, ServerToolBlock(id))), BlockStop(n)),
              BlockStart(n + 1, SearchResultBlock(id))), BlockStop(n + 1))
  }

  function FinishItem(s: State, index: int, item: R.Item): State {
    if item.kind.Absent? then s
    else if s.buffered && (item.kind.FunctionCall? || item.kind.CustomToolCall?) then
      SetPending(s, index, Confirm(Lookup(s.pending, index, NO_PENDING), item.callId, item.name, item.args))
    else if item.kind.WebSearchCall? && item.completed then SearchDone(s, item.id)
    else CloseBlock(s)
  }

  /** Strictly increasing indices. */
  predicate Increasing(ks: seq<int>) {
    forall i, j :: 0 <= i < j < |ks| ==> ks[i] < ks[j]
  }

  lemma MaxExists(keys: set<int>)
    requires keys != {}
    ensures exists m :: m in keys && forall k :: k in keys ==> k <= m
  {
    var m := AnyMember(keys);
    var rest := keys - {m};
    if rest == {} {
      assert keys == {m};
    } else {
      MaxExists(rest);
      var r :| r in rest && forall k :: k in rest ==> k <= r;
      var top := if r < m then m else r;
      forall k | k in keys ensures k <= top {
        if k != m { assert k in rest; }
      }
      assert top in keys;
    }
  }

  ghost function SortedKeys(keys: set<int>): (ks: seq<int>)
    ensures Increasing(ks) && forall k :: k in ks <==> k in keys
  {
    if keys == {} then [] else
    MaxExists(keys);
    var m :| m in keys && forall k :: k in keys ==> k <= m;
    SortedKeys(keys - {m}) + [m]
  }

  /** Only one strictly increasing sequence has given elements. */
  lemma {:induction false} IncreasingUnique(a: seq<int>, b: seq<int>)
    requires Increasing(a) && Increasing(b)
    requires forall k :: k in a <==> k in b
    ensures a == b
  {
    assert a != [] ==> a[|a| - 1] in a;
    assert b != [] ==> b[|b| - 1] in b;
    if a != [] {
      var x, y := a[|a| - 1], b[|b| - 1];
      assert y in a;
      var i :| 0 <= i < |a| && a[i] == y;
      var j :| 0 <= j < |b| && b[j] == x;
      assert x == y;
      var c, d := a[..|a| - 1], b[..|b| - 1];
      forall k ensures k in c <==> k in d {
        if k in c { assert k in a && k != x; assert k in b; }
        if k in d { assert k in b && k != x; assert k in a; }
      }
      IncreasingUnique(c, d);
      assert a == c + [x] && b == d + [x];
    }
  }

  function RawArgs(p: Pending): string {
    var raw := if p.final != "" then p.final else p.args;
    if IsBlank(raw) then "{}" else raw
  }

  datatype Flushed = Flushed(state: State, error: Option<ErrorKind>)

  function FlushOne(codec: Codec, s: State, index: int): Flushed {
    var p := Lookup(s.pending, index, NO_PENDING);
    var json := Sanitize(codec, p.name, RawArgs(p));
    if !codec.validObject(json) then Flushed(s, Some(InvalidArguments(p.name))) else
    var n := s.block.index;
    Flushed(Push(Push(Push(s.(block := s.block.(index := n + 1)),
                           BlockStart(n, ToolUseBlock(FromCallId(p.callId), p.name))),
                      BlockDelta(n, JsonPiece(json))),
                 BlockStop(n)), None)
  }

  function FlushAll(codec: Codec, s: State, ks: seq<int>): Flushed {
    if ks == [] then Flushed(s, None) else
    var f := FlushAll(codec, s, ks[..|ks| - 1]);
    if f.error.Some? then f else FlushOne(codec, f.state, ks[|ks| - 1])
  }

  lemma FlushNext(codec: Codec, s: State, ks: seq<int>, i: nat)
    requires i < |ks|
    ensures FlushAll(codec, s, ks[..i + 1]) ==
            var f := FlushAll(codec, s, ks[..i]);
            if f.error.Some? then f else FlushOne(codec, f.state, ks[i])
  {
    assert ks[..i + 1][..i] == ks[..i];
  }

  lemma {:induction false} FlushStopsAtError(codec: Codec, s: State, ks: seq<int>, n: nat)
    requires n <= |ks| && FlushAll(codec, s, ks[..n]).error.Some?
    ensures FlushAll(codec, s, ks) == FlushAll(codec, s, ks[..n])
    decreases |ks| - n
  {
    if n == |ks| {
      assert ks[..n] == ks;
    } else {
      FlushNext(codec, s, ks, n);
      FlushStopsAtError(codec, s, ks, n + 1);
    }
  }

  function StopFor(status: Option<R.Status>, hasTool: bool): StopReason {
    if status == Some(R.Incomplete(true)) then MaxTokens
    else if status == Some(R.Completed) && hasTool then ToolUse
    else EndTurn
  }

  function Stop(s: State, reason: StopReason): State {
    Push(Push(s.(stopped := true), MessageDelta(reason)), MessageStop)
  }

  function StopWithError(s: State, kind: ErrorKind): State {
    Push(s.(stopped := true), Error(kind))
  }

  /** The end of a buffered stream: the pending calls, then the stop; or one error. */
  ghost function FlushAndStop(codec: Codec, s: State, reason: StopReason): State {
    var f := FlushAll(codec, s, SortedKeys(s.pending.Keys));
    if f.error.Some? then StopWithError(f.state.(out := s.out), f.error.value)
    else Stop(f.state.(pending := map[]), reason)
  }

  ghost function Complete(codec: Codec, s: State, status: Option<R.Status>): State {
    if s.stopped then s else
    var t := CloseBlock(s);
    var reason := StopFor(status, t.hasTool);
    if t.buffered then FlushAndStop(codec, t, reason) else Stop(t, reason)
  }

  ghost function Step(codec: Codec, s: State, body: R.Body): State {
    match body
    case Created => Start(s)
    case ItemAdded(index, item) => AddItem(s, index, item)
    case TextDelta(_, _, delta) => AddText(s, delta)
    case TextDone(_, _, _) => CloseBlock(s)
    case ArgsDelta(index, _, delta, _, _) => AddArgs(s, index, delta)
    case ArgsDone(index, _, callId, name, args) => FinishArgs(codec, s, index, callId, name, args)
    case ItemDone(index, item) => FinishItem(s, index, item)
    case ReasoningDelta(index, _, delta) => AddReasoning(s, index, delta)
    case SummaryTextDone(_, _, _) => CloseBlock(s)
    case Terminal(status, _) => Complete(codec, s, status)
    case _ => s
  }

  ghost function Run(codec: Codec, s: State, events: seq<R.Event>): State {
    if events == [] then s else Step(codec, Run(codec, s, events[..|events| - 1]), events[|events| - 1].body)
  }

  /** Termination events of a stream that ended without a terminal event. */
  function Finalize(s: State): State {
    if !s.started || s.stopped then s else
    var t := CloseBlock(s);
    if t.buffered && t.pending != map[] then StopWithError(t, ToolsCutShort)
    else Stop(t, if t.hasTool then ToolUse else EndTurn)
  }

  lemma RunOne(codec: Codec, s: State, events: seq<R.Event>, e: R.Event)
    ensures Run(codec, s, events + [e]) == Step(codec, Run(codec, s, events), e.body)
  {
    assert (events + [e])[..|events|] == events;
  }

  // ---- every upstream, buffered or not -------------------------------------------------

  /** Only the opening and closing of blocks: the next index and whether a block is open.
      A stream that reported an error promises nothing more. */
  datatype Skeleton = Skeleton(next: nat, open: bool) | Ended | Crossed

  function Extend(k: Skeleton, e: Event): Skeleton {
    match e
    case BlockStart(i, _) => if k.Ended? then k else if k == Skeleton(i, false) then Skeleton(i, true) else Crossed
    case BlockStop(i) => if k.Ended? then k else if k == Skeleton(i, true) then Skeleton(i + 1, false) else Crossed
    case Error(_) => Ended
    case _ => k
  }

  function Outline(out: seq<Event>): Skeleton {
    if out == [] then Skeleton(0, false) else Extend(Outline(out[..|out| - 1]), out[|out| - 1])
  }

  /** The text deltas of a Responses stream. */
  function TextDeltas(events: seq<R.Event>): string {
    if events == [] then "" else
    TextDeltas(events[..|events| - 1]) +
    match events[|events| - 1].body
    case TextDelta(_, _, delta) => delta
    case _ => ""
  }

  /** What a reader has gathered besides tool calls. */
  datatype Words = Words(text: string, thinking: string)

  function Said(out: seq<Event>): Words {
    Words(ReadAll(out).text, ReadAll(out).thinking)
  }

  function Hear(w: Words, e: Event): Words {
    if e.BlockDelta? && e.delta.TextPiece? then w.(text := w.text + e.delta.text)
    else if e.BlockDelta? && e.delta.ThinkingPiece? then w.(thinking := w.thinking + e.delta.text)
    else w
  }

  /** What one upstream event adds. */
  function Told(w: Words, s: State, body: R.Body): Words {
    match body
    case TextDelta(_, _, delta) => w.(text := w.text + delta)
    case ReasoningDelta(index, _, delta) => if index in s.blockOf then w.(thinking := w.thinking + delta) else w
    case _ => w
  }

  /** An item that is given a block of its own as soon as it is announced. */
  predicate Opens(buffered: bool, body: R.Body) {
    body.ItemAdded? &&
    (body.item.kind.Reasoning? || (!buffered && (body.item.kind.FunctionCall? || body.item.kind.CustomToolCall?)))
  }

  /** An output index at which such an item has been announced. */
  predicate Known(buffered: bool, events: seq<R.Event>, index: int) {
    events != [] &&
    var last := events[|events| - 1].body;
    (Known(buffered, events[..|events| - 1], index) || (Opens(buffered, last) && last.index == index))
  }

  /** The reasoning deltas under a known output index; others have no block to go to. */
  function Thoughts(buffered: bool, events: seq<R.Event>): string {
    if events == [] then "" else
    var before := events[..|events| - 1];
    Thoughts(buffered, before) +
    match events[|events| - 1].body
    case ReasoningDelta(index, _, delta) => if Known(buffered, before, index) then delta else ""
    case _ => ""
  }

  ghost predicate KnowsBlocks(s: State, buffered: bool, events: seq<R.Event>) {
    s.buffered == buffered && forall k :: k in s.blockOf <==> Known(buffered, events, k)
  }

  lemma FlushKeepsBlocks(codec: Codec, s: State, reason: StopReason)
    ensures var t := FlushAndStop(codec, s, reason); t.blockOf == s.blockOf && t.buffered == s.buffered
  {
    FlushAllKeepsBlocks(codec, s, SortedKeys(s.pending.Keys));
    hide FlushAll, SortedKeys;
  }

  lemma {:induction false} FlushAllKeepsBlocks(codec: Codec, s: State, ks: seq<int>)
    ensures var t := FlushAll(codec, s, ks).state; t.blockOf == s.blockOf && t.buffered == s.buffered
  {
    if ks != [] { FlushAllKeepsBlocks(codec, s, ks[..|ks| - 1]); }
  }

  ghost predicate SameBlocks(s: State, t: State) {
    t.blockOf == s.blockOf && t.buffered == s.buffered
  }

  lemma CloseKeepsBlocks(s: State)
    ensures SameBlocks(s, CloseBlock(s))
  {
  }

  lemma AddItemBlocks(s: State, index: int, item: R.Item)
    ensures var t := AddItem(s, index, item);
            t.buffered == s.buffered && t.blockOf == if Opens(s.buffered, R.ItemAdded(index, item)) then s.blockOf[index := t.block.index] else s.blockOf
  {
    CloseKeepsBlocks(s);
    hide CloseBlock, FromCallId;
    match item.kind
    case FunctionCall | CustomToolCall => if s.buffered { hide OpenBlock; }
    case Reasoning =>
    case _ => hide OpenBlock;
  }

  lemma DeltaBlocks(s: State, index: int, delta: string)
    ensures SameBlocks(s, CloseBlock(s)) && SameBlocks(s, AddText(s, delta))
    ensures SameBlocks(s, AddArgs(s, index, delta)) && SameBlocks(s, AddReasoning(s, index, delta))
  {
  }

  lemma ItemDoneBlocks(s: State, index: int, item: R.Item)
    ensures SameBlocks(s, FinishItem(s, index, item))
  {
    hide Confirm;
  }

  lemma ArgsDoneBlocks(codec: Codec, s: State, index: int, callId: Id, name: string, args: string)
    ensures SameBlocks(s, FinishArgs(codec, s, index, callId, name, args))
  {
    hide Sanitize, Confirm;
  }

  lemma CompleteBlocks(codec: Codec, s: State, status: Option<R.Status>)
    ensures SameBlocks(s, Complete(codec, s, status))
  {
    FlushKeepsBlocks(codec, CloseBlock(s), StopFor(status, CloseBlock(s).hasTool));
    hide FlushAndStop;
  }

  lemma StepKeepsBlocks(codec: Codec, s: State, body: R.Body)
    ensures var t := Step(codec, s, body);
            t.buffered == s.buffered && forall k :: k in t.blockOf <==> k in s.blockOf || (Opens(s.buffered, body) && body.index == k)
  {
    hide AddItem, AddText, AddArgs, AddReasoning, FinishArgs, FinishItem, CloseBlock, Complete;
    match body
    case ItemAdded(index, item) => AddItemBlocks(s, index, item);
    case TextDelta(_, _, delta) => DeltaBlocks(s, 0, delta);
    case ArgsDelta(index, _, delta, _, _) => DeltaBlocks(s, index, delta);
    case ReasoningDelta(index, _, delta) => DeltaBlocks(s, index, delta);
    case ArgsDone(index, _, callId, name, args) => ArgsDoneBlocks(codec, s, index, callId, name, args);
    case ItemDone(index, item) => ItemDoneBlocks(s, index, item);
    case Terminal(status, _) => CompleteBlocks(codec, s, status);
    case _ => DeltaBlocks(s, 0, "");
  }

  lemma StepBlocks(codec: Codec, s: State, buffered: bool, events: seq<R.Event>, e: R.Event)
    requires KnowsBlocks(s, buffered, events)
    ensures KnowsBlocks(Step(codec, s, e.body), buffered, events + [e])
  {
    hide Step, Opens;
    StepKeepsBlocks(codec, s, e.body);
    KnownOne(buffered, events, e);
    hide Known;
  }

  lemma KnownOne(buffered: bool, events: seq<R.Event>, e: R.Event)
    ensures forall k :: Known(buffered, events + [e], k) <==> Known(buffered, events, k) || (Opens(buffered, e.body) && e.body.index == k)
  {
    assert (events + [e])[..|events|] == events;
  }

  ghost predicate Matches(k: Skeleton, block: BlockPart) {
    k.Ended? || k == Skeleton(block.index, block.open)
  }

  ghost predicate Outlined(s: State) {
    Matches(Outline(s.out), s.block)
  }

  lemma PushOutline(s: State, e: Event)
    ensures Outline(Push(s, e).out) == Extend(Outline(s.out), e)
    ensures Said(Push(s, e).out) == Hear(Said(s.out), e)
  {
    assert (s.out + [e])[..|s.out|] == s.out;
  }

  lemma CloseOutline(s: State)
    requires Outlined(s)
    ensures Outlined(CloseBlock(s)) && !CloseBlock(s).block.open
    ensures Said(CloseBlock(s).out) == Said(s.out)
  {
    hide Outline, Said;
    PushOutline(s, BlockStop(s.block.index));
  }

  lemma AddItemOutline(s: State, index: int, item: R.Item)
    requires Outlined(s)
    ensures Outlined(AddItem(s, index, item)) && Said(AddItem(s, index, item).out) == Said(s.out)
  {
    hide Outline, Said;
    CloseOutline(s);
    PushOutline(CloseBlock(s), BlockStart(CloseBlock(s).block.index, ThinkingBlock));
    PushOutline(CloseBlock(s), BlockStart(CloseBlock(s).block.index, ToolUseBlock(FromCallId(item.callId), item.name)));
  }

  lemma OpenTextOutline(s: State)
    requires Outlined(s) && !s.block.open
    ensures var t := OpenBlock(s, TextType, TextBlock);
            Outlined(t) && t.block.open && Said(t.out) == Said(s.out)
  {
    hide Outline, Said;
    PushOutline(s, BlockStart(s.block.index, TextBlock));
  }

  lemma AddTextOutline(s: State, delta: string)
    requires Outlined(s)
    ensures Outlined(AddText(s, delta)) && Said(AddText(s, delta).out) == Words(Said(s.out).text + delta, Said(s.out).thinking)
  {
    hide Outline, Said;
    CloseOutline(s);
    var c := CloseBlock(s);
    OpenTextOutline(c);
    var t := if s.block.open && s.block.kind == TextType then s else OpenBlock(c, TextType, TextBlock);
    PushOutline(t, BlockDelta(t.block.index, TextPiece(delta)));
    hide CloseBlock, OpenBlock;
  }

  lemma FinishArgsOutline(codec: Codec, s: State, index: int, callId: Id, name: string, args: string)
    requires Outlined(s)
    ensures var t := FinishArgs(codec, s, index, callId, name, args); Outlined(t) && Said(t.out) == Said(s.out)
  {
    hide Outline, Said;
    CloseOutline(s);
    var json := Sanitize(codec, s.tool.name, if args == "" then s.tool.args else args);
    var e := BlockDelta(s.block.index, JsonPiece(json));
    PushOutline(s, e);
    CloseOutline(Push(s, e));
  }

  lemma FinishItemOutline(s: State, index: int, item: R.Item)
    requires Outlined(s)
    ensures Outlined(FinishItem(s, index, item)) && Said(FinishItem(s, index, item).out) == Said(s.out)
  {
    hide Outline, Said;
    CloseOutline(s);
    var c := CloseBlock(s);
    var n := c.block.index;
    var t := c.(block := c.block.(index := n + 2));
    var a, b, d := BlockStart(n, ServerToolBlock(item.id)), BlockStop(n), BlockStart(n + 1, SearchResultBlock(item.id));
    PushOutline(t, a);
    PushOutline(Push(t, a), b);
    PushOutline(Push(Push(t, a), b), d);
    PushOutline(Push(Push(Push(t, a), b), d), BlockStop(n + 1));
  }

  lemma FlushOneOutline(codec: Codec, s: State, index: int)
    requires Outlined(s) && !s.block.open
    ensures var f := FlushOne(codec, s, index).state;
            Outlined(f) && f == s.(block := f.block, out := f.out) && !f.block.open && Said(f.out) == Said(s.out)
  {
    hide Outline, Said, Sanitize, RawArgs, FromCallId;
    var p := Lookup(s.pending, index, NO_PENDING);
    var n := s.block.index;
    var t := s.(block := s.block.(index := n + 1));
    var a, b := BlockStart(n, ToolUseBlock(FromCallId(p.callId), p.name)),
                BlockDelta(n, JsonPiece(Sanitize(codec, p.name, RawArgs(p))));
    PushOutline(t, a);
    PushOutline(Push(t, a), b);
    PushOutline(Push(Push(t, a), b), BlockStop(n));
  }

  lemma {:induction false} FlushOutline(codec: Codec, s: State, ks: seq<int>)
    requires Outlined(s) && !s.block.open
    ensures var f := FlushAll(codec, s, ks).state;
            Outlined(f) && f == s.(block := f.block, out := f.out) && !f.block.open && Said(f.out) == Said(s.out)
  {
    hide Outlined, Said, FlushOne;
    if ks != [] {
      var n := |ks| - 1;
      FlushOutline(codec, s, ks[..n]);
      FlushOneOutline(codec, FlushAll(codec, s, ks[..n]).state, ks[n]);
    }
  }

  lemma StopOutline(s: State, reason: StopReason, kind: ErrorKind)
    requires Outlined(s)
    ensures Outlined(Stop(s, reason)) && Said(Stop(s, reason).out) == Said(s.out)
    ensures Outlined(StopWithError(s, kind)) && Said(StopWithError(s, kind).out) == Said(s.out)
  {
    hide Outline, Said;
    var t := s.(stopped := true);
    PushOutline(t, MessageDelta(reason));
    PushOutline(Push(t, MessageDelta(reason)), MessageStop);
    PushOutline(t, Error(kind));
  }

  lemma FlushedOutline(codec: Codec, s: State, reason: StopReason)
    requires Outlined(s) && !s.block.open
    ensures var t := FlushAndStop(codec, s, reason); Outlined(t) && Said(t.out) == Said(s.out)
  {
    hide Outline, Said, FlushAll, SortedKeys;
    var f := FlushAll(codec, s, SortedKeys(s.pending.Keys));
    FlushOutline(codec, s, SortedKeys(s.pending.Keys));
    if f.error.Some? {
      PushOutline(f.state.(out := s.out, stopped := true), Error(f.error.value));
    } else {
      StopOutline(f.state.(pending := map[]), reason, ToolsCutShort);
    }
  }

  lemma CompleteOutline(codec: Codec, s: State, status: Option<R.Status>)
    requires Outlined(s)
    ensures var t := Complete(codec, s, status); Outlined(t) && Said(t.out) == Said(s.out)
  {
    hide Outline, Said, FlushAndStop, Stop;
    CloseOutline(s);
    var t := CloseBlock(s);
    var reason := StopFor(status, t.hasTool);
    if t.buffered {
      FlushedOutline(codec, t, reason);
    } else {
      StopOutline(t, reason, ToolsCutShort);
    }
  }

  lemma HeardOne(buffered: bool, events: seq<R.Event>, e: R.Event)
    ensures TextDeltas(events + [e]) == TextDeltas(events) + if e.body.TextDelta? then e.body.delta else ""
    ensures Thoughts(buffered, events + [e]) ==
            Thoughts(buffered, events) + if e.body.ReasoningDelta? && Known(buffered, events, e.body.index) then e.body.delta else ""
  {
    assert (events + [e])[..|events|] == events;
  }

  ghost predicate Tells(s: State, buffered: bool, events: seq<R.Event>) {
    Outlined(s) && KnowsBlocks(s, buffered, events) && Said(s.out) == Words(TextDeltas(events), Thoughts(buffered, events))
  }

  lemma TellsNext(codec: Codec, s: State, buffered: bool, events: seq<R.Event>, e: R.Event)
    requires Tells(s, buffered, events)
    ensures Tells(Step(codec, s, e.body), buffered, events + [e])
  {
    hide Step, Outlined, Said, Known, TextDeltas, Thoughts;
    StepOutline(codec, s, e.body);
    StepBlocks(codec, s, buffered, events, e);
    HeardOne(buffered, events, e);
    Silence(TextDeltas(events), Thoughts(buffered, events));
  }

  /** Whatever the upstream sends, in either mode: blocks open and close one at a time with
      indices 0, 1, 2, ..., the visible text is exactly the upstream text, and the thinking text
      is that of the reasoning deltas whose item was announced. */
  lemma {:induction false} EveryRunIsOutlined(codec: Codec, buffered: bool, events: seq<R.Event>)
    ensures var s := Run(codec, Initial(buffered), events);
            && Tells(s, buffered, events) && Outline(s.out) != Crossed
            && Said(s.out) == Words(TextDeltas(events), Thoughts(buffered, events))
  {
    hide Tells, Step, Outline, Said, TextDeltas, Thoughts;
    if events == [] {
      TellsStart(buffered);
    } else {
      var before, e := events[..|events| - 1], events[|events| - 1];
      EveryRunIsOutlined(codec, buffered, before);
      SplitLast([], events);
      TellsNext(codec, Run(codec, Initial(buffered), before), buffered, before, e);
    }
    TellsOutline(Run(codec, Initial(buffered), events), buffered, events);
  }

  lemma TellsStart(buffered: bool)
    ensures Tells(Initial(buffered), buffered, [])
  {
  }

  lemma TellsOutline(s: State, buffered: bool, events: seq<R.Event>)
    requires Tells(s, buffered, events)
    ensures Outline(s.out) != Crossed && Said(s.out) == Words(TextDeltas(events), Thoughts(buffered, events))
  {
    hide Outline, Said, TextDeltas, Thoughts, KnowsBlocks;
  }

  lemma Silence(text: string, thinking: string)
    ensures text + "" == text && thinking + "" == thinking
  {
  }

  lemma AddArgsOutline(s: State, index: int, delta: string)
    requires Outlined(s)
    ensures Outlined(AddArgs(s, index, delta)) && Said(AddArgs(s, index, delta).out) == Said(s.out)
  {
    hide Outline, Said;
    var t := if s.block.kind == ToolType then s.(tool := s.tool.(hadDelta := true)) else s;
    if index in t.blockOf { PushOutline(t, BlockDelta(t.blockOf[index], JsonPiece(delta))); }
  }

  lemma StepOutline(codec: Codec, s: State, body: R.Body)
    requires Outlined(s)
    ensures var t := Step(codec, s, body);
            Outlined(t) && Said(t.out) == Told(Said(s.out), s, body)
  {
    hide Outline, Said, AddItem, AddText, AddArgs, FinishArgs, FinishItem, Complete, CloseBlock;
    match body
    case Created => PushOutline(s.(started := true), MessageStart);
    case ItemAdded(index, item) => AddItemOutline(s, index, item);
    case TextDelta(_, _, delta) => AddTextOutline(s, delta);
    case TextDone(_, _, _) => CloseOutline(s);
    case ArgsDelta(index, _, delta, _, _) =>
      AddArgsOutline(s, index, delta);
    case ArgsDone(index, _, callId, name, args) => FinishArgsOutline(codec, s, index, callId, name, args);
    case ItemDone(index, item) => FinishItemOutline(s, index, item);
    case ReasoningDelta(index, _, delta) =>
      if index in s.blockOf { PushOutline(s, BlockDelta(s.blockOf[index], ThinkingPiece(delta))); }
    case SummaryTextDone(_, _, _) => CloseOutline(s);
    case Terminal(status, _) => CompleteOutline(codec, s, status);
    case _ =>
  }
}

/** The translator object of the source. */
module ResponsesToAnthropic {
  import opened Text
  import R = ResponsesEvents
  import opened AnthropicEvents
  import S = ResponsesToAnthropicSpec

  /** The keys of a map in increasing order. */
  method SortedIndices(m: map<int, S.Pending>) returns (indices: seq<int>)
    ensures indices == S.SortedKeys(m.Keys)
  {
    indices := [];
    var rest := m.Keys;
    while rest != {}
      invariant rest <= m.Keys && S.Increasing(indices)
      invariant forall k :: k in indices <==> k in m.Keys - rest
      decreases rest
    {
      ghost var some := AnyMember(rest);
      var k :| k in rest;
      var at := 0;
      while at < |indices| && indices[at] < k
        invariant 0 <= at <= |indices| && forall i :: 0 <= i < at ==> indices[i] < k
      {
        at := at + 1;
      }
      assert k !in indices;
      ghost var before := indices;
      indices := indices[..at] + [k] + indices[at..];
      assert forall x :: x in indices <==> x in before || x == k by {
        assert before == before[..at] + before[at..];
      }
      rest := rest - {k};
    }
    S.IncreasingUnique(indices, S.SortedKeys(m.Keys));
  }

  class StreamState {
    const codec: S.Codec
    var messageStartSent: bool
    var messageStopSent: bool
    var block: S.BlockPart
    var tool: S.ToolPart
    var hasToolCall: bool
    var bufferToolCalls: bool
    var pendingTools: map<int, S.Pending>
    var blockOf: map<int, nat>

    /** The value of the object once `events` have been emitted. */
    ghost function Abs(events: seq<Event>): S.State
      reads this
    {
      S.State(messageStartSent, messageStopSent, block, tool, hasToolCall, bufferToolCalls, pendingTools, blockOf, events)
    }

    constructor (codec: S.Codec, buffered: bool)
      ensures Abs([]) == S.Initial(buffered) && this.codec == codec
    {
      this.codec := codec;
      messageStartSent, messageStopSent, hasToolCall, bufferToolCalls := false, false, false, buffered;
      block, tool, pendingTools, blockOf := S.BlockPart(0, false, S.NoType), S.NO_TOOL, map[], map[];
    }

    method CloseCurrentBlock(before: seq<Event>) returns (events: seq<Event>)
      modifies this`block, this`tool
      ensures Abs(events) == S.CloseBlock(old(Abs(before)))
    {
      events := before;
      if !block.open { return; }
      events := events + [BlockStop(block.index)];
      block := block.(open := false, index := block.index + 1);
      tool := S.NO_TOOL;
    }

    method HandleCreated(before: seq<Event>) returns (events: seq<Event>)
      modifies this`messageStartSent
      ensures Abs(events) == S.Start(old(Abs(before)))
    {
      events := before;
      if messageStartSent { return; }
      messageStartSent := true;
      events := events + [MessageStart];
    }

    method HandleOutputItemAdded(before: seq<Event>, index: int, item: R.Item) returns (events: seq<Event>)
      modifies this
      ensures Abs(events) == S.AddItem(old(Abs(before)), index, item)
    {
      events := before;
      match item.kind
      case FunctionCall | CustomToolCall =>
        events := CloseCurrentBlock(events);
        hasToolCall := true;
        if bufferToolCalls {
          var p := Lookup(pendingTools, index, S.NO_PENDING);
          p := p.(callId := item.callId, name := item.name);
          if item.args != "" {
            p := p.(final := item.args);
          }
          pendingTools := pendingTools[index := p];
          return;
        }
        blockOf := blockOf[index := block.index];
        block := block.(open := true, kind := S.ToolType);
        tool := S.ToolPart(item.name, "", false);
        events := events + [BlockStart(block.index, ToolUseBlock(S.FromCallId(item.callId), item.name))];
      case Reasoning =>
        events := CloseCurrentBlock(events);
        blockOf := blockOf[index := block.index];
        block := block.(open := true, kind := S.ThinkingType);
        events := events + [BlockStart(block.index, ThinkingBlock)];
      case _ =>
    }

    method HandleTextDelta(before: seq<Event>, delta: string) returns (events: seq<Event>)
      modifies this`block, this`tool
      ensures Abs(events) == S.AddText(old(Abs(before)), delta)
    {
      events := before;
      if delta == "" { return; }
      if !block.open || block.kind != S.TextType {
        events := CloseCurrentBlock(events);
        block := block.(open := true, kind := S.TextType);
        events := events + [BlockStart(block.index, TextBlock)];
      }
      events := events + [BlockDelta(block.index, TextPiece(delta))];
    }

    method HandleFuncArgsDelta(before: seq<Event>, index: int, delta: string) returns (events: seq<Event>)
      modifies this`pendingTools, this`tool
      ensures Abs(events) == S.AddArgs(old(Abs(before)), index, delta)
    {
      events := before;
      if delta == "" { return; }
      if bufferToolCalls {
        var p := Lookup(pendingTools, index, S.NO_PENDING);
        pendingTools := pendingTools[index := p.(args := p.args + delta)];
        return;
      }
      if block.kind == S.ToolType && tool.name == "Read" {
        tool := tool.(args := tool.args + delta);
        return;
      }
      if block.kind == S.ToolType {
        tool := tool.(hadDelta := true);
      }
      if index !in blockOf { return; }
      events := events + [BlockDelta(blockOf[index], JsonPiece(delta))];
    }

    method ConfirmPending(index: int, callId: R.Id, name: string, args: string)
      modifies this`pendingTools
      ensures pendingTools == old(pendingTools)[index := S.Confirm(Lookup(old(pendingTools), index, S.NO_PENDING), callId, name, args)]
    {
      var p := Lookup(pendingTools, index, S.NO_PENDING);
      if !callId.NoId? {
        p := p.(callId := callId);
      }
      if name != "" {
        p := p.(name := name);
      }
      if args != "" {
        p := p.(final := args);
      }
      pendingTools := pendingTools[index := p];
    }

    method HandleFuncArgsDone(before: seq<Event>, index: int, callId: R.Id, name: string, args: string)
      returns (events: seq<Event>)
      modifies this
      ensures Abs(events) == S.FinishArgs(codec, old(Abs(before)), index, callId, name, args)
    {
      events := before;
      if bufferToolCalls {
        ConfirmPending(index, callId, name, args);
        return;
      }
      if block.kind != S.ToolType {
        events := HandleBlockDone(events);
        return;
      }
      var raw := args;
      if raw == "" {
        raw := tool.args;
      }
      if raw == "" || tool.hadDelta {
        events := CloseCurrentBlock(events);
        return;
      }
      if tool.name == "Read" {
        var sanitized := S.Sanitize(codec, tool.name, raw);
        if sanitized == "" {
          events := CloseCurrentBlock(events);
          return;
        }
        raw := sanitized;
      }
      events := events + [BlockDelta(block.index, JsonPiece(raw))];
      events := CloseCurrentBlock(events);
    }

    method HandleReasoningDelta(before: seq<Event>, index: int, delta: string) returns (events: seq<Event>)
      ensures Abs(events) == S.AddReasoning(Abs(before), index, delta)
    {
      events := before;
      if delta == "" { return; }
      if index !in blockOf { return; }
      events := events + [BlockDelta(blockOf[index], ThinkingPiece(delta))];
    }

    method HandleBlockDone(before: seq<Event>) returns (events: seq<Event>)
      modifies this`block, this`tool
      ensures Abs(events) == S.CloseBlock(old(Abs(before)))
    {
      events := before;
      if !block.open { return; }
      events := CloseCurrentBlock(events);
    }

    method HandleWebSearchDone(before: seq<Event>, id: R.Id) returns (events: seq<Event>)
      modifies this`block, this`tool
      ensures Abs(events) == S.SearchDone(old(Abs(before)), id)
    {
      events := CloseCurrentBlock(before);
      var n := block.index;
      events := events + [BlockStart(n, ServerToolBlock(id))];
      events := events + [BlockStop(n)];
      block := block.(index := block.index + 1);
      n := block.index;
      events := events + [BlockStart(n, SearchResultBlock(id))];
      events := events + [BlockStop(n)];
      block := block.(index := block.index + 1);
    }

    method HandleOutputItemDone(before: seq<Event>, index: int, item: R.Item) returns (events: seq<Event>)
      modifies this
      ensures Abs(events) == S.FinishItem(old(Abs(before)), index, item)
    {
      events := before;
      if item.kind.Absent? { return; }
      if bufferToolCalls && (item.kind.FunctionCall? || item.kind.CustomToolCall?) {
        ConfirmPending(index, item.callId, item.name, item.args);
        return;
      }
      if item.kind.WebSearchCall? && item.completed {
        events := HandleWebSearchDone(events, item.id);
        return;
      }
      if block.open {
        events := CloseCurrentBlock(events);
      }
    }

    /** Emits one buffered call, unless its arguments are no JSON object. */
    method FlushTool(before: seq<Event>, index: int) returns (events: seq<Event>, error: Option<ErrorKind>)
      modifies this`block
      ensures S.FlushOne(codec, old(Abs(before)), index) == S.Flushed(Abs(events), error)
    {
      events, error := before, None;
      var p := Lookup(pendingTools, index, S.NO_PENDING);
      var raw := p.final;
      if raw == "" {
        raw := p.args;
      }
      if IsBlank(raw) {
        raw := "{}";
      }
      var json := S.Sanitize(codec, p.name, raw);
      if !codec.validObject(json) {
        return events, Some(InvalidArguments(p.name));
      }
      var n := block.index;
      events := events + [BlockStart(n, ToolUseBlock(S.FromCallId(p.callId), p.name))];
      events := events + [BlockDelta(n, JsonPiece(json))];
      events := events + [BlockStop(n)];
      block := block.(index := n + 1);
    }

    /** Emits the buffered calls in output order; stops at the first that cannot be emitted. */
    method FlushPendingTools(before: seq<Event>) returns (events: seq<Event>, error: Option<ErrorKind>)
      modifies this`block, this`pendingTools
      ensures var f := S.FlushAll(codec, old(Abs(before)), S.SortedKeys(old(pendingTools).Keys));
              && error == f.error
              && Abs(events) == if error.None? then f.state.(pending := map[]) else f.state.(out := before)
    {
      events, error := before, None;
      var indices := SortedIndices(pendingTools);
      assert S.FlushAll(codec, old(Abs(before)), indices[..0]) == S.Flushed(Abs(events), None);
      hide S.FlushAll, S.FlushOne, S.SortedKeys;
      for i := 0 to |indices|
        invariant pendingTools == old(pendingTools) && error.None?
        invariant S.FlushAll(codec, old(Abs(before)), indices[..i]) == S.Flushed(Abs(events), None)
      {
        S.FlushNext(codec, old(Abs(before)), indices, i);
        events, error := FlushTool(events, indices[i]);
        if error.Some? {
          S.FlushStopsAtError(codec, old(Abs(before)), indices, i + 1);
          return before, error;
        }
      }
      assert indices[..|indices|] == indices;
      pendingTools := map[];
    }

    method HandleCompleted(before: seq<Event>, status: Option<R.Status>) returns (events: seq<Event>)
      modifies this
      ensures Abs(events) == S.Complete(codec, old(Abs(before)), status)
    {
      events := before;
      if messageStopSent { return; }
      events := CloseCurrentBlock(events);
      if bufferToolCalls {
        var error;
        events, error := FlushPendingTools(events);
        if error.Some? {
          events := events + [Error(error.value)];
          messageStopSent := true;
          return;
        }
      }
      var stopReason := EndTurn;
      if status.Some? {
        match status.value
        case Incomplete(maxTokens) =>
          if maxTokens {
            stopReason := MaxTokens;
          }
        case Completed =>
          if hasToolCall {
            stopReason := ToolUse;
          }
        case _ =>
      }
      events := events + [MessageDelta(stopReason)];
      events := events + [MessageStop];
      messageStopSent := true;
    }

    /** One upstream event, turned into the events it causes. */
    method Convert(before: seq<Event>, body: R.Body) returns (events: seq<Event>)
      modifies this
      ensures Abs(events) == S.Step(codec, old(Abs(before)), body)
    {
      events := before;
      match body
      case Created => events := HandleCreated(events);
      case ItemAdded(index, item) => events := HandleOutputItemAdded(events, index, item);
      case TextDelta(_, _, delta) => events := HandleTextDelta(events, delta);
      case TextDone(_, _, _) => events := HandleBlockDone(events);
      case ArgsDelta(index, _, delta, _, _) => events := HandleFuncArgsDelta(events, index, delta);
      case ArgsDone(index, _, callId, name, args) => events := HandleFuncArgsDone(events, index, callId, name, args);
      case ItemDone(index, item) => events := HandleOutputItemDone(events, index, item);
      case ReasoningDelta(index, _, delta) => events := HandleReasoningDelta(events, index, delta);
      case SummaryTextDone(_, _, _) => events := HandleBlockDone(events);
      case Terminal(status, _) => events := HandleCompleted(events, status);
      case _ =>
    }

    /** Termination events of a stream that ended without a terminal event. */
    method Finalize(before: seq<Event>) returns (events: seq<Event>)
      modifies this
      ensures Abs(events) == S.Finalize(old(Abs(before)))
    {
      events := before;
      if !messageStartSent || messageStopSent { return; }
      events := CloseCurrentBlock(events);
      if bufferToolCalls && pendingTools != map[] {
        events := events + [Error(ToolsCutShort)];
        messageStopSent := true;
        return;
      }
      var stopReason := EndTurn;
      if hasToolCall {
        stopReason := ToolUse;
      }
      events := events + [MessageDelta(stopReason)];
      events := events + [MessageStop];
      messageStopSent := true;
    }
  }
}
