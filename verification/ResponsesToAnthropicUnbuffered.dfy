/** The unbuffered translation: which upstreams it serves well, and what their clients read. */
module UnbufferedStream {
  import opened Text
  import R = ResponsesEvents
  import opened AnthropicEvents
  import opened S = ResponsesToAnthropicSpec

  // ---- where the upstream stands -------------------------------------------------------------

  /** The item whose block is open. `read`: it is a call of `Read`, whose deltas are held back. */
  datatype Running = Nothing | Writing | Thinking(index: int) | Calling(index: int, read: bool)

  /** What the events say about the place of the next one: whether the message was created and
      has ended, what is running, and the output indices announced. `afterCall`: the latest block
      is, or was, that of a call; `touched`: since that call was announced, or ended, a delta of
      arguments has come. */
  datatype Cursor = Cursor(created: bool, ended: bool, running: Running, known: set<int>, afterCall: bool, touched: bool)

  const START := Cursor(false, false, Nothing, {}, false, false)

  predicate Within(c: Cursor) {
    c.created && !c.ended
  }

  predicate IsCall(item: R.Item) {
    item.kind.FunctionCall? || item.kind.CustomToolCall?
  }

  predicate Owns(running: Running, index: int) {
    (running.Thinking? || running.Calling?) && running.index == index
  }

  function Shut(c: Cursor): Cursor {
    if c.running.Nothing? then c else c.(running := Nothing, touched := false)
  }

  function Move(c: Cursor, body: R.Body): Cursor {
    match body
    case Created => c.(created := true)
    case ItemAdded(index, item) =>
      if IsCall(item) then
        c.(running := Calling(index, item.name == "Read"), known := c.known + {index}, afterCall := true, touched := false)
      else if item.kind.Reasoning? then
        Shut(c).(running := Thinking(index), known := c.known + {index}, afterCall := false)
      else c
    case TextDelta(_, _, delta) => if delta == "" then c else Shut(c).(running := Writing, afterCall := false)
    case TextDone(_, _, _) => Shut(c)
    case SummaryTextDone(_, _, _) => Shut(c)
    case ArgsDelta(_, _, delta, _, _) =>
      if delta == "" || !c.afterCall || (c.running.Calling? && c.running.read) then c else c.(touched := true)
    case ArgsDone(_, _, _, _, _) => Shut(c)
    case ItemDone(_, item) => if item.kind.Absent? then c else Shut(c)
    case Terminal(_, _) => if c.ended then c else Shut(c).(ended := true)
    case _ => c
  }

  function At(events: seq<R.Event>): Cursor {
    if events == [] then START else Move(At(events[..|events| - 1]), events[|events| - 1].body)
  }

  /** An event that is out of place: an item, text or end outside the message; a delta for an
      announced item that is not running; or closing arguments for a call that has ended without
      any. A running call of `Read` takes every delta of arguments for its own. */
  predicate Misplaced(c: Cursor, body: R.Body) {
    match body
    case ItemAdded(_, item) => (IsCall(item) || item.kind.Reasoning?) && !Within(c)
    case TextDelta(_, _, delta) => delta != "" && !Within(c)
    case ReasoningDelta(index, _, delta) => delta != "" && index in c.known && c.running != Thinking(index)
    case ArgsDelta(index, _, delta, _, _) =>
      delta != "" && index in c.known && !(c.running.Calling? && (c.running.read || c.running.index == index))
    case ArgsDone(_, _, _, _, args) => args != "" && c.running.Nothing? && c.afterCall && !c.touched
    case ItemDone(_, item) => item.kind.WebSearchCall? && item.completed && !Within(c)
    case Terminal(_, _) => !c.created && !c.ended
    case _ => false
  }

  predicate MisplacedAt(events: seq<R.Event>, i: nat)
    requires i < |events|
  {
    Misplaced(At(events[..i]), events[i].body)
  }

  predicate InPlace(events: seq<R.Event>) {
    forall i :: 0 <= i < |events| ==> !MisplacedAt(events, i)
  }

  // ---- what the upstream says about calls ----------------------------------------------------

  /** The running call, with the deltas that came for it; `Read` takes those of other items too. */
  datatype Spoken = Spoken(id: Id, name: string, deltas: string)

  /** Where the upstream stands, the calls that have ended, the running one, and the status. */
  datatype Account = Account(cursor: Cursor, calls: seq<ToolUseCall>, call: Spoken, status: Option<R.Status>)

  const SILENT := Account(START, [], Spoken(R.NoId, "", ""), None)

  /** The calls read so far: the deltas of the running call are shown as they come, unless it is
      `Read`, of which nothing is shown before its closing arguments. */
  function SeenCalls(a: Account): seq<ToolUseCall> {
    a.calls + if a.cursor.running.Calling?
              then [ToolUseCall(FromCallId(a.call.id), a.call.name, if a.call.name == "Read" then "" else a.call.deltas)]
              else []
  }

  /** The running call, ended by its closing arguments: `Read` shows them, or else its deltas,
      cleaned; any other call shows them only when no delta came before. */
  function Closed(codec: Codec, a: Account, args: string): ToolUseCall {
    ToolUseCall(FromCallId(a.call.id), a.call.name,
      if a.call.name == "Read" then Sanitize(codec, "Read", if args == "" then a.call.deltas else args)
      else a.call.deltas + if a.cursor.touched then "" else args)
  }

  function Advance(codec: Codec, a: Account, body: R.Body): Account {
    var c, b := a.cursor, a.(cursor := Move(a.cursor, body));
    match body
    case ItemAdded(_, item) =>
      if IsCall(item) then b.(calls := SeenCalls(a), call := Spoken(item.callId, item.name, ""))
      else if item.kind.Reasoning? then b.(calls := SeenCalls(a))
      else b
    case TextDelta(_, _, delta) => if delta == "" then b else b.(calls := SeenCalls(a))
    case TextDone(_, _, _) => b.(calls := SeenCalls(a))
    case SummaryTextDone(_, _, _) => b.(calls := SeenCalls(a))
    case ArgsDelta(index, _, delta, _, _) =>
      if c.running.Calling? && (c.running.read || c.running.index == index)
      then b.(call := a.call.(deltas := a.call.deltas + delta)) else b
    case ArgsDone(_, _, _, _, args) => if c.running.Calling? then b.(calls := a.calls + [Closed(codec, a, args)]) else b
    case ItemDone(_, item) => if item.kind.Absent? then b else b.(calls := SeenCalls(a))
    case Terminal(status, _) => if c.ended then b else b.(calls := SeenCalls(a), status := status)
    case _ => b
  }

  function Tally(codec: Codec, events: seq<R.Event>): Account {
    if events == [] then SILENT else
    Advance(codec, Tally(codec, events[..|events| - 1]), events[|events| - 1].body)
  }

  lemma {:induction false} TallyAt(codec: Codec, events: seq<R.Event>)
    ensures Tally(codec, events).cursor == At(events)
  {
    if events != [] {
      TallyAt(codec, events[..|events| - 1]);
      hide Move;
    }
  }

  /** The phase a reader is in. */
  predicate InPhase(c: Cursor, p: Phase) {
    if !c.created then p.Before?
    else if c.ended then p.Complete?
    else match c.running
         case Nothing => p.Idle?
         case Writing => p.Inside? && p.block.TextBlock?
         case Thinking(_) => p.Inside? && p.block.ThinkingBlock?
         case Calling(_, _) => p.Inside? && p.block.ToolUseBlock?
  }

  // ---- the translator keeps up ---------------------------------------------------------------

  predicate Follows(a: Account, s: State) {
    var c := a.cursor;
    && !s.buffered && s.started == c.created && s.stopped == c.ended && (!Within(c) ==> c.running.Nothing?) && (c.ended ==> c.created)
    && s.block.open == !c.running.Nothing? && (s.block.kind == ToolType <==> c.afterCall)
    && (if c.running.Calling?
        then s.tool == (if a.call.name == "Read" then ToolPart(a.call.name, a.call.deltas, false) else ToolPart(a.call.name, "", c.touched))
        else s.tool.name == "" && s.tool.args == "" && (c.afterCall ==> s.tool.hadDelta == c.touched))
    && match c.running
       case Nothing => true
       case Writing => s.block.kind == TextType
       case Thinking(_) => s.block.kind == ThinkingType
       case Calling(_, read) => s.block.kind == ToolType && read == (a.call.name == "Read")
  }

  /** Every block announced so far is closed for good, but for the running one. */
  ghost predicate Placed(c: Cursor, s: State) {
    && s.blockOf.Keys == c.known
    && (forall k :: Owns(c.running, k) ==> Lookup(s.blockOf, k, s.block.index + 1) == s.block.index)
    && forall k :: k in s.blockOf ==> s.blockOf[k] < s.block.index || (Owns(c.running, k) && s.blockOf[k] == s.block.index)
  }

  predicate Reads(a: Account, s: State, r: Reading) {
    && InPhase(a.cursor, r.phase) && r.calls == SeenCalls(a) && s.hasTool == (SeenCalls(a) != [])
    && (r.phase.Before? ==> s.block.index == 0) && (r.phase.Idle? ==> r.phase.blocks == s.block.index)
    && (r.phase.Inside? ==> r.phase.index == s.block.index)
  }

  predicate Ends(out: seq<Event>, reason: StopReason) {
    |out| >= 2 && out[|out| - 2] == MessageDelta(reason) && out[|out| - 1] == MessageStop
  }

  /** The stop reason: the token limit for an answer cut there, tool use for a completed answer
      with some call, and otherwise the end of the turn. */
  predicate EndsWith(out: seq<Event>, status: Option<R.Status>, someCall: bool) {
    && |out| >= 2 && out[|out| - 2].MessageDelta? && out[|out| - 1] == MessageStop
    && (out[|out| - 2].stop == MaxTokens <==> status == Some(R.Incomplete(true)))
    && (out[|out| - 2].stop == ToolUse <==> status == Some(R.Completed) && someCall)
  }

  ghost predicate Tracks(a: Account, s: State) {
    && Follows(a, s) && Placed(a.cursor, s) && Reads(a, s, ReadAll(s.out))
    && (a.cursor.ended ==> Ends(s.out, StopFor(a.status, a.calls != [])))
  }

  function Settled(a: Account): Account {
    a.(cursor := Shut(a.cursor), calls := SeenCalls(a))
  }

  lemma ShutTracks(a: Account, s: State)
    requires Tracks(a, s)
    ensures Tracks(Settled(a), CloseBlock(s)) && Settled(a).cursor.running.Nothing?
  {
    ReadOne(s.out, BlockStop(s.block.index));
    hide ReadAll, FromCallId, StopFor;
  }

  /** A block of its own for an announced item, none being open. */
  function OpenItem(t: State, index: int, item: R.Item): State {
    var u := t.(blockOf := t.blockOf[index := t.block.index]);
    if IsCall(item) then
      OpenBlock(u.(hasTool := true, tool := ToolPart(item.name, "", false)), ToolType, ToolUseBlock(FromCallId(item.callId), item.name))
    else OpenBlock(u, ThinkingType, ThinkingBlock)
  }

  lemma OpenItemTracks(codec: Codec, a: Account, t: State, index: int, item: R.Item)
    requires Tracks(a, t) && Within(a.cursor) && a.cursor.running.Nothing? && (IsCall(item) || item.kind.Reasoning?)
    ensures Tracks(Advance(codec, a, R.ItemAdded(index, item)), OpenItem(t, index, item))
  {
    ReadOne(t.out, BlockStart(t.block.index, if IsCall(item) then ToolUseBlock(FromCallId(item.callId), item.name) else ThinkingBlock));
    hide ReadAll, FromCallId, StopFor;
  }

  lemma AddItemTracks(codec: Codec, a: Account, s: State, index: int, item: R.Item)
    requires Tracks(a, s) && !Misplaced(a.cursor, R.ItemAdded(index, item))
    ensures Tracks(Advance(codec, a, R.ItemAdded(index, item)), AddItem(s, index, item))
  {
    if IsCall(item) || item.kind.Reasoning? {
      ShutTracks(a, s);
      OpenItemTracks(codec, Settled(a), CloseBlock(s), index, item);
      assert !CloseBlock(s).buffered && AddItem(s, index, item) == OpenItem(CloseBlock(s), index, item);
      assert Advance(codec, Settled(a), R.ItemAdded(index, item)) == Advance(codec, a, R.ItemAdded(index, item));
    }
    hide Tracks, OpenItem, CloseBlock, FromCallId;
  }

  lemma OpenTextTracks(a: Account, t: State)
    requires Tracks(a, t) && Within(a.cursor) && a.cursor.running.Nothing?
    ensures Tracks(a.(cursor := a.cursor.(running := Writing, afterCall := false)), OpenBlock(t, TextType, TextBlock))
  {
    ReadOne(t.out, BlockStart(t.block.index, TextBlock));
    hide ReadAll, FromCallId, StopFor;
  }

  lemma TextPieceTracks(a: Account, t: State, delta: string)
    requires Tracks(a, t) && a.cursor.running.Writing?
    ensures Tracks(a, Push(t, BlockDelta(t.block.index, TextPiece(delta))))
  {
    ReadOne(t.out, BlockDelta(t.block.index, TextPiece(delta)));
    hide ReadAll, FromCallId, StopFor;
  }

  /** Text keeps an open text block. */
  lemma KeepWriting(codec: Codec, a: Account, s: State, body: R.Body)
    requires Tracks(a, s) && a.cursor.running.Writing? && body.TextDelta? && body.delta != ""
    ensures Tracks(Advance(codec, a, body), s)
  {
    hide ReadAll, FromCallId, StopFor;
  }

  lemma AddTextTracks(codec: Codec, a: Account, s: State, body: R.Body)
    requires Tracks(a, s) && body.TextDelta? && !Misplaced(a.cursor, body)
    ensures Tracks(Advance(codec, a, body), AddText(s, body.delta))
  {
    var b, delta := Advance(codec, a, body), body.delta;
    assert Follows(a, s);
    if delta != "" && a.cursor.running.Writing? {
      KeepWriting(codec, a, s, body);
      TextPieceTracks(b, s, delta);
    } else if delta != "" {
      ShutTracks(a, s);
      OpenTextTracks(Settled(a), CloseBlock(s));
      assert b == Settled(a).(cursor := Settled(a).cursor.(running := Writing, afterCall := false));
      TextPieceTracks(b, OpenBlock(CloseBlock(s), TextType, TextBlock), delta);
    }
    hide Tracks, CloseBlock, OpenBlock, Push, SeenCalls;
  }

  /** A delta that is shown: it joins the JSON of the running call. */
  lemma OwnArgsTracks(codec: Codec, a: Account, s: State, body: R.Body)
    requires Tracks(a, s) && body.ArgsDelta? && body.delta != "" && a.cursor.running == Calling(body.index, false)
    ensures Tracks(Advance(codec, a, body), AddArgs(s, body.index, body.delta))
  {
    var shown, e := SeenCalls(a), BlockDelta(s.block.index, JsonPiece(body.delta));
    assert Owns(a.cursor.running, body.index);
    assert s.tool.name != "Read" && body.index in s.blockOf && s.blockOf[body.index] == s.block.index;
    ReadOne(s.out, e);
    assert shown[..|a.calls|] == a.calls;
    hide ReadAll, FromCallId, StopFor;
  }

  /** A delta that is held back, or ignored. */
  lemma QuietArgsTracks(codec: Codec, a: Account, s: State, body: R.Body)
    requires Tracks(a, s) && body.ArgsDelta? && !Misplaced(a.cursor, body)
    requires body.delta != "" && a.cursor.running != Calling(body.index, false)
    ensures Tracks(Advance(codec, a, body), AddArgs(s, body.index, body.delta))
  {
    hide ReadAll, FromCallId, StopFor;
  }

  lemma AddArgsTracks(codec: Codec, a: Account, s: State, body: R.Body)
    requires Tracks(a, s) && body.ArgsDelta? && !Misplaced(a.cursor, body)
    ensures Tracks(Advance(codec, a, body), AddArgs(s, body.index, body.delta))
  {
    assert body.delta == "" ==> a.call.deltas + body.delta == a.call.deltas;
    if body.delta != "" {
      if a.cursor.running == Calling(body.index, false) {
        OwnArgsTracks(codec, a, s, body);
      } else {
        QuietArgsTracks(codec, a, s, body);
      }
    }
    hide Tracks, SeenCalls;
  }

  /** Closing the running call, which has shown `call`. */
  lemma CloseCallTracks(a: Account, s: State, call: ToolUseCall)
    requires Follows(a, s) && Placed(a.cursor, s) && Within(a.cursor) && a.cursor.running.Calling? && s.hasTool
    requires ReadAll(s.out).phase.Inside? && ReadAll(s.out).phase.index == s.block.index
    requires ReadAll(s.out).calls == a.calls + [call]
    ensures Tracks(a.(cursor := Shut(a.cursor), calls := a.calls + [call]), CloseBlock(s))
  {
    ReadOne(s.out, BlockStop(s.block.index));
    hide ReadAll, FromCallId, StopFor;
  }

  /** What the end of the running call adds to the JSON shown before. */
  function Rest(codec: Codec, tool: ToolPart, args: string): string {
    if tool.hadDelta then "" else Sanitize(codec, tool.name, if args == "" then tool.args else args)
  }

  lemma RestCompletes(codec: Codec, a: Account, s: State, args: string)
    requires Follows(a, s) && a.cursor.running.Calling?
    ensures var seen := SeenCalls(a)[|a.calls|]; Closed(codec, a, args) == seen.(json := seen.json + Rest(codec, s.tool, args))
  {
    hide FromCallId;
  }

  lemma LastPiece(a: Account, s: State, call: ToolUseCall, json: string)
    requires Tracks(a, s) && a.cursor.running.Calling?
    requires call == SeenCalls(a)[|a.calls|].(json := SeenCalls(a)[|a.calls|].json + json)
    ensures var t := if json == "" then s else Push(s, BlockDelta(s.block.index, JsonPiece(json)));
            && ReadAll(t.out).phase.Inside? && ReadAll(t.out).phase.index == s.block.index
            && ReadAll(t.out).calls == a.calls + [call]
  {
    hide ReadAll, FromCallId, StopFor, Placed;
    var shown := SeenCalls(a);
    if json == "" {
      assert shown[|a.calls|].json + "" == shown[|a.calls|].json;
      assert shown == a.calls + [call];
    } else {
      ReadOne(s.out, BlockDelta(s.block.index, JsonPiece(json)));
      assert shown[..|a.calls|] == a.calls;
    }
  }

  lemma FinishCallTracks(codec: Codec, a: Account, s: State, body: R.Body)
    requires Tracks(a, s) && body.ArgsDone? && a.cursor.running.Calling?
    ensures Tracks(Advance(codec, a, body), FinishArgs(codec, s, body.index, body.callId, body.name, body.args))
  {
    var call, json := Closed(codec, a, body.args), Rest(codec, s.tool, body.args);
    var t := if json == "" then s else Push(s, BlockDelta(s.block.index, JsonPiece(json)));
    RestCompletes(codec, a, s, body.args);
    LastPiece(a, s, call, json);
    FinishIs(codec, a, s, body);
    assert Follows(a, t) && Placed(a.cursor, t) && s.hasTool;
    hide ReadAll, FromCallId, Closed, StopFor, Placed, Rest, Follows, FinishArgs;
    CloseCallTracks(a, t, call);
    hide CloseBlock, Tracks, Push;
  }

  lemma FinishIs(codec: Codec, a: Account, s: State, body: R.Body)
    requires Follows(a, s) && body.ArgsDone? && a.cursor.running.Calling?
    ensures var json := Rest(codec, s.tool, body.args);
            FinishArgs(codec, s, body.index, body.callId, body.name, body.args) ==
            CloseBlock(if json == "" then s else Push(s, BlockDelta(s.block.index, JsonPiece(json))))
  {
    hide CloseBlock;
  }

  lemma FinishTracks(codec: Codec, a: Account, s: State, body: R.Body)
    requires Tracks(a, s) && body.ArgsDone? && !Misplaced(a.cursor, body)
    ensures Tracks(Advance(codec, a, body), FinishArgs(codec, s, body.index, body.callId, body.name, body.args))
  {
    assert Follows(a, s);
    hide Tracks, CloseBlock, FromCallId, Closed;
    if a.cursor.running.Calling? {
      FinishCallTracks(codec, a, s, body);
    } else {
      ShutTracks(a, s);
      assert FinishArgs(codec, s, body.index, body.callId, body.name, body.args) == CloseBlock(s);
      hide FinishArgs;
      assert Settled(a) == Advance(codec, a, body);
    }
  }

  /** The two blocks of a search, none being open. */
  function OpenSearch(t: State, id: Id): State {
    var n := t.block.index;
    Push(Push(Push(Push(t.(block := t.block.(index := n + 2)), BlockStart(n, ServerToolBlock(id))), BlockStop(n)),
              BlockStart(n + 1, SearchResultBlock(id))), BlockStop(n + 1))
  }

  lemma OpenSearchTracks(a: Account, t: State, id: Id)
    requires Tracks(a, t) && Within(a.cursor) && a.cursor.running.Nothing?
    ensures Tracks(a, OpenSearch(t, id))
  {
    hide ReadAll, FromCallId, StopFor;
    OpenSearchReads(t, id);
    hide OpenSearch;
  }

  lemma OpenSearchReads(t: State, id: Id)
    requires ReadAll(t.out).phase == Idle(t.block.index)
    ensures var n, u := t.block.index, OpenSearch(t, id);
            u == t.(block := t.block.(index := n + 2), out := u.out) && ReadAll(u.out) == ReadAll(t.out).(phase := Idle(n + 2))
  {
    SearchReads(t.out, t.block.index, id);
    hide ReadAll;
  }

  lemma EmptyBlockReads(out: seq<Event>, n: nat, b: Block)
    requires ReadAll(out).phase == Idle(n) && !b.ToolUseBlock?
    ensures ReadAll(out + [BlockStart(n, b)] + [BlockStop(n)]) == ReadAll(out).(phase := Idle(n + 1))
  {
    hide ReadAll;
    ReadOne(out, BlockStart(n, b));
    ReadOne(out + [BlockStart(n, b)], BlockStop(n));
    assert ReadAll(out).text + "" == ReadAll(out).text && ReadAll(out).thinking + "" == ReadAll(out).thinking;
  }

  lemma SearchReads(out: seq<Event>, n: nat, id: Id)
    requires ReadAll(out).phase == Idle(n)
    ensures var r := ReadAll(out);
            ReadAll(out + [BlockStart(n, ServerToolBlock(id))] + [BlockStop(n)] + [BlockStart(n + 1, SearchResultBlock(id))] + [BlockStop(n + 1)]) ==
            r.(phase := Idle(n + 2))
  {
    hide ReadAll;
    EmptyBlockReads(out, n, ServerToolBlock(id));
    EmptyBlockReads(out + [BlockStart(n, ServerToolBlock(id))] + [BlockStop(n)], n + 1, SearchResultBlock(id));
  }

  lemma SearchTracks(a: Account, s: State, id: Id)
    requires Tracks(a, s) && Within(a.cursor)
    ensures Tracks(Settled(a), SearchDone(s, id))
  {
    ShutTracks(a, s);
    OpenSearchTracks(Settled(a), CloseBlock(s), id);
    SearchIs(s, id);
    assert Within(Settled(a).cursor);
    hide Tracks, CloseBlock, SeenCalls, SearchDone, OpenSearch;
  }

  lemma SearchIs(s: State, id: Id)
    ensures SearchDone(s, id) == OpenSearch(CloseBlock(s), id)
  {
    hide CloseBlock;
  }

  lemma ItemDoneTracks(codec: Codec, a: Account, s: State, index: int, item: R.Item)
    requires Tracks(a, s) && !Misplaced(a.cursor, R.ItemDone(index, item))
    ensures Tracks(Advance(codec, a, R.ItemDone(index, item)), FinishItem(s, index, item))
  {
    assert !s.buffered;
    ShutTracks(a, s);
    if item.kind.WebSearchCall? && item.completed { SearchTracks(a, s, item.id); }
    hide Tracks, CloseBlock, SearchDone, SeenCalls;
  }

  lemma StopTracks(a: Account, s: State, status: Option<R.Status>)
    requires Tracks(a, s) && Within(a.cursor) && a.cursor.running.Nothing?
    ensures Tracks(a.(cursor := a.cursor.(ended := true), status := status), Stop(s, StopFor(status, s.hasTool)))
  {
    var last := MessageDelta(StopFor(status, s.hasTool));
    ReadOne(s.out, last);
    ReadOne(s.out + [last], MessageStop);
    hide ReadAll, StopFor, FromCallId;
  }

  lemma TerminalTracks(codec: Codec, a: Account, s: State, body: R.Body)
    requires Tracks(a, s) && body.Terminal? && !Misplaced(a.cursor, body)
    ensures Tracks(Advance(codec, a, body), S.Complete(codec, s, body.status))
  {
    assert Follows(a, s);
    if !a.cursor.ended {
      ShutTracks(a, s);
      assert !CloseBlock(s).buffered;
      StopTracks(Settled(a), CloseBlock(s), body.status);
    }
    hide Tracks, Stop, CloseBlock, StopFor, SeenCalls;
  }

  lemma ThinkingTracks(codec: Codec, a: Account, s: State, body: R.Body)
    requires Tracks(a, s) && body.ReasoningDelta? && !Misplaced(a.cursor, body)
    ensures Tracks(Advance(codec, a, body), AddReasoning(s, body.index, body.delta))
  {
    assert a.cursor.running == Thinking(body.index) ==> Owns(a.cursor.running, body.index);
    ReadOne(s.out, BlockDelta(s.block.index, ThinkingPiece(body.delta)));
    hide ReadAll, FromCallId, StopFor;
  }

  lemma CreatedTracks(a: Account, s: State)
    requires Tracks(a, s)
    ensures Tracks(a.(cursor := a.cursor.(created := true)), Start(s))
  {
    ReadOne(s.out, MessageStart);
    hide ReadAll, FromCallId, StopFor;
  }

  lemma StepTracks(codec: Codec, a: Account, s: State, body: R.Body)
    requires Tracks(a, s) && !Misplaced(a.cursor, body)
    ensures Tracks(Advance(codec, a, body), Step(codec, s, body))
  {
    hide Tracks, S.Complete, AddItem, AddText, AddArgs, AddReasoning, FinishArgs, FinishItem, Start, CloseBlock, Closed, SeenCalls;
    hide Misplaced;
    match body
    case Created => CreatedTracks(a, s);
    case ItemAdded(index, item) => AddItemTracks(codec, a, s, index, item);
    case TextDelta(_, _, delta) => AddTextTracks(codec, a, s, body);
    case TextDone(_, _, _) => ShutTracks(a, s);
    case SummaryTextDone(_, _, _) => ShutTracks(a, s);
    case ReasoningDelta(index, _, delta) => ThinkingTracks(codec, a, s, body);
    case ArgsDelta(index, _, delta, _, _) => AddArgsTracks(codec, a, s, body);
    case ArgsDone(_, _, _, _, _) => FinishTracks(codec, a, s, body);
    case ItemDone(index, item) => ItemDoneTracks(codec, a, s, index, item);
    case Terminal(status, _) => TerminalTracks(codec, a, s, body);
    case _ =>
  }

  lemma {:induction false} RunTracks(codec: Codec, events: seq<R.Event>)
    requires InPlace(events)
    ensures Tracks(Tally(codec, events), Run(codec, Initial(false), events))
  {
    if events == [] {
      assert Reads(SILENT, Initial(false), ReadAll([]));
    } else {
      var n := |events| - 1;
      MisplacedBefore(events, n);
      assert !MisplacedAt(events, n);
      TallyAt(codec, events[..n]);
      hide Tracks, Step, Advance, InPlace, Misplaced, At;
      RunTracks(codec, events[..n]);
      StepTracks(codec, Tally(codec, events[..n]), Run(codec, Initial(false), events[..n]), events[n].body);
    }
  }

  lemma MisplacedBefore(events: seq<R.Event>, n: nat)
    requires n <= |events|
    ensures forall i :: 0 <= i < n ==> MisplacedAt(events[..n], i) == MisplacedAt(events, i)
  {
    forall i | 0 <= i < n ensures MisplacedAt(events[..n], i) == MisplacedAt(events, i) {
      assert events[..n][..i] == events[..i];
    }
  }

  // ---- out of place --------------------------------------------------------------------------

  lemma BrokenByOne(out: seq<Event>, e: Event)
    requires Read(ReadAll(out).phase, e) == Broken
    ensures ReadAll(out + [e]).phase == Broken
  {
    ReadOne(out, e);
  }

  lemma {:induction false} BrokenStays(out: seq<Event>, more: seq<Event>)
    requires out <= more && ReadAll(out).phase == Broken
    ensures ReadAll(more).phase == Broken
    decreases |more|
  {
    hide NextCalls;
    if out != more {
      BrokenStays(out, more[..|more| - 1]);
    } else {
      assert more == out;
    }
  }

  predicate Grows(s: State, t: State) {
    !t.buffered && s.out <= t.out
  }

  lemma CloseGrows(s: State)
    requires !s.buffered
    ensures Grows(s, CloseBlock(s))
  {
  }

  lemma AddItemGrows(s: State, index: int, item: R.Item)
    requires !s.buffered
    ensures Grows(s, AddItem(s, index, item))
  {
    CloseGrows(s);
    hide CloseBlock, FromCallId;
  }

  lemma AddTextGrows(s: State, delta: string)
    requires !s.buffered
    ensures Grows(s, AddText(s, delta))
  {
    CloseGrows(s);
    hide CloseBlock;
  }

  lemma FinishGrows(codec: Codec, s: State, index: int, callId: Id, name: string, args: string)
    requires !s.buffered
    ensures Grows(s, FinishArgs(codec, s, index, callId, name, args))
  {
    hide Sanitize;
  }

  lemma SearchGrows(s: State, id: Id)
    requires !s.buffered
    ensures Grows(s, SearchDone(s, id))
  {
    CloseGrows(s);
    var t := CloseBlock(s);
    hide CloseBlock;
  }

  lemma CompleteGrows(codec: Codec, s: State, status: Option<R.Status>)
    requires !s.buffered
    ensures Grows(s, S.Complete(codec, s, status))
  {
    CloseGrows(s);
    hide CloseBlock, StopFor, FlushAndStop;
  }

  lemma StepGrows(codec: Codec, s: State, body: R.Body)
    requires !s.buffered
    ensures Grows(s, Step(codec, s, body))
  {
    hide AddItem, AddText, FinishArgs, SearchDone, S.Complete, CloseBlock;
    CloseGrows(s);
    match body
    case TextDelta(_, _, delta) => AddTextGrows(s, delta);
    case ItemAdded(index, item) => AddItemGrows(s, index, item);
    case ArgsDone(index, _, callId, name, args) => FinishGrows(codec, s, index, callId, name, args);
    case ItemDone(_, item) => SearchGrows(s, item.id);
    case Terminal(status, _) => CompleteGrows(codec, s, status);
    case _ =>
  }

  lemma DeltaBreaks(codec: Codec, a: Account, s: State, body: R.Body)
    requires Tracks(a, s) && Misplaced(a.cursor, body) && (body.ReasoningDelta? || body.ArgsDelta?)
    ensures ReadAll(Step(codec, s, body).out).phase == Broken
  {
    hide ReadAll, FromCallId, SeenCalls, StopFor, NextCalls;
    var e := BlockDelta(s.blockOf[body.index], if body.ArgsDelta? then JsonPiece(body.delta) else ThinkingPiece(body.delta));
    assert Step(codec, s, body).out == s.out + [e];
    hide Step;
    assert !(Owns(a.cursor.running, body.index) && a.cursor.running.Calling? && body.ArgsDelta?);
    BrokenByOne(s.out, e);
  }

  lemma StartBreaks(s: State, b: Block)
    requires !ReadAll(s.out).phase.Idle?
    ensures ReadAll(s.out + [BlockStart(s.block.index, b)]).phase == Broken
  {
    BrokenByOne(s.out, BlockStart(s.block.index, b));
    hide ReadAll;
  }

  /** The first event out of place breaks the block structure. */
  lemma MisplacedBreaks(codec: Codec, a: Account, s: State, body: R.Body)
    requires Tracks(a, s) && Misplaced(a.cursor, body)
    ensures ReadAll(Step(codec, s, body).out).phase == Broken
  {
    hide ReadAll, FromCallId, SeenCalls, StopFor, NextCalls, Placed;
    match body
    case ReasoningDelta(_, _, _) => DeltaBreaks(codec, a, s, body);
    case ArgsDelta(_, _, _, _, _) => DeltaBreaks(codec, a, s, body);
    case ItemAdded(index, item) =>
      StartBreaks(s, if IsCall(item) then ToolUseBlock(FromCallId(item.callId), item.name) else ThinkingBlock);
    case TextDelta(_, _, delta) =>
      StartBreaks(s, TextBlock);
      BrokenByOne(s.out + [BlockStart(s.block.index, TextBlock)], BlockDelta(s.block.index, TextPiece(delta)));
    case ArgsDone(_, _, _, _, args) => BrokenByOne(s.out, BlockDelta(s.block.index, JsonPiece(args)));
    case ItemDone(_, item) => SearchBreaks(s, item.id);
    case Terminal(status, _) =>
      var last := MessageDelta(StopFor(status, s.hasTool));
      BrokenByOne(s.out, last);
      BrokenByOne(s.out + [last], MessageStop);
  }

  lemma SearchBreaks(s: State, id: Id)
    requires !s.block.open && !ReadAll(s.out).phase.Idle?
    ensures ReadAll(SearchDone(s, id).out).phase == Broken
  {
    var n := s.block.index;
    BrokenByOne(s.out, BlockStart(n, ServerToolBlock(id)));
    BrokenStays(s.out + [BlockStart(n, ServerToolBlock(id))], SearchDone(s, id).out);
    hide ReadAll;
  }

  /** For all upstreams: the block structure of the translated stream is broken exactly when some
      event was out of place. */
  lemma {:induction false} WellFormedExactly(codec: Codec, events: seq<R.Event>)
    ensures var p := ReadAll(Run(codec, Initial(false), events).out).phase;
            && (p == Broken <==> exists i :: 0 <= i < |events| && MisplacedAt(events, i))
            && (p != Broken ==> InPhase(At(events), p))
  {
    if InPlace(events) {
      RunTracks(codec, events);
      TallyAt(codec, events);
      hide ReadAll, Run, Tally, At, InPlace, Misplaced, Placed;
    } else {
      hide ReadAll, Run, At, Misplaced;
      var i :| 0 <= i < |events| && MisplacedAt(events, i);
      BreaksFrom(codec, events, i);
    }
  }

  lemma LastBreaks(codec: Codec, events: seq<R.Event>, n: nat)
    requires |events| == n + 1 && InPlace(events[..n]) && MisplacedAt(events, n)
    ensures ReadAll(Run(codec, Initial(false), events).out).phase == Broken
  {
    var before := events[..n];
    RunTracks(codec, before);
    TallyAt(codec, before);
    hide ReadAll, Step, Tally, At, Misplaced, Tracks, InPlace;
    MisplacedBreaks(codec, Tally(codec, before), Run(codec, Initial(false), before), events[n].body);
  }

  lemma RunGrows(codec: Codec, events: seq<R.Event>, n: nat)
    requires |events| == n + 1
    ensures Run(codec, Initial(false), events[..n]).out <= Run(codec, Initial(false), events).out
  {
    NeverBuffered(codec, events[..n]);
    StepGrows(codec, Run(codec, Initial(false), events[..n]), events[n].body);
    hide Step;
  }

  lemma {:induction false} BreaksFrom(codec: Codec, events: seq<R.Event>, i: nat)
    requires i < |events| && MisplacedAt(events, i)
    ensures ReadAll(Run(codec, Initial(false), events).out).phase == Broken
  {
    var n := |events| - 1;
    hide ReadAll, Run, MisplacedAt;
    MisplacedBefore(events, n);
    if InPlace(events[..n]) {
      assert i == n;
      LastBreaks(codec, events, n);
    } else {
      var j :| 0 <= j < n && MisplacedAt(events[..n], j);
      BreaksFrom(codec, events[..n], j);
      RunGrows(codec, events, n);
      BrokenStays(Run(codec, Initial(false), events[..n]).out, Run(codec, Initial(false), events).out);
    }
  }

  lemma {:induction false} NeverBuffered(codec: Codec, events: seq<R.Event>)
    ensures !Run(codec, Initial(false), events).buffered
  {
    if events != [] {
      NeverBuffered(codec, events[..|events| - 1]);
      StepGrows(codec, Run(codec, Initial(false), events[..|events| - 1]), events[|events| - 1].body);
      hide Step;
    }
  }

  /** For every upstream whose stream is well formed, the client reads the words of the events, and
      the calls in the order announced, each with the JSON that was said for it; a stream that has
      ended gives the stop reason of the status. */
  lemma ClientReads(codec: Codec, events: seq<R.Event>)
    requires InPlace(events)
    ensures var a, out := Tally(codec, events), Run(codec, Initial(false), events).out;
            && a.cursor == At(events) && InPhase(a.cursor, ReadAll(out).phase) && ReadAll(out).calls == SeenCalls(a)
            && ReadAll(out).text == TextDeltas(events) && ReadAll(out).thinking == Thoughts(false, events)
            && (a.cursor.ended ==> EndsWith(out, a.status, a.calls != []))
  {
    RunTracks(codec, events);
    TallyAt(codec, events);
    EveryRunIsOutlined(codec, false, events);
    hide ReadAll, Run, Tally, At, Outline, TextDeltas, Thoughts, StopFor, Placed, InPlace;
  }
}

/** What the unbuffered client reads against what the events mean, and the smallest upstreams it
    does not serve. */
module UnbufferedCalls {
  import opened Text
  import R = ResponsesEvents
  import opened AnthropicEvents
  import S = ResponsesToAnthropicSpec
  import M = ResponsesMeaning
  import ChatFinish
  import opened UnbufferedStream

  /** While a call runs, deltas and closing arguments that name another item. */
  predicate Stray(c: Cursor, body: R.Body) {
    match body
    case ArgsDelta(index, _, delta, _, _) => delta != "" && c.running.Calling? && c.running.index != index
    case ArgsDone(index, _, _, _, _) => c.running.Calling? && c.running.index != index
    case _ => false
  }

  predicate StrayAt(events: seq<R.Event>, i: nat)
    requires i < |events|
  {
    Stray(At(events[..i]), events[i].body)
  }

  /** Nothing is out of place, and a running call is spoken of alone. */
  predicate InTurn(events: seq<R.Event>) {
    forall i :: 0 <= i < |events| ==> !MisplacedAt(events, i) && !StrayAt(events, i)
  }

  /** The closing arguments of each announced call; none for a call that was ended without. */
  function Closings(events: seq<R.Event>): seq<Option<string>> {
    if events == [] then [] else
    var before, e := events[..|events| - 1], events[|events| - 1];
    var closings := Closings(before);
    if M.Announces(e) then closings + [None]
    else if e.body.ArgsDone? && At(before).running.Calling? && closings != []
    then closings[..|closings| - 1] + [Some(e.body.args)]
    else closings
  }

  /** One call as it is shown: what was streamed, or else its closing arguments; `Read` shows
      nothing before it is closed, and then its cleaned arguments. */
  function Shown(codec: S.Codec, call: M.Call, closing: Option<string>): ToolUseCall {
    ToolUseCall(S.FromCallId(call.id), call.name,
      if call.name == "Read" then
        if closing.None? then "" else S.Sanitize(codec, "Read", if closing.value == "" then call.args else closing.value)
      else if call.args != "" || closing.None? then call.args
      else closing.value)
  }

  ghost predicate AllShown(codec: S.Codec, meant: seq<M.Call>, closings: seq<Option<string>>, seen: seq<ToolUseCall>) {
    && |seen| == |meant| == |closings|
    && forall j :: 0 <= j < |seen| ==> seen[j] == Shown(codec, meant[j], closings[j])
  }

  /** The running call is the latest one announced, and the one in force at its index. */
  ghost predicate Latest(events: seq<R.Event>, a: Account, meant: seq<M.Call>, closings: seq<Option<string>>)
    requires a.cursor.running.Calling?
  {
    var starts := M.Starts(events);
    && |meant| == |closings| == |starts| > 0
    && var last := meant[|meant| - 1];
       && a.call == Spoken(last.id, last.name, last.args) && closings[|closings| - 1] == None
       && M.Owner(events, a.cursor.running.index) == Some(starts[|starts| - 1])
       && a.cursor.touched == (last.name != "Read" && last.args != "") && a.cursor.running.read == (last.name == "Read")
       && a.cursor.afterCall
  }

  ghost predicate Means(codec: S.Codec, events: seq<R.Event>, a: Account) {
    var meant, closings := M.Calls(events), Closings(events);
    && AllShown(codec, meant, closings, SeenCalls(a)) && |meant| == |M.Starts(events)|
    && (a.cursor.running.Calling? ==> Latest(events, a, meant, closings))
    && (forall k :: M.Owner(events, k).Some? ==> k in a.cursor.known)
  }

  lemma ClosingsOne(events: seq<R.Event>, e: R.Event)
    ensures var before := Closings(events);
            Closings(events + [e]) ==
            if M.Announces(e) then before + [None]
            else if e.body.ArgsDone? && At(events).running.Calling? && before != []
            then before[..|before| - 1] + [Some(e.body.args)]
            else before
  {
    assert (events + [e])[..|events|] == events;
  }

  /** An event that says nothing of calls lets the running one go on, or ends it as it is. */
  predicate Continues(a: Account, b: Account) {
    && SeenCalls(b) == SeenCalls(a) && a.cursor.known <= b.cursor.known
    && (b.cursor.running.Calling? ==>
          b.cursor.running == a.cursor.running && b.call == a.call && b.cursor.touched == a.cursor.touched
          && b.cursor.afterCall == a.cursor.afterCall)
  }

  lemma QuietContinues(codec: S.Codec, a: Account, e: R.Event)
    requires !M.Announces(e) && !e.body.ArgsDelta? && !e.body.ArgsDone?
    ensures Continues(a, Advance(codec, a, e.body))
  {
    hide S.FromCallId, Closed, SeenCalls;
    var b := Advance(codec, a, e.body);
    SeenAfter(a, b);
    assert (b.calls == SeenCalls(a) && !b.cursor.running.Calling?) || (b.calls == a.calls && b.call == a.call && b.cursor.running == a.cursor.running);
  }

  lemma SeenAfter(a: Account, b: Account)
    ensures b.calls == SeenCalls(a) && !b.cursor.running.Calling? ==> SeenCalls(b) == SeenCalls(a)
    ensures b.calls == a.calls && b.call == a.call && b.cursor.running == a.cursor.running ==> SeenCalls(b) == SeenCalls(a)
    ensures !b.cursor.running.Calling? ==> SeenCalls(b) == b.calls
  {
    hide S.FromCallId;
  }

  lemma UnmovedMeans(codec: S.Codec, events: seq<R.Event>, a: Account, b: Account, e: R.Event)
    requires Means(codec, events, a) && Continues(a, b)
    requires !M.Announces(e) && (e.body.ArgsDelta? ==> e.body.delta == "" || M.Owner(events, e.body.index).None?)
    requires e.body.ArgsDone? ==> !At(events).running.Calling?
    ensures Means(codec, events + [e], b)
  {
    M.Unmoved(events, e);
    ClosingsOne(events, e);
    hide M.Calls, M.Starts, M.Owner, Closings, At, SeenCalls, AllShown;
  }

  lemma QuietMeans(codec: S.Codec, events: seq<R.Event>, a: Account, e: R.Event)
    requires Means(codec, events, a) && !M.Announces(e) && !e.body.ArgsDelta? && !e.body.ArgsDone?
    ensures Means(codec, events + [e], Advance(codec, a, e.body))
  {
    QuietContinues(codec, a, e);
    UnmovedMeans(codec, events, a, Advance(codec, a, e.body), e);
  }

  lemma AnnounceMeans(codec: S.Codec, events: seq<R.Event>, a: Account, e: R.Event)
    requires Means(codec, events, a) && M.Announces(e)
    ensures Means(codec, events + [e], Advance(codec, a, e.body))
  {
    M.Announced(events, e);
    ClosingsOne(events, e);
    hide M.Calls, M.Starts, M.Owner, Closings, At, S.FromCallId;
  }

  lemma DeltaMeans(codec: S.Codec, events: seq<R.Event>, a: Account, e: R.Event)
    requires Means(codec, events, a) && e.body.ArgsDelta? && a.cursor == At(events)
    requires !Misplaced(a.cursor, e.body) && !Stray(a.cursor, e.body)
    ensures Means(codec, events + [e], Advance(codec, a, e.body))
  {
    hide At, M.Owner;
    if e.body.delta != "" && a.cursor.running.Calling? {
      OwnDeltaMeans(codec, events, a, e);
    } else {
      assert a.call.deltas + "" == a.call.deltas;
      assert Continues(a, Advance(codec, a, e.body));
      UnmovedMeans(codec, events, a, Advance(codec, a, e.body), e);
    }
  }

  /** The last call is said again, with more. */
  lemma LastShown(codec: S.Codec, meant: seq<M.Call>, closings: seq<Option<string>>, calls: seq<ToolUseCall>,
                  x: ToolUseCall, m: M.Call, closing: Option<string>)
    requires AllShown(codec, meant, closings, calls + [x])
    ensures AllShown(codec, meant[|calls| := m], closings[|calls| := closing], calls + [Shown(codec, m, closing)])
  {
    hide Shown;
    var seen := calls + [x];
    assert forall j :: 0 <= j < |calls| ==> seen[j] == calls[j];
  }

  lemma DeltaParts(codec: S.Codec, a: Account, body: R.Body, m: M.Call)
    requires body.ArgsDelta? && body.delta != "" && a.cursor.running.Calling? && a.cursor.running.index == body.index
    requires a.call == Spoken(m.id, m.name, m.args) && a.cursor.running.read == (m.name == "Read") && a.cursor.afterCall
    requires a.cursor.touched == (m.name != "Read" && m.args != "")
    ensures var b, n, l := Advance(codec, a, body), |a.calls|, m.(args := m.args + body.delta);
            && b.cursor == a.cursor.(touched := m.name != "Read") && b.call == Spoken(l.id, l.name, l.args) && l.args != ""
            && SeenCalls(b) == a.calls + [Shown(codec, l, None)]
            && |SeenCalls(a)| == n + 1 && SeenCalls(a) == a.calls + [SeenCalls(a)[n]]
  {
    assert |m.args + body.delta| == |m.args| + |body.delta|;
    hide S.FromCallId;
  }

  lemma OwnDeltaMeans(codec: S.Codec, events: seq<R.Event>, a: Account, e: R.Event)
    requires Means(codec, events, a) && e.body.ArgsDelta? && a.cursor == At(events)
    requires e.body.delta != "" && a.cursor.running.Calling? && a.cursor.running.index == e.body.index
    ensures Means(codec, events + [e], Advance(codec, a, e.body))
  {
    hide M.Calls, M.Starts, M.Owner, Closings, At, Advance, Shown, SeenCalls;
    var b, n, m := Advance(codec, a, e.body), |a.calls|, M.Calls(events)[|M.Calls(events)| - 1];
    var l := m.(args := m.args + e.body.delta);
    DeltaParts(codec, a, e.body, m);
    assert |M.Calls(events)| == n + 1;
    M.Sent(events, e, n);
    ClosingsOne(events, e);
    LastShown(codec, M.Calls(events), Closings(events), a.calls, SeenCalls(a)[n], l, None);
    assert Closings(events)[n := None] == Closings(events);
    assert Latest(events + [e], b, M.Calls(events + [e]), Closings(events + [e]));
    hide AllShown, Latest;
  }

  lemma CloseMeans(codec: S.Codec, events: seq<R.Event>, a: Account, e: R.Event)
    requires Means(codec, events, a) && e.body.ArgsDone? && a.cursor == At(events)
    ensures Means(codec, events + [e], Advance(codec, a, e.body))
  {
    hide At, M.Owner;
    if a.cursor.running.Calling? {
      OwnCloseMeans(codec, events, a, e);
    } else {
      assert Continues(a, Advance(codec, a, e.body));
      UnmovedMeans(codec, events, a, Advance(codec, a, e.body), e);
    }
  }

  lemma ClosedIsShown(codec: S.Codec, a: Account, m: M.Call, args: string)
    requires a.call == Spoken(m.id, m.name, m.args) && a.cursor.touched == (m.name != "Read" && m.args != "")
    ensures Closed(codec, a, args) == Shown(codec, m, Some(args))
  {
    assert m.args + "" == m.args && "" + args == args;
    hide S.FromCallId, S.Sanitize;
  }

  lemma CloseParts(codec: S.Codec, a: Account, body: R.Body)
    requires body.ArgsDone? && a.cursor.running.Calling?
    ensures var b, n := Advance(codec, a, body), |a.calls|;
            && !b.cursor.running.Calling? && b.cursor.known == a.cursor.known
            && SeenCalls(b) == a.calls + [Closed(codec, a, body.args)]
            && |SeenCalls(a)| == n + 1 && SeenCalls(a) == a.calls + [SeenCalls(a)[n]]
  {
    hide S.FromCallId, Closed;
  }

  lemma OwnCloseMeans(codec: S.Codec, events: seq<R.Event>, a: Account, e: R.Event)
    requires Means(codec, events, a) && e.body.ArgsDone? && a.cursor == At(events) && a.cursor.running.Calling?
    ensures Means(codec, events + [e], Advance(codec, a, e.body))
  {
    hide M.Calls, M.Starts, M.Owner, Closings, At, Closed, Shown, SeenCalls, Advance;
    var b, n, closing := Advance(codec, a, e.body), |a.calls|, Some(e.body.args);
    var seen := SeenCalls(a);
    CloseParts(codec, a, e.body);
    M.Unmoved(events, e);
    ClosingsOne(events, e);
    var meant, closings := M.Calls(events), Closings(events);
    assert |meant| == |closings| == n + 1;
    ClosedIsShown(codec, a, meant[n], e.body.args);
    LastShown(codec, meant, closings, a.calls, seen[n], meant[n], closing);
    assert closings[n := closing] == closings[..n] + [closing] && meant[n := meant[n]] == meant;
    hide AllShown;
  }

  lemma {:induction false} AllMean(codec: S.Codec, events: seq<R.Event>)
    requires InTurn(events)
    ensures Means(codec, events, Tally(codec, events))
  {
    if events == [] {
      assert M.Calls([]) == [];
    } else {
      var n, before, e := |events| - 1, events[..|events| - 1], events[|events| - 1];
      TurnBefore(events, n);
      assert !MisplacedAt(events, n) && !StrayAt(events, n) && before + [e] == events;
      TallyAt(codec, before);
      hide Means, Advance, InTurn, Misplaced, Stray, At;
      AllMean(codec, before);
      var a := Tally(codec, before);
      if M.Announces(e) { AnnounceMeans(codec, before, a, e); }
      else if e.body.ArgsDelta? { DeltaMeans(codec, before, a, e); }
      else if e.body.ArgsDone? { CloseMeans(codec, before, a, e); }
      else { QuietMeans(codec, before, a, e); }
    }
  }

  lemma TurnBefore(events: seq<R.Event>, n: nat)
    requires n <= |events| && InTurn(events)
    ensures InTurn(events[..n])
  {
    forall i | 0 <= i < n ensures !MisplacedAt(events[..n], i) && !StrayAt(events[..n], i) {
      assert events[..n][..i] == events[..i];
      assert !MisplacedAt(events, i) && !StrayAt(events, i);
    }
  }

  /** One call as a client must see it: under its own identifier and name, with what was streamed
      or else the closing arguments; `Read` with its closing arguments, or else its deltas, without
      an empty `pages`, and with nothing before it is closed. */
  predicate CallTold(codec: S.Codec, call: M.Call, closing: Option<string>, seen: ToolUseCall) {
    && SameCall(call.id, seen.id) && seen.name == call.name
    && seen.json ==
       if call.name == "Read" then
         if closing.None? || (closing.value == "" && call.args == "") then ""
         else codec.dropEmptyPages(if closing.value == "" then call.args else closing.value)
       else if call.args != "" || closing.None? then call.args
       else closing.value
  }

  predicate CallsTold(codec: S.Codec, meant: seq<M.Call>, closings: seq<Option<string>>, seen: seq<ToolUseCall>) {
    && |seen| == |meant| == |closings|
    && forall j :: 0 <= j < |seen| ==> CallTold(codec, meant[j], closings[j], seen[j])
  }

  lemma ShownTold(codec: S.Codec, call: M.Call, closing: Option<string>)
    ensures CallTold(codec, call, closing, Shown(codec, call, closing))
  {
    S.FromCallIdShows(call.id);
    hide S.FromCallId, SameCall;
  }

  /** For every upstream that stays in turn, the calls read are the calls the events mean, in
      order, each with all that was streamed for it, or else its closing arguments. */
  lemma CallsMean(codec: S.Codec, events: seq<R.Event>)
    requires InTurn(events)
    ensures CallsTold(codec, M.Calls(events), Closings(events), ReadAll(S.Run(codec, S.Initial(false), events).out).calls)
  {
    AllMean(codec, events);
    assert InPlace(events) by {
      forall i | 0 <= i < |events| ensures !MisplacedAt(events, i) { assert !StrayAt(events, i); }
    }
    ClientReads(codec, events);
    hide M.Calls, Closings, ReadAll, S.Run, Tally, At, SeenCalls, Shown, CallTold;
    var meant, closings := M.Calls(events), Closings(events);
    forall j | 0 <= j < |meant| && |meant| == |closings| ensures CallTold(codec, meant[j], closings[j], Shown(codec, meant[j], closings[j])) {
      ShownTold(codec, meant[j], closings[j]);
    }
  }

  /** The calls are the announced ones, in order, under their own identifiers and names. */
  predicate IdsTold(announced: seq<M.Call>, seen: seq<ToolUseCall>) {
    |seen| == |announced| && forall j :: 0 <= j < |seen| ==> SameCall(announced[j].id, seen[j].id) && seen[j].name == announced[j].name
  }

  lemma {:induction false} TallyIds(codec: S.Codec, events: seq<R.Event>)
    ensures var a := Tally(codec, events);
            && IdsTold(ChatFinish.Announced(events), SeenCalls(a))
            && (a.cursor.running.Calling? ==> SeenCalls(a) == a.calls + [SeenCalls(a)[|a.calls|]] && SameCall(a.call.id, SeenCalls(a)[|a.calls|].id)
                                              && a.call.name == SeenCalls(a)[|a.calls|].name)
  {
    if events != [] {
      var before, e := events[..|events| - 1], events[|events| - 1];
      TallyIds(codec, before);
      AdvanceIds(codec, Tally(codec, before), e, ChatFinish.Announced(before));
      hide Advance;
    }
  }

  lemma AdvanceIds(codec: S.Codec, a: Account, e: R.Event, announced: seq<M.Call>)
    requires IdsTold(announced, SeenCalls(a))
    ensures var b := Advance(codec, a, e.body);
            var now := if ChatFinish.StartsCall(e) then announced + [M.Call(e.body.item.callId, e.body.item.name, "")] else announced;
            && IdsTold(now, SeenCalls(b))
            && (b.cursor.running.Calling? ==> SeenCalls(b) == b.calls + [SeenCalls(b)[|b.calls|]] && SameCall(b.call.id, SeenCalls(b)[|b.calls|].id)
                                              && b.call.name == SeenCalls(b)[|b.calls|].name)
  {
    var b := Advance(codec, a, e.body);
    S.FromCallIdShows(a.call.id);
    S.FromCallIdShows(b.call.id);
    hide S.FromCallId, SameCall, S.Sanitize;
    if !e.body.ArgsDelta? && !e.body.ArgsDone? && !M.Announces(e) { QuietContinues(codec, a, e); }
  }

  /** In place, every announced call is shown, in order, under its own identifier and name. */
  lemma EveryCallShown(codec: S.Codec, events: seq<R.Event>)
    requires InPlace(events)
    ensures IdsTold(ChatFinish.Announced(events), ReadAll(S.Run(codec, S.Initial(false), events).out).calls)
  {
    ClientReads(codec, events);
    TallyIds(codec, events);
    hide ReadAll, S.Run, Tally, SeenCalls, IdsTold, InPlace, ChatFinish.Announced;
  }

  // ---- the smallest upstreams that are not served well -----------------------------------------

  lemma AtOne(events: seq<R.Event>, e: R.Event)
    ensures At(events + [e]) == Move(At(events), e.body)
  {
    assert (events + [e])[..|events|] == events;
  }

  function Plain(body: R.Body): R.Event {
    R.Event(0, body)
  }

  /** One event more, out of place, breaks the stream. */
  lemma OneMoreBreaks(codec: S.Codec, events: seq<R.Event>, e: R.Event)
    requires Misplaced(At(events), e.body)
    ensures ReadAll(S.Run(codec, S.Initial(false), events + [e]).out).phase == Broken
  {
    var all := events + [e];
    assert all[..|events|] == events && all[|events|] == e;
    assert MisplacedAt(all, |events|);
    hide At, Misplaced;
    WellFormedExactly(codec, all);
  }

  /** Two calls whose deltas interleave: the first delta for the first call, once the second has
      been announced. */
  lemma InterleavedCallsBreak(codec: S.Codec, first: R.Item, second: R.Item, delta: string)
    requires IsCall(first) && IsCall(second) && second.name != "Read" && delta != ""
    ensures var events := [Plain(R.Created)] + [Plain(R.ItemAdded(0, first))] + [Plain(R.ItemAdded(1, second))]
                          + [Plain(R.ArgsDelta(0, R.NoId, delta, R.NoId, ""))];
            ReadAll(S.Run(codec, S.Initial(false), events).out).phase == Broken
  {
    var a, b, c := Plain(R.Created), Plain(R.ItemAdded(0, first)), Plain(R.ItemAdded(1, second));
    AtOne([], a);
    AtOne([a], b);
    AtOne([a] + [b], c);
    assert [] + [a] == [a];
    OneMoreBreaks(codec, [a] + [b] + [c], Plain(R.ArgsDelta(0, R.NoId, delta, R.NoId, "")));
  }

  /** A reasoning item with two summary parts. */
  lemma SecondSummaryBreaks(codec: S.Codec, item: R.Item, text: string, delta: string)
    requires item.kind.Reasoning? && delta != ""
    ensures var events := [Plain(R.Created)] + [Plain(R.ItemAdded(0, item))] + [Plain(R.SummaryTextDone(0, R.NoId, text))]
                          + [Plain(R.ReasoningDelta(0, R.NoId, delta))];
            ReadAll(S.Run(codec, S.Initial(false), events).out).phase == Broken
  {
    var a, b, c := Plain(R.Created), Plain(R.ItemAdded(0, item)), Plain(R.SummaryTextDone(0, R.NoId, text));
    AtOne([], a);
    AtOne([a], b);
    AtOne([a] + [b], c);
    assert [] + [a] == [a];
    OneMoreBreaks(codec, [a] + [b] + [c], Plain(R.ReasoningDelta(0, R.NoId, delta)));
  }

  /** A call whose item is reported done before its arguments are. */
  lemma LateArgumentsBreak(codec: S.Codec, item: R.Item, done: R.Item, args: string)
    requires IsCall(item) && !done.kind.Absent? && args != ""
    ensures var events := [Plain(R.Created)] + [Plain(R.ItemAdded(0, item))] + [Plain(R.ItemDone(0, done))]
                          + [Plain(R.ArgsDone(0, R.NoId, R.NoId, "", args))];
            ReadAll(S.Run(codec, S.Initial(false), events).out).phase == Broken
  {
    var a, b, c := Plain(R.Created), Plain(R.ItemAdded(0, item)), Plain(R.ItemDone(0, done));
    AtOne([], a);
    AtOne([a], b);
    AtOne([a] + [b], c);
    assert [] + [a] == [a];
    OneMoreBreaks(codec, [a] + [b] + [c], Plain(R.ArgsDone(0, R.NoId, R.NoId, "", args)));
  }

  /** A running call of `Read` takes the delta of another call for its own: the stream stays well
      formed, but the other call is shown empty and `Read` with arguments not meant for it. */
  lemma ReadSwallows(codec: S.Codec, first: R.Item, second: R.Item, delta: string)
    requires IsCall(first) && IsCall(second) && first.name != "Read" && second.name == "Read" && delta != ""
    ensures var events := [Plain(R.Created)] + [Plain(R.ItemAdded(0, first))] + [Plain(R.ItemAdded(1, second))]
                          + [Plain(R.ArgsDelta(0, R.NoId, delta, R.NoId, ""))] + [Plain(R.ArgsDone(1, R.NoId, R.NoId, "", ""))];
            var r := ReadAll(S.Run(codec, S.Initial(false), events).out);
            && r.phase.Idle?
            && |r.calls| == 2 && r.calls[0].name == first.name && r.calls[0].json == ""
            && r.calls[1].name == "Read" && r.calls[1].json == codec.dropEmptyPages(delta)
  {
    var a, b, c := Plain(R.Created), Plain(R.ItemAdded(0, first)), Plain(R.ItemAdded(1, second));
    var d, e := Plain(R.ArgsDelta(0, R.NoId, delta, R.NoId, "")), Plain(R.ArgsDone(1, R.NoId, R.NoId, "", ""));
    hide ReadAll, S.Run, S.FromCallId, S.TextDeltas, S.Thoughts, At;
    var events := [a] + [b] + [c] + [d] + [e];
    SwallowSteps(codec, first, second, delta);
    ClientReads(codec, events);
  }

  lemma SwallowSteps(codec: S.Codec, first: R.Item, second: R.Item, delta: string)
    requires IsCall(first) && IsCall(second) && first.name != "Read" && second.name == "Read" && delta != ""
    ensures var events := [Plain(R.Created)] + [Plain(R.ItemAdded(0, first))] + [Plain(R.ItemAdded(1, second))]
                          + [Plain(R.ArgsDelta(0, R.NoId, delta, R.NoId, ""))] + [Plain(R.ArgsDone(1, R.NoId, R.NoId, "", ""))];
            var a := Tally(codec, events);
            && InPlace(events) && a.cursor == Cursor(true, false, Nothing, {0, 1}, true, false)
            && a.calls == [ToolUseCall(S.FromCallId(first.callId), first.name, ""),
                           ToolUseCall(S.FromCallId(second.callId), "Read", S.Sanitize(codec, "Read", delta))]
  {
    var a, b, c := Plain(R.Created), Plain(R.ItemAdded(0, first)), Plain(R.ItemAdded(1, second));
    var d, e := Plain(R.ArgsDelta(0, R.NoId, delta, R.NoId, "")), Plain(R.ArgsDone(1, R.NoId, R.NoId, "", ""));
    hide S.FromCallId, S.Sanitize, InPlace;
    assert InPlace([]) by { NothingInPlace(); }
    OneMoreInPlace(codec, [], a);
    assert [] + [a] == [a];
    OneMoreInPlace(codec, [a], b);
    OneMoreInPlace(codec, [a] + [b], c);
    OneMoreInPlace(codec, [a] + [b] + [c], d);
    assert "" + delta == delta;
    OneMoreInPlace(codec, [a] + [b] + [c] + [d], e);
  }

  lemma NothingInPlace()
    ensures InPlace([])
  {
  }

  lemma OneMoreInPlace(codec: S.Codec, events: seq<R.Event>, e: R.Event)
    ensures Tally(codec, events + [e]) == Advance(codec, Tally(codec, events), e.body)
    ensures InPlace(events) && !Misplaced(Tally(codec, events).cursor, e.body) ==> InPlace(events + [e])
  {
    var all := events + [e];
    assert all[..|events|] == events;
    TallyAt(codec, events);
    MisplacedBefore(all, |events|);
    hide At, Misplaced, Advance;
  }
}

/** The pump that serves a Responses upstream to an Anthropic client, call by call. */
module ResponsesToAnthropicPump {
  import opened Text
  import R = ResponsesEvents
  import opened AnthropicEvents
  import S = ResponsesToAnthropicSpec
  import Sse
  import M = ResponsesMeaning
  import ChatFinish
  import opened UnbufferedStream
  import opened UnbufferedCalls
  import ResponsesToAnthropic

  ghost function Delivered(codec: S.Codec, events: seq<R.Event>, broken: bool): seq<Event> {
    var s := S.Run(codec, S.Initial(false), events);
    if s.stopped && !broken then s.out else s.out + [Error(Interrupted)]
  }

  method PumpResponsesToAnthropic(codec: S.Codec, decode: R.Decoder, lines: seq<string>, broken: bool)
    returns (written: seq<Event>)
    ensures written == Delivered(codec, R.Events(decode, lines), broken)
  {
    var state := new ResponsesToAnthropic.StreamState(codec, false);
    written := [];
    assert lines[..0] == [];
    hide S.Step;
    for n := 0 to |lines|
      invariant fresh(state) && state.codec == codec
      invariant state.Abs(written) == S.Run(codec, S.Initial(false), R.Events(decode, lines[..n]))
    {
      assert lines[..n + 1][..n] == lines[..n];
      var data := Sse.Data(lines[n]);
      if data.None? { continue; }
      var e := decode(data.value);
      if e.None? { continue; }
      ghost var events := R.Events(decode, lines[..n]);
      written := state.Convert(written, e.value.body);
      S.RunOne(codec, S.Initial(false), events, e.value);
    }
    assert lines[..|lines|] == lines;
    if !state.messageStopSent || broken {
      written := written + [Error(Interrupted)];
      return;
    }
    written := state.Finalize(written);
  }

  /** What the client receives, whatever the upstream: every word, in a stream that is well formed
      exactly when nothing was out of place and the connection held after the end; one error unless
      the upstream came to its end; and, in place, the calls as they were said. */
  lemma PumpTheorem(codec: S.Codec, events: seq<R.Event>, broken: bool)
    ensures var a, out := Tally(codec, events), Delivered(codec, events, broken);
            var r := ReadAll(out);
            && r.phase == (if !InPlace(events) then Broken else if !a.cursor.ended then Phase.Failed
                           else if broken then Broken else Phase.Complete)
            && r.text == S.TextDeltas(events) && r.thinking == S.Thoughts(false, events)
            && (InPlace(events) ==> r.calls == SeenCalls(a) && IdsTold(ChatFinish.Announced(events), r.calls))
            && (InTurn(events) ==> CallsTold(codec, M.Calls(events), Closings(events), r.calls))
            && (InPlace(events) && a.cursor.ended && !broken ==> EndsWith(out, a.status, a.calls != []))
  {
    hide ReadAll, S.Run, Tally, S.TextDeltas, S.Thoughts, S.StopFor, InPlace, InTurn, CallsTold, IdsTold, ChatFinish.Announced, Closings, M.Calls, SeenCalls, EndsWith;
    var s := S.Run(codec, S.Initial(false), events);
    AfterError(s.out);
    S.EveryRunIsOutlined(codec, false, events);
    if InPlace(events) {
      ClientReads(codec, events);
      EveryCallShown(codec, events);
      Stopped(codec, events);
    } else {
      OutOfPlace(codec, events);
    }
    if InTurn(events) { CallsMean(codec, events); }
  }

  lemma AfterError(out: seq<Event>)
    ensures ReadAll(out + [Error(Interrupted)]) == ReadAll(out).(phase := Read(ReadAll(out).phase, Error(Interrupted)))
  {
    hide ReadAll;
    ReadOne(out, Error(Interrupted));
    assert ReadAll(out).text + "" == ReadAll(out).text && ReadAll(out).thinking + "" == ReadAll(out).thinking;
  }

  lemma Stopped(codec: S.Codec, events: seq<R.Event>)
    requires InPlace(events)
    ensures var c := Tally(codec, events).cursor;
            S.Run(codec, S.Initial(false), events).stopped == c.ended && (c.ended ==> c.created)
  {
    RunTracks(codec, events);
    hide S.Run, Tally, Placed, Reads, InPlace;
  }

  lemma OutOfPlace(codec: S.Codec, events: seq<R.Event>)
    requires !InPlace(events)
    ensures ReadAll(S.Run(codec, S.Initial(false), events).out).phase == Broken
  {
    hide ReadAll, S.Run, MisplacedAt;
    WellFormedExactly(codec, events);
  }
}
