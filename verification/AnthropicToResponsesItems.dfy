/** What the items of a translated Anthropic stream are, read off the upstream events alone. */
module AnthropicToResponsesItems {
  import opened Text
  import opened ResponsesEvents
  import A = AnthropicEvents
  import opened S = AnthropicToResponsesSpec

  /** An item as the upstream means it. */
  datatype Piece = Piece(kind: ItemKind, callId: Id, name: string, content: string)

  /** The events that frame the deltas of an item. */
  datatype Sign = Opened(kind: ItemKind) | Part(kind: ItemKind) | Ended(kind: ItemKind) | PartEnded(kind: ItemKind) | Reported(kind: ItemKind)

  /** The items meant so far, whether the last of them still gathers, every word sent, and the
      events that frame them. */
  datatype Meant = Meant(items: seq<Piece>, open: bool, text: string, thinking: string, json: string, signs: seq<Sign>)

  predicate Gathers(m: Meant, kind: ItemKind) {
    m.open && m.items != [] && m.items[|m.items| - 1].kind == kind
  }

  function Signed(m: Meant, signs: seq<Sign>): Meant {
    m.(signs := m.signs + signs)
  }

  /** The open item is over and reported. */
  function Close(m: Meant): Meant {
    if !m.open || m.items == [] then m.(open := false)
    else Signed(m.(open := false), [Reported(m.items[|m.items| - 1].kind)])
  }

  function Begin(m: Meant, item: Piece): Meant {
    var c := Close(m);
    Signed(c.(items := c.items + [item], open := true), [Opened(item.kind)])
  }

  /** The stop of a block ends the text, the thinking or the arguments; a message stays open. */
  function MeantStop(m: Meant): Meant {
    if Gathers(m, Message) then Signed(m, [Ended(Message), PartEnded(Message)])
    else if Gathers(m, Reasoning) then Close(Signed(m, [Ended(Reasoning), PartEnded(Reasoning)]))
    else if Gathers(m, FunctionCall) then Close(Signed(m, [Ended(FunctionCall)]))
    else m
  }

  function MeantStart(m: Meant, block: A.Block): Meant {
    match block
    case TextBlock => if Gathers(m, Message) then m else Signed(Begin(m, Piece(Message, NoId, "", "")), [Part(Message)])
    case ThinkingBlock => Signed(Begin(m, Piece(Reasoning, NoId, "", "")), [Part(Reasoning)])
    case ToolUseBlock(id, name) => Begin(m, Piece(FunctionCall, id, name, ""))
    case _ => m
  }

  /** A delta of a kind that the open item does not gather ends up in no item. */
  function Gather(m: Meant, kind: ItemKind, more: string): Meant {
    if !Gathers(m, kind) then m else
    var n := |m.items| - 1;
    m.(items := m.items[..n] + [m.items[n].(content := m.items[n].content + more)])
  }

  function MeantDelta(m: Meant, delta: A.Delta): Meant {
    match delta
    case TextPiece(d) => Gather(m, Message, d).(text := m.text + d)
    case ThinkingPiece(d) => Gather(m, Reasoning, d).(thinking := m.thinking + d)
    case JsonPiece(d) => Gather(m, FunctionCall, d).(json := m.json + d)
  }

  /** A text block that follows another joins its message, even across the stop between them; any
      other block is an item of its own, and its stop ends it. */
  ghost function Meaning(inputs: seq<Input>): Meant {
    if inputs == [] then Meant([], false, "", "", "", []) else
    var before, e := inputs[..|inputs| - 1], inputs[|inputs| - 1];
    var m := Meaning(before);
    match e
    case BlockStart(Some(block)) => MeantStart(m, block)
    case BlockDelta(Some(delta)) => if InsideDropped(before) then m else MeantDelta(m, delta)
    case BlockStop => if InsideDropped(before) then m else MeantStop(m)
    case MessageStop => if Stopped(before) then m else Close(m)
    case _ => m
  }

  /** The items reported done. */
  function Done(out: seq<Event>): seq<Piece> {
    if out == [] then [] else
    var e := out[|out| - 1].body;
    Done(out[..|out| - 1]) +
    if e.ItemDone? then [Piece(e.item.kind, e.item.callId, e.item.name, if e.item.kind.FunctionCall? then e.item.args else e.item.text)]
    else []
  }

  /** Every word of the deltas, by kind and whatever item they are addressed to. */
  function Words(out: seq<Event>, kind: ItemKind): string {
    if out == [] then "" else
    Words(out[..|out| - 1], kind) +
    match out[|out| - 1].body
    case TextDelta(_, _, d) => if kind.Message? then d else ""
    case ReasoningDelta(_, _, d) => if kind.Reasoning? then d else ""
    case ArgsDelta(_, _, d, _, _) => if kind.FunctionCall? then d else ""
    case _ => ""
  }

  function SignsOf(body: Body): seq<Sign> {
    match body
    case ItemAdded(_, item) => [Opened(item.kind)]
    case PartAdded(_, _) => [Part(Message)]
    case SummaryPartAdded(_, _) => [Part(Reasoning)]
    case TextDone(_, _, _) => [Ended(Message)]
    case SummaryTextDone(_, _, _) => [Ended(Reasoning)]
    case ArgsDone(_, _, _, _, _) => [Ended(FunctionCall)]
    case PartDone(_, _, _) => [PartEnded(Message)]
    case SummaryPartDone(_, _, _) => [PartEnded(Reasoning)]
    case ItemDone(_, item) => [Reported(item.kind)]
    case _ => []
  }

  function Signs(out: seq<Event>): seq<Sign> {
    if out == [] then [] else Signs(out[..|out| - 1]) + SignsOf(out[|out| - 1].body)
  }

  predicate SaysAll(out: seq<Event>, m: Meant) {
    Words(out, Message) == m.text && Words(out, Reasoning) == m.thinking && Words(out, FunctionCall) == m.json &&
    Signs(out) == m.signs
  }

  /** The translator has reported all the items meant but the open one, which it gathers. */
  predicate Holds(s: State, m: Meant) {
    && (s.current.kind in {Absent, Message, Reasoning, FunctionCall}) && (m.open <==> !s.current.kind.Absent?)
    && (m.open ==> m.items != []) && (!m.open ==> s.current == NOTHING) && SaysAll(s.out, m)
    && (if m.open
        then m.items == Done(s.out) + [Piece(s.current.kind, s.current.callId, s.current.name, Gathered(s.current, s.buffers))] &&
             (!s.current.kind.FunctionCall? ==> s.current.callId == NoId && s.current.name == "")
        else m.items == Done(s.out))
  }

  lemma Emitted(s: State, body: Body)
    ensures var out := Emit(s, body).out;
            && Done(out) == (if !body.ItemDone? then Done(s.out) else
                 Done(s.out) + [Piece(body.item.kind, body.item.callId, body.item.name,
                                      if body.item.kind.FunctionCall? then body.item.args else body.item.text)])
            && Words(out, Message) == (if body.TextDelta? then Words(s.out, Message) + body.delta else Words(s.out, Message))
            && Words(out, Reasoning) == (if body.ReasoningDelta? then Words(s.out, Reasoning) + body.delta else Words(s.out, Reasoning))
            && Words(out, FunctionCall) == (if body.ArgsDelta? then Words(s.out, FunctionCall) + body.delta else Words(s.out, FunctionCall))
            && Signs(out) == (if SignsOf(body) == [] then Signs(s.out) else Signs(s.out) + SignsOf(body))
  {
    assert (s.out + [Event(s.counters.seqNo, body)])[..|s.out|] == s.out;
    assert Done(s.out) + [] == Done(s.out);
    assert forall kind :: Words(s.out, kind) + "" == Words(s.out, kind);
  }

  /** An event that is neither a delta nor a report of an item is only a sign. */
  lemma Unseen(s: State, body: Body, m: Meant)
    requires Holds(s, m) && !body.ItemDone? && !body.TextDelta? && !body.ReasoningDelta? && !body.ArgsDelta?
    ensures Holds(Emit(s, body), Signed(m, SignsOf(body)))
  {
    hide Done, Words, Signs;
    Emitted(s, body);
    assert m.signs + [] == m.signs;
  }

  lemma Closes(s: State, m: Meant)
    requires Holds(s, m)
    ensures Holds(CloseItem(s), Close(m)) && CloseItem(s).current == NOTHING
  {
    hide Done, Words, Signs;
    if !s.current.kind.Absent? {
      Emitted(s.(current := NOTHING, buffers := Buffers("", "", ""), counters := s.counters.(index := s.counters.index + 1)),
              ItemDone(s.counters.index, ItemOf(s.current, Gathered(s.current, s.buffers), true)));
    }
  }

  lemma Opens(s: State, m: Meant, kind: ItemKind, callId: Id, name: string)
    requires Holds(s, m) && kind in {Message, Reasoning, FunctionCall}
    requires !kind.FunctionCall? ==> callId == NoId && name == ""
    ensures Holds(OpenItem(s, kind, callId, name), Begin(m, Piece(kind, callId, name, "")))
  {
    hide Done, Words, Signs;
    Closes(s, m);
    var t := CloseItem(s);
    hide CloseItem;
    var c := Current(kind, Fresh(t.counters.serial), callId, name);
    var b := if kind.Message? then t.buffers.(text := "") else if kind.Reasoning? then t.buffers.(reasoning := "") else t.buffers.(args := "");
    Emitted(t.(current := c, buffers := b, counters := t.counters.(serial := t.counters.serial + 1)),
            ItemAdded(t.counters.index, ItemOf(c, "", false)));
  }

  function Word(delta: A.Delta): string {
    match delta
    case TextPiece(d) => d
    case ThinkingPiece(d) => d
    case JsonPiece(d) => d
  }

  lemma NothingMore(m: Meant, delta: A.Delta)
    requires Word(delta) == ""
    ensures MeantDelta(m, delta) == m
  {
    assert m.text + "" == m.text && m.thinking + "" == m.thinking && m.json + "" == m.json;
    if m.items != [] {
      var n := |m.items| - 1;
      assert m.items[n].content + "" == m.items[n].content;
    }
  }

  /** Only the open item gathers, and only what is of its kind. */
  lemma GatherLast(m: Meant, done: seq<Piece>, last: Piece)
    requires m.open ==> m.items == done + [last]
    ensures forall kind, more :: Gather(m, kind, more) ==
              if m.open && last.kind == kind then m.(items := done + [last.(content := last.content + more)]) else m
  {
  }

  lemma AddsText(s: State, m: Meant, d: string)
    requires Holds(s, m)
    ensures Holds(Emit(s.(buffers := s.buffers.(text := s.buffers.text + d)), TextDelta(s.counters.index, s.current.id, d)),
                  MeantDelta(m, A.TextPiece(d)))
  {
    hide Done, Words, Signs, Gather;
    GatherLast(m, Done(s.out), Piece(s.current.kind, s.current.callId, s.current.name, Gathered(s.current, s.buffers)));
    Emitted(s.(buffers := s.buffers.(text := s.buffers.text + d)), TextDelta(s.counters.index, s.current.id, d));
  }

  lemma AddsThinking(s: State, m: Meant, d: string)
    requires Holds(s, m)
    ensures Holds(Emit(s.(buffers := s.buffers.(reasoning := s.buffers.reasoning + d)), ReasoningDelta(s.counters.index, s.current.id, d)),
                  MeantDelta(m, A.ThinkingPiece(d)))
  {
    hide Done, Words, Signs, Gather;
    GatherLast(m, Done(s.out), Piece(s.current.kind, s.current.callId, s.current.name, Gathered(s.current, s.buffers)));
    Emitted(s.(buffers := s.buffers.(reasoning := s.buffers.reasoning + d)), ReasoningDelta(s.counters.index, s.current.id, d));
  }

  lemma AddsJson(s: State, m: Meant, d: string)
    requires Holds(s, m)
    ensures Holds(Emit(s.(buffers := s.buffers.(args := s.buffers.args + d)), ArgsDelta(s.counters.index, s.current.id, d, s.current.callId, s.current.name)),
                  MeantDelta(m, A.JsonPiece(d)))
  {
    hide Done, Words, Signs, Gather;
    GatherLast(m, Done(s.out), Piece(s.current.kind, s.current.callId, s.current.name, Gathered(s.current, s.buffers)));
    Emitted(s.(buffers := s.buffers.(args := s.buffers.args + d)), ArgsDelta(s.counters.index, s.current.id, d, s.current.callId, s.current.name));
  }

  lemma Adds(s: State, m: Meant, delta: A.Delta)
    requires Holds(s, m) && !s.skipping
    ensures Holds(AddDelta(s, delta), MeantDelta(m, delta))
  {
    hide Holds, MeantDelta;
    if Word(delta) == "" {
      NothingMore(m, delta);
    } else {
      match delta
      case TextPiece(d) => AddsText(s, m, d);
      case ThinkingPiece(d) => AddsThinking(s, m, d);
      case JsonPiece(d) => AddsJson(s, m, d);
    }
  }

  lemma Starts(s: State, m: Meant, block: A.Block)
    requires Holds(s, m)
    ensures Holds(StartBlock(s, block), MeantStart(m, block))
  {
    hide Done, Words, Signs;
    match block
    case ThinkingBlock =>
      Opens(s, m, Reasoning, NoId, "");
      var t := OpenItem(s, Reasoning, NoId, "");
      hide OpenItem, SaysAll;
      Unseen(t, SummaryPartAdded(t.counters.index, t.current.id), Begin(m, Piece(Reasoning, NoId, "", "")));
    case TextBlock =>
      if !s.current.kind.Message? {
        Opens(s, m, Message, NoId, "");
        var t := OpenItem(s, Message, NoId, "");
        hide OpenItem, SaysAll;
        Unseen(t, PartAdded(t.counters.index, t.current.id), Begin(m, Piece(Message, NoId, "", "")));
      }
    case ToolUseBlock(id, name) =>
      Opens(s, m, FunctionCall, id, name);
    case _ =>
  }

  lemma SignedTwice(m: Meant, a: Sign, b: Sign)
    ensures Signed(Signed(m, [a]), [b]) == Signed(m, [a, b])
  {
  }

  lemma Stops(s: State, m: Meant)
    requires Holds(s, m) && !s.skipping
    ensures Holds(StopBlock(s), MeantStop(m))
  {
    hide Done, Words, Signs, SaysAll;
    var i, c := s.counters.index, s.current;
    match c.kind
    case Reasoning =>
      var a, b := SummaryTextDone(i, c.id, s.buffers.reasoning), SummaryPartDone(i, c.id, s.buffers.reasoning);
      Unseen(s, a, m);
      Unseen(Emit(s, a), b, Signed(m, [Ended(Reasoning)]));
      SignedTwice(m, Ended(Reasoning), PartEnded(Reasoning));
      Closes(Emit(Emit(s, a), b), Signed(m, [Ended(Reasoning), PartEnded(Reasoning)]));
      hide CloseItem;
    case FunctionCall =>
      var a := ArgsDone(i, c.id, c.callId, c.name, s.buffers.args);
      Unseen(s, a, m);
      Closes(Emit(s, a), Signed(m, [Ended(FunctionCall)]));
      hide CloseItem;
    case Message =>
      var a, b := TextDone(i, c.id, s.buffers.text), PartDone(i, c.id, s.buffers.text);
      Unseen(s, a, m);
      Unseen(Emit(s, a), b, Signed(m, [Ended(Message)]));
      SignedTwice(m, Ended(Message), PartEnded(Message));
    case _ =>
  }

  lemma Ends(s: State, m: Meant)
    requires Holds(s, m)
    ensures Holds(Stop(s), if s.completed then m else Close(m))
  {
    hide Done, Words, Signs, SaysAll;
    Closes(s, m);
    Unseen(CloseItem(s), Terminal(Some(Completed), []), Close(m));
    assert Signed(Close(m), []) == Close(m);
    hide CloseItem;
  }

  lemma {:induction false} RunHolds(inputs: seq<Input>)
    ensures Holds(Run(INITIAL, inputs), Meaning(inputs))
  {
    if inputs != [] {
      hide InsideDropped, Stopped, Holds, StartBlock, AddDelta, StopBlock, Stop, MeantStart, MeantDelta, MeantStop, Close;
      var before, e := inputs[..|inputs| - 1], inputs[|inputs| - 1];
      var s, m := Run(INITIAL, before), Meaning(before);
      RunHolds(before);
      SkippingMeans(before);
      StoppedMeans(before);
      match e
      case MessageStart => Untouched(s, m);
      case BlockStart(Some(block)) => Starts(s, m, block);
      case BlockDelta(Some(delta)) => if !s.skipping { Adds(s, m, delta); } else { Skips(s, delta); }
      case BlockStop => if !s.skipping { Stops(s, m); } else { Untouched(s, m); }
      case MessageStop => Ends(s, m);
      case _ =>
    }
  }

  lemma Skips(s: State, delta: A.Delta)
    requires s.skipping
    ensures AddDelta(s, delta) == s
  {
  }

  /** Neither the start of the message nor the end of a dropped block shows in an item. */
  lemma Untouched(s: State, m: Meant)
    requires Holds(s, m)
    ensures Holds(if s.created then s else Emit(s.(created := true), Created), m)
    ensures s.skipping ==> Holds(StopBlock(s), m)
  {
    hide Done, Words, Signs, SaysAll;
    Unseen(s.(created := true), Created, m);
    assert Signed(m, []) == m;
  }

  /** For every event list: the items reported done are exactly those the upstream meant, in
      order, each with its call and its content; only the item that still gathers is missing. Every
      word outside the dropped blocks arrives, and the events that frame the items are all there, in
      the order of the blocks. Once the message has stopped, or the synthetic end of a stream that
      began has been written, nothing is missing. */
  lemma ItemsTheorem(inputs: seq<Input>)
    ensures var out, m := Run(INITIAL, inputs).out, Meaning(inputs);
            && (m.open ==> m.items != [])
            && Done(out) == (if m.open then m.items[..|m.items| - 1] else m.items)
            && SaysAll(out, m)
    ensures Started(inputs) && !Stopped(inputs) ==>
              var out := Finalize(Run(INITIAL, inputs)).out; Done(out) == Meaning(inputs).items && SaysAll(out, Close(Meaning(inputs)))
  {
    hide Run, Meaning, Done, Words, Signs, Stopped, Started, Stop;
    var s, m := Run(INITIAL, inputs), Meaning(inputs);
    RunHolds(inputs);
    StoppedMeans(inputs);
    Ends(s, m);
  }
}
