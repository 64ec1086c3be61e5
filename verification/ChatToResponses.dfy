/** What one Chat Completions chunk does to the Responses stream, on values.
    A chunk is a list of choices; a choice is read as the fragments it carries, in
    the order in which the translator looks at them. */
module ChatToResponsesSpec {
  import opened Text
  import opened ResponsesEvents

  datatype ToolFragment = ToolFragment(index: Option<int>, id: string, name: string, args: string) {
    /** An absent upstream index reads as 0. */
    function Slot(): int {
      if index.Some? then index.value else 0
    }
  }

  /** The empty string stands for an absent field as well: the source treats both alike. */
  datatype Choice = Choice(reasoning: string, content: string, tools: seq<ToolFragment>, finish: string)

  datatype Chunk = Chunk(choices: seq<Choice>)

  datatype Fragment =
    | Reason(text: string)
    | Content(text: string)
    | Tool(call: ToolFragment)
    | Finish(reason: string)

  function ToolFragments(tools: seq<ToolFragment>): seq<Fragment> {
    if tools == [] then [] else ToolFragments(tools[..|tools| - 1]) + [Tool(tools[|tools| - 1])]
  }

  function ChoiceFragments(c: Choice): seq<Fragment> {
    (if c.reasoning != "" then [Reason(c.reasoning)] else []) +
    (if c.content != "" then [Content(c.content)] else []) +
    ToolFragments(c.tools) +
    (if c.finish != "" then [Finish(c.finish)] else [])
  }

  function Fragments(choices: seq<Choice>): seq<Fragment> {
    if choices == [] then [] else Fragments(choices[..|choices| - 1]) + ChoiceFragments(choices[|choices| - 1])
  }

  function AllFragments(chunks: seq<Chunk>): seq<Fragment> {
    if chunks == [] then [] else AllFragments(chunks[..|chunks| - 1]) + Fragments(chunks[|chunks| - 1].choices)
  }

  lemma OneMore(chunks: seq<Chunk>, c: Choice)
    ensures AllFragments(chunks + [Chunk([c])]) == AllFragments(chunks) + ChoiceFragments(c)
  {
    var all := chunks + [Chunk([c])];
    assert all[..|all| - 1] == chunks && all[|all| - 1] == Chunk([c]);
    assert [c][..0] == [];
    assert Fragments([c]) == Fragments([]) + ChoiceFragments(c);
    assert Fragments([]) == [];
  }

  lemma OneTool(t: ToolFragment)
    ensures ToolFragments([t]) == [Tool(t)] && ToolFragments([]) == []
  {
    assert [t][..0] == [];
  }

  datatype ToolCall = ToolCall(id: Id, name: string, args: string)

  datatype Counters = Counters(seqNo: nat, nextIndex: nat, serial: nat)

  /** The reasoning item: opened before its first delta, closed before anything else opens. */
  datatype ReasoningPart = ReasoningPart(id: Id, index: nat, open: bool, done: bool, text: string)

  datatype MessagePart = MessagePart(id: Id, index: nat, partOpen: bool, text: string)

  /** Tool calls, keyed by the upstream index. */
  datatype ToolTable = ToolTable(calls: map<int, ToolCall>, itemIds: map<int, Id>, outIndex: map<int, nat>)

  datatype State = State(counters: Counters, created: bool, completed: bool, reasoning: ReasoningPart,
                         message: MessagePart, tools: ToolTable, finish: string, out: seq<Event>)

  const NO_COUNTERS := Counters(0, 0, 0)
  const NO_REASONING := ReasoningPart(NoId, 0, false, false, "")
  const NO_MESSAGE := MessagePart(NoId, 0, false, "")
  const NO_TOOLS := ToolTable(map[], map[], map[])

  const INITIAL := State(NO_COUNTERS, false, false, NO_REASONING, NO_MESSAGE, NO_TOOLS, "", [])

  function Emit(s: State, body: Body): State {
    s.(counters := s.counters.(seqNo := s.counters.seqNo + 1), out := s.out + [Event(s.counters.seqNo, body)])
  }

  /** Draws an identifier, or an output index. */
  function Drawn(c: Counters): Counters { c.(serial := c.serial + 1) }

  function Allocated(c: Counters): Counters { c.(nextIndex := c.nextIndex + 1) }

  function EnsureCreated(s: State): State {
    if s.created then s else Emit(s.(created := true), Created)
  }

  function OpenReasoning(s: State): State {
    if s.reasoning.open || s.reasoning.done then s else
    var r := s.reasoning.(open := true, id := Fresh(s.counters.serial), index := s.counters.nextIndex);
    var t := s.(reasoning := r, counters := Allocated(Drawn(s.counters)));
    Emit(Emit(t, ItemAdded(r.index, ReasoningItem(r.id, "", false))), SummaryPartAdded(r.index, r.id))
  }

  function CloseReasoning(s: State): State {
    if !s.reasoning.open then s else
    var r := s.reasoning.(open := false, done := true);
    Emit(Emit(Emit(s.(reasoning := r), SummaryTextDone(r.index, r.id, r.text)),
              SummaryPartDone(r.index, r.id, r.text)),
         ItemDone(r.index, ReasoningItem(r.id, r.text, true)))
  }

  function OpenMessage(s: State): State {
    if !s.message.id.NoId? then s else
    var m := s.message.(id := Fresh(s.counters.serial), index := s.counters.nextIndex);
    Emit(s.(message := m, counters := Allocated(Drawn(s.counters))), ItemAdded(m.index, MessageItem(m.id, "", false)))
  }

  function OpenTextPart(s: State): State {
    if s.message.partOpen then s else
    Emit(s.(message := s.message.(partOpen := true)), PartAdded(s.message.index, s.message.id))
  }

  function AddReasoning(s: State, delta: string): State {
    var t := OpenReasoning(s);
    Emit(t.(reasoning := t.reasoning.(text := t.reasoning.text + delta)),
         ReasoningDelta(t.reasoning.index, t.reasoning.id, delta))
  }

  function AddText(s: State, delta: string): State {
    var t := OpenTextPart(OpenMessage(s));
    Emit(t.(message := t.message.(text := t.message.text + delta)), TextDelta(t.message.index, t.message.id, delta))
  }

  /** A tool fragment on a slot seen for the first time. */
  function OpenTool(s: State, f: ToolFragment): State {
    var t := CloseReasoning(s);
    var id := if f.id == "" then Fresh(t.counters.serial) else Given(f.id);
    var c := if f.id == "" then Drawn(t.counters) else t.counters;
    var tools := ToolTable(t.tools.calls[f.Slot() := ToolCall(id, f.name, "")],
                           t.tools.itemIds[f.Slot() := Fresh(c.serial)],
                           t.tools.outIndex[f.Slot() := c.nextIndex]);
    Emit(t.(tools := tools, counters := Allocated(Drawn(c))),
         ItemAdded(c.nextIndex, CallItem(Fresh(c.serial), id, f.name, "", false)))
  }

  /** A later fragment may correct the identity of its call. */
  function Renamed(c: ToolCall, f: ToolFragment): ToolCall {
    c.(id := if f.id != "" then Given(f.id) else c.id, name := if f.name != "" then f.name else c.name)
  }

  function SetCall(s: State, k: int, c: ToolCall): State {
    s.(tools := s.tools.(calls := s.tools.calls[k := c]))
  }

  function AddArgs(s: State, k: int, delta: string): State
    requires k in s.tools.calls
  {
    if delta == "" then s else
    var c := s.tools.calls[k].(args := s.tools.calls[k].args + delta);
    Emit(SetCall(s, k, c),
         ArgsDelta(Lookup(s.tools.outIndex, k, 0), Lookup(s.tools.itemIds, k, NoId), delta, c.id, c.name))
  }

  function AddTool(s: State, f: ToolFragment): State {
    var k := f.Slot();
    var t := if k in s.tools.calls then SetCall(s, k, Renamed(s.tools.calls[k], f)) else OpenTool(s, f);
    AddArgs(t, k, f.args)
  }

  function Feed(s: State, f: Fragment): State {
    match f
    case Reason(d) => AddReasoning(s, d)
    case Content(d) => AddText(CloseReasoning(s), d)
    case Tool(call) => AddTool(s, call)
    case Finish(reason) => s.(finish := reason)
  }

  function FeedAll(s: State, fs: seq<Fragment>): State {
    if fs == [] then s else Feed(FeedAll(s, fs[..|fs| - 1]), fs[|fs| - 1])
  }

  function FeedChunk(s: State, chunk: Chunk): State {
    FeedAll(EnsureCreated(s), Fragments(chunk.choices))
  }

  function FeedChunks(s: State, chunks: seq<Chunk>): State {
    if chunks == [] then s else FeedChunk(FeedChunks(s, chunks[..|chunks| - 1]), chunks[|chunks| - 1])
  }

  /** A reasoning-only answer is shown as ordinary text. */
  predicate NeedsFallback(s: State) {
    s.message.id.NoId? && s.message.text == "" && s.reasoning.text != "" && s.tools.calls == map[] &&
    !IsBlank(s.reasoning.text)
  }

  function Fallback(s: State): State {
    if NeedsFallback(s) then AddText(s, s.reasoning.text) else s
  }

  function CloseMessage(s: State): State {
    var m := s.message;
    if m.id.NoId? then s else
    var t := if !m.partOpen then s else
             Emit(Emit(s, TextDone(m.index, m.id, m.text)), PartDone(m.index, m.id, m.text));
    Emit(t, ItemDone(m.index, MessageItem(m.id, m.text, true)))
  }

  function ArgsOrObject(args: string): string {
    if IsBlank(args) then "{}" else args
  }

  function CloseTool(s: State, k: int): State
    requires k in s.tools.calls
  {
    var c := s.tools.calls[k];
    var index, id := Lookup(s.tools.outIndex, k, 0), Lookup(s.tools.itemIds, k, NoId);
    Emit(Emit(s, ArgsDone(index, id, c.id, c.name, ArgsOrObject(c.args))),
         ItemDone(index, CallItem(id, c.id, c.name, ArgsOrObject(c.args), true)))
  }

  /** Closes the calls on slots 0, 1, ..., n - 1 that exist; other slots are never visited. */
  function CloseTools(s: State, n: nat): (t: State)
    ensures t == s.(counters := t.counters, out := t.out)
  {
    if n == 0 then s else
    var t := CloseTools(s, n - 1);
    if n - 1 in t.tools.calls && n - 1 in t.tools.itemIds then CloseTool(t, n - 1) else t
  }

  function OutputCalls(tools: ToolTable, serial: nat, n: nat): seq<Item> {
    if n == 0 then [] else
    OutputCalls(tools, serial, n - 1) +
    if n - 1 !in tools.calls then [] else
    var c := tools.calls[n - 1];
    [CallItem(Fresh(serial + n + 1), c.id, c.name, ArgsOrObject(c.args), true)]
  }

  /** The output array of the final event. */
  function Output(r: ReasoningPart, m: MessagePart, tools: ToolTable, serial: nat): seq<Item> {
    (if r.text != "" then [ReasoningItem(Fresh(serial), r.text, true)] else []) +
    (if !m.id.NoId? || |tools.calls| == 0
     then [MessageItem(if !m.id.NoId? then m.id else Fresh(serial + 1), m.text, true)] else []) +
    OutputCalls(tools, serial, |tools.calls|)
  }

  function FinalStatus(finish: string): Status {
    if finish == "length" then Incomplete(true) else Completed
  }

  function Finalize(s: State): State {
    if s.completed then s else
    var t := CloseMessage(Fallback(CloseReasoning(EnsureCreated(s))));
    var u := CloseTools(t, |t.tools.calls|);
    Emit(u.(completed := true),
         Terminal(Some(FinalStatus(u.finish)), Output(u.reasoning, u.message, u.tools, u.counters.serial)))
  }

  lemma FeedOne(s: State, fs: seq<Fragment>, f: Fragment)
    ensures FeedAll(s, fs + [f]) == Feed(FeedAll(s, fs), f)
  {
    assert (fs + [f])[..|fs|] == fs;
  }

  /** Reading a choice field by field is feeding its fragments in order. */
  lemma FeedChoice(s: State, c: Choice)
    ensures FeedAll(s, ChoiceFragments(c)) ==
            var r := if c.reasoning != "" then AddReasoning(s, c.reasoning) else s;
            var t := if c.content != "" then AddText(CloseReasoning(r), c.content) else r;
            var u := FeedAll(t, ToolFragments(c.tools));
            if c.finish != "" then u.(finish := c.finish) else u
  {
    var head := if c.reasoning != "" then [Reason(c.reasoning)] else [];
    var text := if c.content != "" then [Content(c.content)] else [];
    var tail := if c.finish != "" then [Finish(c.finish)] else [];
    FeedAppend(s, head + text + ToolFragments(c.tools), tail);
    FeedAppend(s, head + text, ToolFragments(c.tools));
    FeedAppend(s, head, text);
  }

  lemma {:induction false} FeedAppend(s: State, fs: seq<Fragment>, gs: seq<Fragment>)
    ensures FeedAll(s, fs + gs) == FeedAll(FeedAll(s, fs), gs)
    decreases |gs|
  {
    if gs == [] {
      assert fs + gs == fs;
    } else {
      FeedAppend(s, fs, gs[..|gs| - 1]);
      assert (fs + gs)[..|fs + gs| - 1] == fs + gs[..|gs| - 1];
    }
  }
}

/** The translator object of the source: one mutable record, updated chunk by chunk. */
module ChatToResponses {
  import opened Text
  import opened ResponsesEvents
  import S = ChatToResponsesSpec

  class StreamState {
    var counters: S.Counters
    var createdSent: bool
    var completedSent: bool
    var reasoning: S.ReasoningPart
    var message: S.MessagePart
    var tools: S.ToolTable
    var finishReason: string

    /** The value of the object once `events` have been emitted. */
    ghost function Abs(events: seq<Event>): S.State
      reads this
    {
      S.State(counters, createdSent, completedSent, reasoning, message, tools, finishReason, events)
    }

    constructor ()
      ensures Abs([]) == S.INITIAL
    {
      counters, createdSent, completedSent := S.NO_COUNTERS, false, false;
      reasoning, message, tools, finishReason := S.NO_REASONING, S.NO_MESSAGE, S.NO_TOOLS, "";
    }

    method GenerateId() returns (id: Id)
      modifies this`counters
      ensures id == Fresh(old(counters.serial)) && counters == S.Drawn(old(counters))
    {
      id := Fresh(counters.serial);
      counters := counters.(serial := counters.serial + 1);
    }

    method AllocOutputIndex() returns (index: nat)
      modifies this`counters
      ensures index == old(counters.nextIndex) && counters == S.Allocated(old(counters))
    {
      index := counters.nextIndex;
      counters := counters.(nextIndex := counters.nextIndex + 1);
    }

    method Emit(before: seq<Event>, body: Body) returns (events: seq<Event>)
      modifies this`counters
      ensures Abs(events) == S.Emit(old(Abs(before)), body)
    {
      events := before + [Event(counters.seqNo, body)];
      counters := counters.(seqNo := counters.seqNo + 1);
    }

    method EnsureCreated(before: seq<Event>) returns (events: seq<Event>)
      modifies this
      ensures Abs(events) == S.EnsureCreated(old(Abs(before)))
    {
      events := before;
      if createdSent { return; }
      createdSent := true;
      events := Emit(events, Created);
    }

    method EnsureReasoningItem(before: seq<Event>) returns (events: seq<Event>)
      modifies this
      ensures Abs(events) == S.OpenReasoning(old(Abs(before)))
    {
      events := before;
      if reasoning.open || reasoning.done { return; }
      reasoning := reasoning.(open := true);
      var id := GenerateId();
      var index := AllocOutputIndex();
      reasoning := reasoning.(id := id, index := index);
      events := Emit(events, ItemAdded(index, ReasoningItem(id, "", false)));
      events := Emit(events, SummaryPartAdded(index, id));
    }

    method CloseReasoningItem(before: seq<Event>) returns (events: seq<Event>)
      modifies this
      ensures Abs(events) == S.CloseReasoning(old(Abs(before)))
    {
      events := before;
      if !reasoning.open { return; }
      reasoning := reasoning.(open := false, done := true);
      var text := reasoning.text;
      events := Emit(events, SummaryTextDone(reasoning.index, reasoning.id, text));
      events := Emit(events, SummaryPartDone(reasoning.index, reasoning.id, text));
      events := Emit(events, ItemDone(reasoning.index, ReasoningItem(reasoning.id, text, true)));
    }

    method EnsureMessageItem(before: seq<Event>) returns (events: seq<Event>)
      modifies this
      ensures Abs(events) == S.OpenMessage(old(Abs(before)))
    {
      events := before;
      if !message.id.NoId? { return; }
      var id := GenerateId();
      var index := AllocOutputIndex();
      message := message.(id := id, index := index);
      events := Emit(events, ItemAdded(index, MessageItem(id, "", false)));
    }

    method EnsureTextPart(before: seq<Event>) returns (events: seq<Event>)
      modifies this
      ensures Abs(events) == S.OpenTextPart(old(Abs(before)))
    {
      events := before;
      if message.partOpen { return; }
      message := message.(partOpen := true);
      events := Emit(events, PartAdded(message.index, message.id));
    }

    method AppendReasoning(before: seq<Event>, delta: string) returns (events: seq<Event>)
      modifies this
      ensures Abs(events) == S.AddReasoning(old(Abs(before)), delta)
    {
      events := EnsureReasoningItem(before);
      reasoning := reasoning.(text := reasoning.text + delta);
      events := Emit(events, ReasoningDelta(reasoning.index, reasoning.id, delta));
    }

    method AppendText(before: seq<Event>, delta: string) returns (events: seq<Event>)
      modifies this
      ensures Abs(events) == S.AddText(old(Abs(before)), delta)
    {
      events := EnsureMessageItem(before);
      events := EnsureTextPart(events);
      message := message.(text := message.text + delta);
      events := Emit(events, TextDelta(message.index, message.id, delta));
    }

    method OpenTool(before: seq<Event>, toolCall: S.ToolFragment) returns (events: seq<Event>)
      modifies this
      ensures Abs(events) == S.OpenTool(old(Abs(before)), toolCall)
    {
      var idx := toolCall.Slot();
      events := CloseReasoningItem(before);
      var id := Given(toolCall.id);
      if toolCall.id == "" {
        id := GenerateId();
      }
      tools := tools.(calls := tools.calls[idx := S.ToolCall(id, toolCall.name, "")]);
      var itemId := GenerateId();
      tools := tools.(itemIds := tools.itemIds[idx := itemId]);
      var index := AllocOutputIndex();
      tools := tools.(outIndex := tools.outIndex[idx := index]);
      events := Emit(events, ItemAdded(index, CallItem(itemId, id, toolCall.name, "", false)));
    }

    method AppendTool(before: seq<Event>, toolCall: S.ToolFragment) returns (events: seq<Event>)
      modifies this
      ensures Abs(events) == S.AddTool(old(Abs(before)), toolCall)
    {
      events := before;
      var idx := toolCall.Slot();
      if idx !in tools.calls {
        events := OpenTool(events, toolCall);
      } else {
        var stored := tools.calls[idx];
        if toolCall.id != "" {
          stored := stored.(id := Given(toolCall.id));
        }
        if toolCall.name != "" {
          stored := stored.(name := toolCall.name);
        }
        tools := tools.(calls := tools.calls[idx := stored]);
      }
      if toolCall.args != "" {
        var stored := tools.calls[idx];
        stored := stored.(args := stored.args + toolCall.args);
        tools := tools.(calls := tools.calls[idx := stored]);
        events := Emit(events, ArgsDelta(Lookup(tools.outIndex, idx, 0), Lookup(tools.itemIds, idx, NoId),
                                         toolCall.args, stored.id, stored.name));
      }
    }

    method AppendTools(before: seq<Event>, toolCalls: seq<S.ToolFragment>) returns (events: seq<Event>)
      modifies this
      ensures Abs(events) == S.FeedAll(old(Abs(before)), S.ToolFragments(toolCalls))
    {
      events := before;
      for i := 0 to |toolCalls|
        invariant Abs(events) == S.FeedAll(old(Abs(before)), S.ToolFragments(toolCalls[..i]))
      {
        events := AppendTool(events, toolCalls[i]);
        S.FeedOne(old(Abs(before)), S.ToolFragments(toolCalls[..i]), S.Tool(toolCalls[i]));
        assert toolCalls[..i + 1][..i] == toolCalls[..i];
      }
      assert toolCalls[..|toolCalls|] == toolCalls;
    }

    method ConvertChoice(before: seq<Event>, choice: S.Choice) returns (events: seq<Event>)
      modifies this
      ensures Abs(events) == S.FeedAll(old(Abs(before)), S.ChoiceFragments(choice))
    {
      events := before;
      if choice.reasoning != "" {
        events := AppendReasoning(events, choice.reasoning);
      }
      if choice.content != "" {
        events := CloseReasoningItem(events);
        events := AppendText(events, choice.content);
      }
      events := AppendTools(events, choice.tools);
      if choice.finish != "" {
        finishReason := choice.finish;
      }
      S.FeedChoice(old(Abs(before)), choice);
    }

    /** One chunk, turned into the events it causes. */
    method ConvertChunk(before: seq<Event>, chunk: S.Chunk) returns (events: seq<Event>)
      modifies this
      ensures Abs(events) == S.FeedChunk(old(Abs(before)), chunk)
    {
      events := EnsureCreated(before);
      ghost var start := Abs(events);
      for i := 0 to |chunk.choices|
        invariant Abs(events) == S.FeedAll(start, S.Fragments(chunk.choices[..i]))
      {
        events := ConvertChoice(events, chunk.choices[i]);
        S.FeedAppend(start, S.Fragments(chunk.choices[..i]), S.ChoiceFragments(chunk.choices[i]));
        assert chunk.choices[..i + 1][..i] == chunk.choices[..i];
      }
      assert chunk.choices[..|chunk.choices|] == chunk.choices;
    }

    method CloseMessageItem(before: seq<Event>) returns (events: seq<Event>)
      modifies this
      ensures Abs(events) == S.CloseMessage(old(Abs(before)))
    {
      events := before;
      if message.id.NoId? { return; }
      if message.partOpen {
        events := Emit(events, TextDone(message.index, message.id, message.text));
        events := Emit(events, PartDone(message.index, message.id, message.text));
      }
      events := Emit(events, ItemDone(message.index, MessageItem(message.id, message.text, true)));
    }

    method CloseToolItems(before: seq<Event>) returns (events: seq<Event>)
      modifies this
      ensures Abs(events) == S.CloseTools(old(Abs(before)), |old(tools.calls)|)
    {
      events := before;
      for i := 0 to |tools.calls|
        invariant tools == old(tools)
        invariant Abs(events) == S.CloseTools(old(Abs(before)), i)
      {
        if i !in tools.calls { continue; }
        if i !in tools.itemIds { continue; }
        var c, itemId, index := tools.calls[i], tools.itemIds[i], Lookup(tools.outIndex, i, 0);
        var arguments := c.args;
        if IsBlank(arguments) {
          arguments := "{}";
        }
        events := Emit(events, ArgsDone(index, itemId, c.id, c.name, arguments));
        events := Emit(events, ItemDone(index, CallItem(itemId, c.id, c.name, arguments, true)));
      }
    }

    method OutputCalls(before: seq<Item>) returns (outputs: seq<Item>)
      ensures outputs == before + S.OutputCalls(tools, counters.serial, |tools.calls|)
    {
      outputs := before;
      hide S.ArgsOrObject;
      for i := 0 to |tools.calls|
        invariant outputs == before + S.OutputCalls(tools, counters.serial, i)
      {
        if i !in tools.calls { continue; }
        var c := tools.calls[i];
        var arguments := ArgumentsOrObject(c.args);
        outputs := outputs + [CallItem(Fresh(counters.serial + i + 2), c.id, c.name, arguments, true)];
      }
    }

    static method ArgumentsOrObject(args: string) returns (arguments: string)
      ensures arguments == S.ArgsOrObject(args)
    {
      arguments := args;
      if IsBlank(arguments) {
        arguments := "{}";
      }
    }

    /** The output array of the final event. */
    method ChatOutput() returns (outputs: seq<Item>)
      ensures outputs == S.Output(reasoning, message, tools, counters.serial)
    {
      hide S.OutputCalls;
      outputs := [];
      if reasoning.text != "" {
        outputs := outputs + [ReasoningItem(Fresh(counters.serial), reasoning.text, true)];
      }
      if !message.id.NoId? || |tools.calls| == 0 {
        var id := if !message.id.NoId? then message.id else Fresh(counters.serial + 1);
        outputs := outputs + [MessageItem(id, message.text, true)];
      }
      outputs := OutputCalls(outputs);
    }

    /** A reasoning-only answer is shown as ordinary text. */
    method ShowReasoningAsText(before: seq<Event>) returns (events: seq<Event>)
      modifies this
      ensures Abs(events) == S.Fallback(old(Abs(before)))
    {
      events := before;
      if message.id.NoId? && message.text == "" && reasoning.text != "" && tools.calls == map[] &&
         !IsBlank(reasoning.text)
      {
        events := AppendText(events, reasoning.text);
      }
    }

    /** The terminal events. */
    method Finalize(before: seq<Event>) returns (events: seq<Event>)
      modifies this
      ensures Abs(events) == S.Finalize(old(Abs(before)))
    {
      events := before;
      if completedSent { return; }
      hide S.EnsureCreated, S.CloseReasoning, S.Fallback, S.CloseMessage, S.CloseTools, S.Output;
      events := EnsureCreated(events);
      events := CloseReasoningItem(events);
      events := ShowReasoningAsText(events);
      events := CloseMessageItem(events);
      events := CloseToolItems(events);
      var status := if finishReason == "length" then Incomplete(true) else Completed;
      completedSent := true;
      var output := ChatOutput();
      events := Emit(events, Terminal(Some(status), output));
    }
  }
}
