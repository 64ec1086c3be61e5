/** The answer a Responses stream stands for, read from the events alone. */
module ResponsesMeaning {
  import opened Text
  import opened ResponsesEvents

  datatype Call = Call(id: Id, name: string, args: string)

  datatype Answer = Answer(text: string, reasoning: string, calls: seq<Call>)

  predicate Announces(e: Event) {
    e.body.ItemAdded? && (e.body.item.kind.FunctionCall? || e.body.item.kind.CustomToolCall?)
  }

  function Spoken(events: seq<Event>): string {
    if events == [] then "" else
    var last := events[|events| - 1].body;
    Spoken(events[..|events| - 1]) + if last.TextDelta? then last.delta else ""
  }

  function Thought(events: seq<Event>): string {
    if events == [] then "" else
    var last := events[|events| - 1].body;
    Thought(events[..|events| - 1]) + if last.ReasoningDelta? then last.delta else ""
  }

  /** The positions at which tool calls are announced. */
  function Starts(events: seq<Event>): seq<nat> {
    if events == [] then [] else
    Starts(events[..|events| - 1]) + if Announces(events[|events| - 1]) then [|events| - 1] else []
  }

  /** The announcement in force for an output index: the latest one that named it. */
  function Owner(events: seq<Event>, index: int): Option<nat> {
    if events == [] then None else
    var last := events[|events| - 1];
    if Announces(last) && last.body.index == index then Some(|events| - 1) else Owner(events[..|events| - 1], index)
  }

  /** The argument deltas that arrived while the announcement at p was in force for their index. */
  function Args(events: seq<Event>, p: nat): string {
    if events == [] then "" else
    var before, last := events[..|events| - 1], events[|events| - 1].body;
    Args(before, p) + if last.ArgsDelta? && Owner(before, last.index) == Some(p) then last.delta else ""
  }

  lemma {:induction false} StartsInside(events: seq<Event>)
    ensures forall j :: 0 <= j < |Starts(events)| ==> Starts(events)[j] < |events| && Announces(events[Starts(events)[j]])
    ensures forall i, j :: 0 <= i < j < |Starts(events)| ==> Starts(events)[i] < Starts(events)[j]
  {
    if events != [] { StartsInside(events[..|events| - 1]); }
  }

  function CallAt(events: seq<Event>, p: nat): Call {
    if p < |events| && Announces(events[p])
    then Call(events[p].body.item.callId, events[p].body.item.name, Args(events, p))
    else Call(NoId, "", "")
  }

  function Calls(events: seq<Event>): seq<Call> {
    seq(|Starts(events)|, j requires 0 <= j < |Starts(events)| => CallAt(events, Starts(events)[j]))
  }

  function Meaning(events: seq<Event>): Answer {
    Answer(Spoken(events), Thought(events), Calls(events))
  }

  lemma Extend(events: seq<Event>, e: Event)
    ensures var now := events + [e];
            && Spoken(now) == Spoken(events) + (if e.body.TextDelta? then e.body.delta else "")
            && Thought(now) == Thought(events) + (if e.body.ReasoningDelta? then e.body.delta else "")
            && Starts(now) == Starts(events) + (if Announces(e) then [|events|] else [])
    ensures forall k :: Owner(events + [e], k) == if Announces(e) && e.body.index == k then Some(|events|) else Owner(events, k)
    ensures forall p: nat :: Args(events + [e], p) ==
              Args(events, p) + if e.body.ArgsDelta? && Owner(events, e.body.index) == Some(p) then e.body.delta else ""
  {
    assert (events + [e])[..|events|] == events;
  }

  lemma {:induction false} OwnerInside(events: seq<Event>, k: int)
    ensures Owner(events, k).Some? ==> Owner(events, k).value in Starts(events)
    ensures Owner(events, k).Some? ==> Owner(events, k).value < |events|
  {
    if events != [] { OwnerInside(events[..|events| - 1], k); }
  }

  lemma {:induction false} ArgsLater(events: seq<Event>, p: nat)
    requires p >= |events|
    ensures Args(events, p) == ""
  {
    if events != [] {
      ArgsLater(events[..|events| - 1], p);
      if events[|events| - 1].body.ArgsDelta? { OwnerInside(events[..|events| - 1], events[|events| - 1].body.index); }
    }
  }

  /** The call number in force for each output index. */
  ghost predicate IndexTracks(events: seq<Event>, callOf: map<int, nat>) {
    forall k ::
      && (k in callOf <==> Owner(events, k).Some?)
      && (k in callOf ==> Lookup(callOf, k, 0) < |Starts(events)| && Owner(events, k) == Some(Starts(events)[Lookup(callOf, k, 0)]))
  }

  lemma IndexExtends(events: seq<Event>, e: Event, callOf: map<int, nat>)
    requires IndexTracks(events, callOf)
    ensures IndexTracks(events + [e], if Announces(e) then callOf[e.body.index := |Starts(events)|] else callOf)
  {
    hide Owner, Starts;
    Extend(events, e);
  }

  /** What one more event does to each call. */
  lemma CallsPointwise(events: seq<Event>, e: Event)
    ensures var now, b := events + [e], e.body;
            && |Calls(now)| == |Calls(events)| + (if Announces(e) then 1 else 0)
            && (Announces(e) ==> Calls(now)[|Calls(events)|] == Call(b.item.callId, b.item.name, ""))
            && forall j :: 0 <= j < |Calls(events)| ==>
                 Calls(now)[j] == var c := Calls(events)[j];
                 c.(args := c.args + if b.ArgsDelta? && Owner(events, b.index) == Some(Starts(events)[j]) then b.delta else "")
  {
    Extend(events, e);
    StartsInside(events);
    if Announces(e) { ArgsLater(events, |events|); }
    hide Owner, Starts, Args;
    forall p: nat | p < |events| ensures (events + [e])[p] == events[p] { }
  }

  /** The same, with the calls in force known from a table. */
  lemma CallsExtend(events: seq<Event>, e: Event, callOf: map<int, nat>)
    requires IndexTracks(events, callOf)
    ensures Announces(e) ==> Calls(events + [e]) == Calls(events) + [Call(e.body.item.callId, e.body.item.name, "")]
    ensures e.body.ArgsDelta? && e.body.index in callOf ==>
              var j := Lookup(callOf, e.body.index, 0);
              && j < |Calls(events)|
              && Calls(events + [e]) == Calls(events)[j := Calls(events)[j].(args := Calls(events)[j].args + e.body.delta)]
    ensures !Announces(e) && !(e.body.ArgsDelta? && e.body.index in callOf) ==> Calls(events + [e]) == Calls(events)
  {
    CallsPointwise(events, e);
    StartsInside(events);
    hide Owner, Starts;
    forall c: Call ensures c.(args := c.args + "") == c { assert c.args + "" == c.args; }
  }

  /** Announcing a call: it is the latest of its output index. */
  lemma Announced(events: seq<Event>, e: Event)
    requires Announces(e)
    ensures var now := events + [e];
            && Calls(now) == Calls(events) + [Call(e.body.item.callId, e.body.item.name, "")]
            && Starts(now) == Starts(events) + [|events|]
            && forall k :: Owner(now, k) == if k == e.body.index then Some(|events|) else Owner(events, k)
  {
    Extend(events, e);
    CallsPointwise(events, e);
    hide Owner, Starts, Calls;
    var calls, now := Calls(events), Calls(events + [e]);
    forall j | 0 <= j < |calls| ensures now[j] == calls[j] { assert calls[j].args + "" == calls[j].args; }
    assert now == calls + [Call(e.body.item.callId, e.body.item.name, "")];
  }

  /** An argument piece lengthens the one call in force for its output index. */
  lemma Sent(events: seq<Event>, e: Event, i: nat)
    requires e.body.ArgsDelta? && i < |Calls(events)| && Owner(events, e.body.index) == Some(Starts(events)[i])
    ensures var now := events + [e];
            && Calls(now) == Calls(events)[i := Calls(events)[i].(args := Calls(events)[i].args + e.body.delta)]
            && Starts(now) == Starts(events) && forall k :: Owner(now, k) == Owner(events, k)
  {
    Extend(events, e);
    CallsPointwise(events, e);
    StartsInside(events);
    CallsAreStarts(events);
    hide Owner, Starts, Calls;
    forall c: Call ensures c.(args := c.args + "") == c { assert c.args + "" == c.args; }
  }

  lemma CallsAreStarts(events: seq<Event>)
    ensures |Calls(events)| == |Starts(events)|
  {
  }

  /** An event that neither announces a call nor adds to one. */
  lemma Unmoved(events: seq<Event>, e: Event)
    requires !Announces(e) && (e.body.ArgsDelta? ==> e.body.delta == "" || Owner(events, e.body.index).None?)
    ensures var now := events + [e];
            Calls(now) == Calls(events) && Starts(now) == Starts(events) && forall k :: Owner(now, k) == Owner(events, k)
  {
    Extend(events, e);
    CallsPointwise(events, e);
    hide Owner, Starts, Calls, Announces;
    var calls, now := Calls(events), Calls(events + [e]);
    forall j | 0 <= j < |calls| ensures now[j] == calls[j] { assert calls[j].args + "" == calls[j].args; }
    assert Starts(events) + [] == Starts(events);
  }
}

/** The streamed and the buffered translation of a Responses stream, on values. */
module ResponsesToChatSpec {
  import opened Text
  import opened ResponsesEvents
  import opened M = ResponsesMeaning

  datatype FinishReason = Stop | Length | ToolCalls | ErrorFinish

  datatype Chunk =
    | Role
    | Content(text: string)
    | ReasoningContent(text: string)
    | ToolStart(tool: nat, id: Id, name: string)
    | ToolArgs(tool: nat, args: string)
    | Finish(reason: FinishReason)

  datatype State = State(sentRole: bool, sawTool: bool, finalized: bool, nextTool: nat, toolOf: map<int, nat>, out: seq<Chunk>)

  const INITIAL := State(false, false, false, 0, map[], [])

  function Push(s: State, c: Chunk): State {
    s.(out := s.out + [c])
  }

  function FinishOf(status: Option<Status>, sawTool: bool): FinishReason {
    match status
    case Some(Incomplete(maxTokens)) => if maxTokens then Length else Stop
    case Some(Completed) => if sawTool then ToolCalls else Stop
    case None => if sawTool then ToolCalls else Stop
    case _ => Stop
  }

  function Step(s: State, e: Event): State {
    match e.body
    case Created => if s.sentRole then s else Push(s.(sentRole := true), Role)
    case TextDelta(_, _, d) => if d == "" then s else Push(s, Content(d))
    case ItemAdded(index, item) =>
      if !Announces(e) then s else
      Push(s.(sawTool := true, nextTool := s.nextTool + 1, toolOf := s.toolOf[index := s.nextTool]),
           ToolStart(s.nextTool, item.callId, item.name))
    case ArgsDelta(index, _, d, _, _) =>
      if d == "" || index !in s.toolOf then s else Push(s, ToolArgs(Lookup(s.toolOf, index, 0), d))
    case ReasoningDelta(_, _, d) => if d == "" then s else Push(s, ReasoningContent(d))
    case Terminal(status, _) => Push(s.(finalized := true), Finish(FinishOf(status, s.sawTool)))
    case _ => s
  }

  function Run(s: State, events: seq<Event>): State {
    if events == [] then s else Step(Run(s, events[..|events| - 1]), events[|events| - 1])
  }

  /** The final chunk of a stream that ended without a terminal event. */
  function Finalize(s: State): State {
    if s.finalized then s else Push(s.(finalized := true), Finish(if s.sawTool then ToolCalls else Stop))
  }

  lemma RunNothing(s: State)
    ensures Run(s, []) == s
  {
  }

  lemma RunOne(s: State, events: seq<Event>, e: Event)
    ensures Run(s, events + [e]) == Step(Run(s, events), e)
  {
    assert (events + [e])[..|events|] == events;
  }

  /** How a Chat Completions client joins the chunks it receives. */
  function NextAnswer(a: Answer, c: Chunk): Answer {
    match c
    case Content(t) => a.(text := a.text + t)
    case ReasoningContent(t) => a.(reasoning := a.reasoning + t)
    case ToolStart(i, id, name) => if i == |a.calls| then a.(calls := a.calls + [Call(id, name, "")]) else a
    case ToolArgs(i, args) =>
      if i < |a.calls| then a.(calls := a.calls[i := a.calls[i].(args := a.calls[i].args + args)]) else a
    case _ => a
  }

  function JoinChunks(chunks: seq<Chunk>): Answer {
    if chunks == [] then Answer("", "", []) else NextAnswer(JoinChunks(chunks[..|chunks| - 1]), chunks[|chunks| - 1])
  }

  lemma JoinOne(chunks: seq<Chunk>, c: Chunk)
    ensures JoinChunks(chunks + [c]) == NextAnswer(JoinChunks(chunks), c)
  {
    assert (chunks + [c])[..|chunks|] == chunks;
  }

  // ---- the buffered path ---------------------------------------------------------------

  datatype Buffer = Buffer(gathered: Answer, callOf: map<int, nat>)

  const EMPTY := Buffer(Answer("", "", []), map[])

  function Gather(b: Buffer, e: Event): Buffer {
    var g := b.gathered;
    match e.body
    case TextDelta(_, _, d) => b.(gathered := g.(text := g.text + d))
    case ItemAdded(index, item) =>
      if !Announces(e) then b else
      Buffer(g.(calls := g.calls + [Call(item.callId, item.name, "")]), b.callOf[index := |g.calls|])
    case ArgsDelta(index, _, d, _, _) =>
      var i := Lookup(b.callOf, index, 0);
      if index !in b.callOf || i >= |g.calls| then b else
      b.(gathered := g.(calls := g.calls[i := g.calls[i].(args := g.calls[i].args + d)]))
    case ReasoningDelta(_, _, d) => b.(gathered := g.(reasoning := g.reasoning + d))
    case _ => b
  }

  function GatherAll(events: seq<Event>): Buffer {
    if events == [] then EMPTY else Gather(GatherAll(events[..|events| - 1]), events[|events| - 1])
  }

  function CallItems(calls: seq<Call>): seq<Item> {
    seq(|calls|, i requires 0 <= i < |calls| => CallItem(NoId, calls[i].id, calls[i].name, calls[i].args, false))
  }

  /** The output array: reasoning, message, calls. */
  function BuildOutput(a: Answer): seq<Item> {
    (if a.reasoning != "" then [ReasoningItem(NoId, a.reasoning, false)] else []) +
    (if a.text != "" then [MessageItem(NoId, a.text, false)] else []) +
    CallItems(a.calls)
  }

  /** The chat answer of an output array; custom tool calls are not carried over. */
  function ReadOutput(output: seq<Item>): Answer {
    if output == [] then Answer("", "", []) else
    var a, item := ReadOutput(output[..|output| - 1]), output[|output| - 1];
    match item.kind
    case Message => a.(text := a.text + item.text)
    case Reasoning => a.(reasoning := a.reasoning + item.text)
    case FunctionCall => a.(calls := a.calls + [Call(item.callId, item.name, item.args)])
    case _ => a
  }

  function Supplement(output: seq<Item>, gathered: Answer): seq<Item> {
    if output == [] then BuildOutput(gathered) else output
  }

  datatype Completion = Completion(answer: Answer, finish: FinishReason)

  function Complete(status: Status, output: seq<Item>): Completion {
    Completion(ReadOutput(output), FinishOf(Some(status), ReadOutput(output).calls != []))
  }

  // ---- both paths keep the meaning ------------------------------------------------------

  ghost predicate Streams(events: seq<Event>, s: State) {
    && JoinChunks(s.out) == Meaning(events) && s.nextTool == |Starts(events)|
    && (s.sawTool <==> Starts(events) != []) && IndexTracks(events, s.toolOf)
  }

  ghost predicate Buffers(events: seq<Event>, b: Buffer) {
    b.gathered == Meaning(events) && IndexTracks(events, b.callOf)
  }

  lemma BufferStep(events: seq<Event>, b: Buffer, e: Event)
    requires Buffers(events, b)
    ensures Buffers(events + [e], Gather(b, e))
  {
    hide Owner, Starts, Spoken, Thought, IndexTracks;
    Extend(events, e);
    IndexExtends(events, e, b.callOf);
    CallsExtend(events, e, b.callOf);
    assert |Calls(events)| == |Starts(events)|;
    hide Calls;
  }

  lemma NoArgs(calls: seq<Call>, i: nat)
    requires i < |calls|
    ensures calls[i := calls[i].(args := calls[i].args + "")] == calls
  {
    assert calls[i].args + "" == calls[i].args;
  }

  /** Joining the chunk that an event causes, if any, is gathering the event. */
  lemma JoinIsGather(s: State, e: Event, a: Answer) returns (c: Option<Chunk>)
    requires |a.calls| == s.nextTool && forall k :: k in s.toolOf ==> Lookup(s.toolOf, k, 0) < s.nextTool
    ensures var t, b := Step(s, e), Gather(Buffer(a, s.toolOf), e);
            && b.callOf == t.toolOf && (t.sawTool <==> s.sawTool || Announces(e))
            && t.out == s.out + (if c.Some? then [c.value] else [])
            && b.gathered == if c.Some? then NextAnswer(a, c.value) else a
  {
    hide FinishOf;
    c := None;
    match e.body
    case Created => c := if s.sentRole then None else Some(Role);
    case TextDelta(_, _, d) => c := if d == "" then None else Some(Content(d)); assert a.text + "" == a.text;
    case ReasoningDelta(_, _, d) => c := if d == "" then None else Some(ReasoningContent(d)); assert a.reasoning + "" == a.reasoning;
    case ItemAdded(_, item) => c := if Announces(e) then Some(ToolStart(s.nextTool, item.callId, item.name)) else None;
    case ArgsDelta(index, _, d, _, _) =>
      if index in s.toolOf {
        var i := Lookup(s.toolOf, index, 0);
        c := if d == "" then None else Some(ToolArgs(i, d));
        NoArgs(a.calls, i);
      }
    case Terminal(status, _) => c := Some(Finish(FinishOf(status, s.sawTool)));
    case _ =>
  }

  lemma StreamStep(events: seq<Event>, s: State, e: Event)
    requires Streams(events, s)
    ensures Streams(events + [e], Step(s, e))
  {
    var a, t := Meaning(events), Step(s, e);
    Extend(events, e);
    CallsAreStarts(events);
    CallsAreStarts(events + [e]);
    StepCounts(s, e);
    hide Owner, Starts, Spoken, Thought, Args, Calls;
    BufferStep(events, Buffer(a, s.toolOf), e);
    assert forall k :: k in s.toolOf ==> Lookup(s.toolOf, k, 0) < s.nextTool;
    var c := JoinIsGather(s, e, a);
    hide Step, Gather, NextAnswer, IndexTracks, JoinChunks, Announces;
    if c.Some? { JoinOne(s.out, c.value); }
  }

  lemma StepCounts(s: State, e: Event)
    ensures Step(s, e).nextTool == s.nextTool + if Announces(e) then 1 else 0
  {
  }

  lemma {:induction false} BothKeepMeaning(events: seq<Event>)
    ensures Streams(events, Run(INITIAL, events)) && Buffers(events, GatherAll(events))
  {
    if events == [] {
      assert Calls([]) == [];
    } else {
      var before, last := events[..|events| - 1], events[|events| - 1];
      BothKeepMeaning(before);
      StreamStep(before, Run(INITIAL, before), last);
      BufferStep(before, GatherAll(before), last);
      assert before + [last] == events;
    }
  }

  lemma {:induction false} ReadCalls(head: seq<Item>, calls: seq<Call>)
    requires ReadOutput(head).calls == []
    ensures ReadOutput(head + CallItems(calls)) == ReadOutput(head).(calls := calls)
  {
    if calls == [] {
      assert head + CallItems(calls) == head;
    } else {
      var n := |calls| - 1;
      ReadCalls(head, calls[..n]);
      var all := head + CallItems(calls);
      assert all[..|all| - 1] == head + CallItems(calls[..n]);
      assert calls[..n] + [calls[n]] == calls;
    }
  }

  /** Building the output array and reading it back loses nothing. */
  lemma OutputRoundTrip(a: Answer)
    ensures ReadOutput(BuildOutput(a)) == a
  {
    var r := if a.reasoning != "" then [ReasoningItem(NoId, a.reasoning, false)] else [];
    var m := if a.text != "" then [MessageItem(NoId, a.text, false)] else [];
    assert (r + m)[..|r|] == r;
    assert m != [] ==> (r + m)[..|r + m| - 1] == r;
    assert ReadOutput(r) == Answer("", a.reasoning, []) by { if r != [] { assert r[..0] == []; } }
    assert m == [] ==> r + m == r;
    assert ReadOutput(r + m) == Answer(a.text, a.reasoning, []);
    ReadCalls(r + m, a.calls);
  }
}

/** The translator objects of the source, and the pump that drives the streamed one. */
module ResponsesToChat {
  import opened Text
  import opened ResponsesEvents
  import Sse
  import M = ResponsesMeaning
  import opened S = ResponsesToChatSpec
  import ChatFinish

  class StreamState {
    var sentRole: bool
    var sawToolCall: bool
    var finalized: bool
    var nextToolCallIndex: nat
    var toolOf: map<int, nat>

    /** The value of the object once `chunks` have been emitted. */
    ghost function Abs(chunks: seq<Chunk>): S.State
      reads this
    {
      S.State(sentRole, sawToolCall, finalized, nextToolCallIndex, toolOf, chunks)
    }

    constructor ()
      ensures Abs([]) == S.INITIAL
    {
      sentRole, sawToolCall, finalized, nextToolCallIndex, toolOf := false, false, false, 0, map[];
    }

    method HandleOutputItemAdded(before: seq<Chunk>, index: int, item: Item) returns (chunks: seq<Chunk>)
      modifies this
      ensures forall n :: Abs(chunks) == S.Step(old(Abs(before)), Event(n, ItemAdded(index, item)))
    {
      chunks := before;
      if !item.kind.FunctionCall? && !item.kind.CustomToolCall? { return; }
      sawToolCall := true;
      var idx := nextToolCallIndex;
      toolOf := toolOf[index := idx];
      nextToolCallIndex := nextToolCallIndex + 1;
      chunks := chunks + [ToolStart(idx, item.callId, item.name)];
    }

    method HandleCompleted(before: seq<Chunk>, status: Option<Status>) returns (chunks: seq<Chunk>)
      modifies this`finalized
      ensures Abs(chunks) == S.Push(old(Abs(before)).(finalized := true), Finish(FinishOf(status, sawToolCall)))
    {
      finalized := true;
      var reason := FinishReason.Stop;
      match status {
        case Some(Incomplete(maxTokens)) =>
          if maxTokens {
            reason := Length;
          }
        case Some(Completed) =>
          if sawToolCall {
            reason := ToolCalls;
          }
        case None =>
          if sawToolCall {
            reason := ToolCalls;
          }
        case _ =>
      }
      chunks := before + [Finish(reason)];
    }

    /** One upstream event, turned into the chunks it causes. */
    method Convert(before: seq<Chunk>, e: Event) returns (chunks: seq<Chunk>)
      modifies this
      ensures Abs(chunks) == S.Step(old(Abs(before)), e)
    {
      chunks := before;
      match e.body
      case Created =>
        if sentRole { return; }
        sentRole := true;
        chunks := chunks + [Role];
      case TextDelta(_, _, delta) =>
        if delta == "" { return; }
        chunks := chunks + [Content(delta)];
      case ItemAdded(index, item) => chunks := HandleOutputItemAdded(chunks, index, item);
      case ArgsDelta(index, _, delta, _, _) =>
        if delta == "" { return; }
        if index !in toolOf { return; }
        chunks := chunks + [ToolArgs(toolOf[index], delta)];
      case ReasoningDelta(_, _, delta) =>
        if delta == "" { return; }
        chunks := chunks + [ReasoningContent(delta)];
      case Terminal(status, _) => chunks := HandleCompleted(chunks, status);
      case _ =>
    }

    /** The final chunk of a stream that ended without a terminal event. */
    method Finalize(before: seq<Chunk>) returns (chunks: seq<Chunk>)
      modifies this`finalized
      ensures Abs(chunks) == S.Finalize(old(Abs(before)))
    {
      chunks := before;
      if finalized { return; }
      finalized := true;
      var reason := FinishReason.Stop;
      if sawToolCall {
        reason := ToolCalls;
      }
      chunks := chunks + [Finish(reason)];
    }
  }

  /** The pump's last step, here and behind an Anthropic upstream. */
  method Conclude(state: StreamState, before: seq<Chunk>, ended: bool) returns (written: seq<Chunk>)
    requires ended ==> state.finalized
    modifies state
    ensures written == if ended then before else before + ERROR_CHUNK
  {
    if !ended { return before + ERROR_CHUNK; }
    written := state.Finalize(before);
  }

  class BufferedResponseAccumulator {
    var text: string
    var reasoning: string
    var funcCalls: seq<M.Call>
    var callOf: map<int, nat>

    ghost predicate Valid()
      reads this
    {
      forall k :: k in callOf ==> Lookup(callOf, k, 0) < |funcCalls|
    }

    ghost function Abs(): S.Buffer
      reads this
    {
      S.Buffer(M.Answer(text, reasoning, funcCalls), callOf)
    }

    constructor ()
      ensures Valid() && Abs() == S.EMPTY
    {
      text, reasoning, funcCalls, callOf := "", "", [], map[];
    }

    method ProcessEvent(e: Event)
      requires Valid()
      modifies this
      ensures Valid() && Abs() == S.Gather(old(Abs()), e)
    {
      match e.body
      case TextDelta(_, _, delta) =>
        assert text + "" == text;
        if delta != "" {
          text := text + delta;
        }
      case ItemAdded(index, item) =>
        if item.kind.FunctionCall? || item.kind.CustomToolCall? {
          callOf := callOf[index := |funcCalls|];
          funcCalls := funcCalls + [M.Call(item.callId, item.name, "")];
        }
      case ArgsDelta(index, _, delta, _, _) =>
        if index in callOf {
          var idx := callOf[index];
          assert idx == Lookup(callOf, index, 0);
          funcCalls := funcCalls[idx := funcCalls[idx].(args := funcCalls[idx].args + delta)];
        }
      case ReasoningDelta(_, _, delta) =>
        assert reasoning + "" == reasoning;
        if delta != "" {
          reasoning := reasoning + delta;
        }
      case _ =>
    }

    method BuildOutput() returns (output: seq<Item>)
      ensures output == S.BuildOutput(Abs().gathered)
    {
      output := [];
      if reasoning != "" {
        output := output + [ReasoningItem(NoId, reasoning, false)];
      }
      if text != "" {
        output := output + [MessageItem(NoId, text, false)];
      }
      ghost var head := output;
      for i := 0 to |funcCalls|
        invariant output == head + S.CallItems(funcCalls[..i])
      {
        var c := funcCalls[i];
        output := output + [CallItem(NoId, c.id, c.name, c.args, false)];
      }
      assert funcCalls[..|funcCalls|] == funcCalls;
    }

    /** Fills in an output array that the terminal event left empty. */
    method SupplementOutput(output: seq<Item>) returns (filled: seq<Item>)
      ensures filled == S.Supplement(output, Abs().gathered)
    {
      filled := output;
      if |output| > 0 { return; }
      if text == "" && |funcCalls| == 0 && reasoning == "" { return; }
      filled := BuildOutput();
    }
  }

  method ResponsesToChatCompletions(status: Status, output: seq<Item>) returns (response: S.Completion)
    ensures response == S.Complete(status, output)
  {
    var content, reasoning, toolCalls: seq<M.Call> := "", "", [];
    for i := 0 to |output|
      invariant S.ReadOutput(output[..i]) == M.Answer(content, reasoning, toolCalls)
    {
      assert output[..i + 1][..i] == output[..i];
      match output[i].kind {
        case Message => content := content + output[i].text;
        case FunctionCall => toolCalls := toolCalls + [M.Call(output[i].callId, output[i].name, output[i].args)];
        case Reasoning => reasoning := reasoning + output[i].text;
        case _ =>
      }
    }
    assert output[..|output|] == output;
    var finish := FinishReason.Stop;
    match status {
      case Incomplete(maxTokens) =>
        if maxTokens {
          finish := Length;
        }
      case Completed =>
        if |toolCalls| > 0 {
          finish := ToolCalls;
        }
      case _ =>
    }
    response := S.Completion(M.Answer(content, reasoning, toolCalls), finish);
  }

  // ---- the pump ------------------------------------------------------------------------

  const INTERRUPTION := "upstream stream interrupted"

  /** The chunk that tells the client its answer was cut short, as its two pieces. */
  const ERROR_CHUNK: seq<Chunk> := [Content(INTERRUPTION), Finish(ErrorFinish)]

  /** Serves the lines of a Responses upstream to a Chat Completions client, and then writes
      the [DONE] line. */
  method PumpResponsesToChat(decode: Decoder, lines: seq<string>, broken: bool) returns (written: seq<Chunk>)
    ensures var s := S.Run(S.INITIAL, Events(decode, lines));
            written == if s.finalized && !broken then s.out else s.out + ERROR_CHUNK
  {
    var state := new StreamState();
    written := [];
    assert lines[..0] == [];
    hide S.Step;
    for n := 0 to |lines|
      invariant fresh(state)
      invariant state.Abs(written) == S.Run(S.INITIAL, Events(decode, lines[..n]))
    {
      assert lines[..n + 1][..n] == lines[..n];
      var data := Sse.Data(lines[n]);
      if data.None? { continue; }
      var e := decode(data.value);
      if e.None? { continue; }
      ghost var events := Events(decode, lines[..n]);
      written := state.Convert(written, e.value);
      assert (events + [e.value])[..|events|] == events;
    }
    assert lines[..|lines|] == lines;
    written := Conclude(state, written, state.finalized && !broken);
  }

  predicate Cut(written: seq<Chunk>) {
    exists i :: 0 <= i < |written| && written[i] == Finish(ErrorFinish)
  }

  lemma ErrorChunkJoins(chunks: seq<Chunk>)
    ensures var a := JoinChunks(chunks);
            JoinChunks(chunks + ERROR_CHUNK) == a.(text := a.text + INTERRUPTION) && Cut(chunks + ERROR_CHUNK)
  {
    hide S.JoinChunks;
    S.JoinOne(chunks, Content(INTERRUPTION));
    S.JoinOne(chunks + [Content(INTERRUPTION)], Finish(ErrorFinish));
    assert chunks + ERROR_CHUNK == chunks + [Content(INTERRUPTION)] + [Finish(ErrorFinish)];
    assert (chunks + ERROR_CHUNK)[|chunks| + 1] == Finish(ErrorFinish);
  }

  /** What a Chat Completions client receives: the whole meaning of the upstream events, the finish
      reason of each terminal event, and an error finish at the end exactly when the connection
      broke or no terminal event came. */
  lemma PumpKeepsMeaning(decode: Decoder, lines: seq<string>, broken: bool)
    ensures var events := Events(decode, lines);
            var s := S.Run(S.INITIAL, events);
            var written := if s.finalized && !broken then s.out else s.out + ERROR_CHUNK;
            var meant := M.Meaning(events);
            && (Cut(written) <==> broken || forall i :: 0 <= i < |events| ==> !events[i].body.Terminal?)
            && JoinChunks(written) == (if Cut(written) then meant.(text := meant.text + INTERRUPTION) else meant)
            && ChatFinish.AllFit(events, ChatFinish.Finishes(s.out))
            && ChatFinish.Finishes(written) == ChatFinish.Finishes(s.out) + if Cut(written) then [ErrorFinish] else []
  {
    var events := Events(decode, lines);
    var s := S.Run(S.INITIAL, events);
    ChatFinish.StreamFinishes(events);
    ErrorChunkFinishes(s.out);
    S.BothKeepMeaning(events);
    FinalizedMeans(events);
    ErrorChunkJoins(s.out);
    hide M.Meaning, S.JoinChunks, Events, S.Run, S.Streams, S.Buffers, ChatFinish.AllFit, ChatFinish.Finishes;
  }

  lemma ErrorChunkFinishes(chunks: seq<Chunk>)
    ensures ChatFinish.Finishes(chunks + ERROR_CHUNK) == ChatFinish.Finishes(chunks) + [ErrorFinish]
  {
    hide ChatFinish.Finishes;
    ChatFinish.FinishesOne(chunks, Content(INTERRUPTION));
    ChatFinish.FinishesOne(chunks + [Content(INTERRUPTION)], Finish(ErrorFinish));
    assert chunks + ERROR_CHUNK == chunks + [Content(INTERRUPTION)] + [Finish(ErrorFinish)];
  }

  lemma CutOne(chunks: seq<Chunk>, c: Chunk)
    ensures Cut(chunks + [c]) <==> Cut(chunks) || c == Finish(ErrorFinish)
  {
    var now := chunks + [c];
    if i :| 0 <= i < |chunks| && chunks[i] == Finish(ErrorFinish) { assert now[i] == chunks[i]; }
    assert now[|chunks|] == c;
  }

  /** The translator itself never reports an error. */
  lemma NeverErrorFinish(s: S.State, e: Event)
    ensures !Cut(s.out) ==> !Cut(S.Step(s, e).out)
    ensures S.Step(s, e).finalized <==> s.finalized || e.body.Terminal?
  {
    hide M.Announces, S.FinishOf, Cut;
    match e.body
    case Created => CutOne(s.out, Role);
    case TextDelta(_, _, d) => CutOne(s.out, Content(d));
    case ReasoningDelta(_, _, d) => CutOne(s.out, ReasoningContent(d));
    case ItemAdded(_, item) => CutOne(s.out, ToolStart(s.nextTool, item.callId, item.name));
    case ArgsDelta(index, _, d, _, _) => CutOne(s.out, ToolArgs(Lookup(s.toolOf, index, 0), d));
    case Terminal(status, _) => FinishNoError(status, s.sawTool); CutOne(s.out, Finish(S.FinishOf(status, s.sawTool)));
    case _ =>
  }

  lemma FinishNoError(status: Option<Status>, sawTool: bool)
    ensures S.FinishOf(status, sawTool) != ErrorFinish
  {
  }

  lemma {:induction false} FinalizedMeans(events: seq<Event>)
    ensures var s := S.Run(S.INITIAL, events);
            !Cut(s.out) && (s.finalized <==> exists i :: 0 <= i < |events| && events[i].body.Terminal?)
  {
    if events != [] {
      var before := events[..|events| - 1];
      FinalizedMeans(before);
      NeverErrorFinish(S.Run(S.INITIAL, before), events[|events| - 1]);
      hide S.Step, Cut;
      if i :| 0 <= i < |before| && before[i].body.Terminal? { assert events[i].body.Terminal?; }
      if i :| 0 <= i < |events| && events[i].body.Terminal? { assert i < |before| ==> before[i].body.Terminal?; }
    }
  }
}
