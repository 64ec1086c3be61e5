/** Why a chat answer ended, and which calls it holds, read off the Responses events or the output
    array by kind and status alone. */
module ChatFinish {
  import opened Text
  import opened ResponsesEvents
  import opened M = ResponsesMeaning
  import opened S = ResponsesToChatSpec

  /** A function call or a custom tool call is announced. */
  predicate StartsCall(e: Event) {
    e.body.ItemAdded? && (e.body.item.kind == FunctionCall || e.body.item.kind == CustomToolCall)
  }

  predicate SomeCall(events: seq<Event>) {
    exists i :: 0 <= i < |events| && StartsCall(events[i])
  }

  /** The identity of each announced call, in order. */
  function Announced(events: seq<Event>): seq<Call> {
    if events == [] then [] else
    var before, e := Announced(events[..|events| - 1]), events[|events| - 1];
    if StartsCall(e) then before + [Call(e.body.item.callId, e.body.item.name, "")] else before
  }

  /** The calls of a stream are the announced ones, with their arguments filled in. */
  lemma {:induction false} CallsAreAnnounced(events: seq<Event>)
    ensures |Calls(events)| == |Announced(events)|
    ensures forall j :: 0 <= j < |Calls(events)| ==> Announced(events)[j] == Calls(events)[j].(args := "")
    ensures Calls(events) != [] <==> SomeCall(events)
  {
    if events != [] {
      var before, e := events[..|events| - 1], events[|events| - 1];
      assert before + [e] == events;
      CallsAreAnnounced(before);
      CallsPointwise(before, e);
      SomeCallOne(before, e);
      hide Owner, Starts, Calls, SomeCall;
    }
  }

  lemma SomeCallOne(events: seq<Event>, e: Event)
    ensures SomeCall(events + [e]) <==> SomeCall(events) || StartsCall(e)
  {
    var now := events + [e];
    if i :| 0 <= i < |events| && StartsCall(events[i]) { assert StartsCall(now[i]); }
    assert now[|events|] == e;
    assert forall i :: 0 <= i < |events| ==> now[i] == events[i];
  }

  // ---- the streamed answer -------------------------------------------------------------------

  /** The finish reason of a terminal event: the token limit for an answer cut there, tool calls
      for an answer that completed, or whose end carries no response, with some call announced, and
      otherwise a plain stop. */
  predicate FinishFits(events: seq<Event>, status: Option<Status>, r: FinishReason) {
    && (r == Length <==> status == Some(Incomplete(true)))
    && (r == ToolCalls <==> (status == Some(Completed) || status == None) && SomeCall(events))
    && r != ErrorFinish
  }

  /** The finish reasons of a stream, in order. */
  function Finishes(chunks: seq<Chunk>): seq<FinishReason> {
    if chunks == [] then [] else
    Finishes(chunks[..|chunks| - 1]) + if chunks[|chunks| - 1].Finish? then [chunks[|chunks| - 1].reason] else []
  }

  lemma FinishesOne(chunks: seq<Chunk>, c: Chunk)
    ensures Finishes(chunks + [c]) == Finishes(chunks) + if c.Finish? then [c.reason] else []
  {
    assert (chunks + [c])[..|chunks|] == chunks;
  }

  /** One finish reason for each terminal event, in order. */
  ghost predicate AllFit(events: seq<Event>, reasons: seq<FinishReason>) {
    if events == [] then reasons == [] else
    var before, body := events[..|events| - 1], events[|events| - 1].body;
    if body.Terminal? then
      reasons != [] && FinishFits(before, body.status, reasons[|reasons| - 1]) && AllFit(before, reasons[..|reasons| - 1])
    else AllFit(before, reasons)
  }

  /** What one event adds to the chunks. */
  lemma StepAdds(s: State, e: Event)
    ensures var t := Step(s, e);
            && (!e.body.Terminal? ==> Finishes(t.out) == Finishes(s.out))
            && (e.body.Terminal? ==> |Finishes(t.out)| == |Finishes(s.out)| + 1 && t.out == s.out + [Finish(Finishes(t.out)[|Finishes(s.out)|])])
            && Finishes(s.out) <= Finishes(t.out)
  {
    hide Finishes, FinishOf;
    match e.body
    case Created => FinishesOne(s.out, Role);
    case TextDelta(_, _, d) => FinishesOne(s.out, Content(d));
    case ReasoningDelta(_, _, d) => FinishesOne(s.out, ReasoningContent(d));
    case ItemAdded(_, item) => FinishesOne(s.out, ToolStart(s.nextTool, item.callId, item.name));
    case ArgsDelta(index, _, d, _, _) => FinishesOne(s.out, ToolArgs(Lookup(s.toolOf, index, 0), d));
    case Terminal(status, _) => FinishesOne(s.out, Finish(FinishOf(status, s.sawTool)));
    case _ =>
  }

  lemma SawCall(events: seq<Event>)
    ensures Run(INITIAL, events).sawTool <==> SomeCall(events)
  {
    BothKeepMeaning(events);
    CallsAreAnnounced(events);
    CallsAreStarts(events);
    hide Run, Calls, Starts, SomeCall, IndexTracks;
  }

  // ---- the role ------------------------------------------------------------------------------

  function Roles(chunks: seq<Chunk>): nat {
    if chunks == [] then 0 else Roles(chunks[..|chunks| - 1]) + if chunks[|chunks| - 1].Role? then 1 else 0
  }

  predicate Begun(events: seq<Event>) {
    exists i :: 0 <= i < |events| && events[i].body.Created?
  }

  lemma BegunOne(events: seq<Event>, e: Event)
    ensures Begun(events + [e]) <==> Begun(events) || e.body.Created?
  {
    var now := events + [e];
    if i :| 0 <= i < |events| && events[i].body.Created? { assert now[i].body.Created?; }
    assert now[|events|] == e;
    assert forall i :: 0 <= i < |events| ==> now[i] == events[i];
  }

  lemma RolesOne(chunks: seq<Chunk>, c: Chunk)
    ensures Roles(chunks + [c]) == Roles(chunks) + if c.Role? then 1 else 0
  {
    assert (chunks + [c])[..|chunks|] == chunks;
  }

  lemma StepRole(s: State, e: Event)
    ensures var t := Step(s, e);
            && (t.sentRole <==> s.sentRole || e.body.Created?)
            && Roles(t.out) == Roles(s.out) + if e.body.Created? && !s.sentRole then 1 else 0
  {
    hide Roles, FinishOf;
    match e.body
    case Created => RolesOne(s.out, Role);
    case TextDelta(_, _, d) => RolesOne(s.out, Content(d));
    case ReasoningDelta(_, _, d) => RolesOne(s.out, ReasoningContent(d));
    case ItemAdded(_, item) => RolesOne(s.out, ToolStart(s.nextTool, item.callId, item.name));
    case ArgsDelta(index, _, d, _, _) => RolesOne(s.out, ToolArgs(Lookup(s.toolOf, index, 0), d));
    case Terminal(status, _) => RolesOne(s.out, Finish(FinishOf(status, s.sawTool)));
    case _ =>
  }

  /** The role is sent once, however often the stream says that it begins, or not at all. */
  lemma {:induction false} RoleSentOnce(events: seq<Event>)
    ensures Roles(Run(INITIAL, events).out) == if Begun(events) then 1 else 0
    ensures Run(INITIAL, events).sentRole <==> Begun(events)
  {
    if events == [] {
      assert !Begun(events);
    } else {
      hide Step, Roles, Begun;
      var before, e := events[..|events| - 1], events[|events| - 1];
      RoleSentOnce(before);
      StepRole(Run(INITIAL, before), e);
      BegunOne(before, e);
      assert before + [e] == events;
    }
  }

  /** The chunk a terminal event causes. */
  lemma TerminalFits(events: seq<Event>, e: Event)
    requires e.body.Terminal?
    ensures var s := Run(INITIAL, events);
            var t := Step(s, e);
            t.out == s.out + [t.out[|s.out|]] && t.out[|s.out|].Finish? && FinishFits(events, e.body.status, t.out[|s.out|].reason)
  {
    SawCall(events);
    hide Run, SomeCall;
  }

  lemma {:induction false} StreamFinishes(events: seq<Event>)
    ensures AllFit(events, Finishes(Run(INITIAL, events).out))
  {
    hide Step, FinishFits;
    if events != [] {
      var before, e := events[..|events| - 1], events[|events| - 1];
      StreamFinishes(before);
      var s := Run(INITIAL, before);
      StepAdds(s, e);
      if e.body.Terminal? {
        TerminalFits(before, e);
        var reasons := Finishes(Step(s, e).out);
        assert reasons[..|reasons| - 1] == Finishes(s.out);
      }
      hide Finishes;
    }
  }

  /** A stream that ended without a terminal event says whether some call was announced. */
  lemma FinalizeFits(events: seq<Event>)
    ensures var s := Run(INITIAL, events);
            Finalize(s).out == if s.finalized then s.out else s.out + [Finish(if SomeCall(events) then ToolCalls else Stop)]
  {
    SawCall(events);
    hide Run, SomeCall;
  }

  // ---- the buffered answer -------------------------------------------------------------------

  function Texts(output: seq<Item>, kind: ItemKind): string {
    if output == [] then "" else
    Texts(output[..|output| - 1], kind) + if output[|output| - 1].kind == kind then output[|output| - 1].text else ""
  }

  function FunctionCalls(output: seq<Item>): seq<Call> {
    if output == [] then [] else
    var before, item := FunctionCalls(output[..|output| - 1]), output[|output| - 1];
    if item.kind == FunctionCall then before + [Call(item.callId, item.name, item.args)] else before
  }

  /** The answer of an output array: the texts of its messages, of its reasoning, and its function
      calls, each in order; nothing else counts. */
  lemma {:induction false} OutputMeans(output: seq<Item>)
    ensures ReadOutput(output) == Answer(Texts(output, Message), Texts(output, Reasoning), FunctionCalls(output))
    ensures FunctionCalls(output) != [] <==> exists i :: 0 <= i < |output| && output[i].kind == FunctionCall
  {
    if output != [] {
      var before, n := output[..|output| - 1], |output| - 1;
      OutputMeans(before);
      assert Texts(before, Message) + "" == Texts(before, Message) && Texts(before, Reasoning) + "" == Texts(before, Reasoning);
      if i :| 0 <= i < n && before[i].kind == FunctionCall { assert output[i].kind == FunctionCall; }
      assert forall i :: 0 <= i < n ==> output[i] == before[i];
    }
  }

  /** The finish reason of an output array. */
  lemma BufferedFits(status: Status, output: seq<Item>)
    ensures var r := Complete(status, output).finish;
            && (r == Length <==> status == Incomplete(true))
            && (r == ToolCalls <==> status == Completed && exists i :: 0 <= i < |output| && output[i].kind == FunctionCall)
            && r != ErrorFinish
  {
    OutputMeans(output);
    hide ReadOutput;
  }

  /** A client that joins the streamed chunks and a client of the buffered path see the same
      text, the same reasoning and the same calls in the same order, with the same finish
      reason, the one that fits the events, for every event list whose terminal event carries no
      output of its own. */
  lemma StreamedIsBuffered(events: seq<Event>, terminal: Event, status: Status)
    requires terminal.body == Terminal(Some(status), [])
    ensures var s, buffered := Run(INITIAL, events + [terminal]), Complete(status, Supplement([], GatherAll(events).gathered));
            && buffered.answer == JoinChunks(s.out) == Meaning(events)
            && s.out != [] && s.out[|s.out| - 1] == Finish(buffered.finish) && FinishFits(events, Some(status), buffered.finish)
  {
    hide Calls, Starts, IndexTracks, Spoken, Thought, BuildOutput, ReadOutput, JoinChunks, SomeCall;
    BothKeepMeaning(events);
    assert (events + [terminal])[..|events|] == events;
    var s := Run(INITIAL, events);
    JoinOne(s.out, Finish(FinishOf(Some(status), s.sawTool)));
    OutputRoundTrip(GatherAll(events).gathered);
    CallsAreStarts(events);
    TerminalFits(events, terminal);
  }
}
