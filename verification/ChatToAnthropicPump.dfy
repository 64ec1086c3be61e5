/** The pump that serves a Chat Completions upstream to an Anthropic client: it reads lines,
    drives the two translators, and decides how the stream ends. The pump's writer never
    fails; JSON decoding of a data line is a parameter. */
module ChatToAnthropicPump {
  import opened Text
  import Sse
  import R = ResponsesEvents
  import opened AnthropicEvents
  import C = ChatToResponsesSpec
  import A = ResponsesToAnthropicSpec
  import ChatToResponses
  import ResponsesToAnthropic
  import opened H = FragmentHistory
  import opened Chain = ChatToAnthropicChain

  type Decoder = string -> Option<C.Chunk>

  // ---- the terminal rule ---------------------------------------------------------------

  predicate HasErrorFinish(chunk: C.Chunk) {
    exists i :: 0 <= i < |chunk.choices| && chunk.choices[i].finish == "error"
  }

  /** What the pump makes of one line: the sentinel, nothing of interest, an upstream
      failure (no chunk, or one that reports an error), or a chunk. */
  datatype Line = Sentinel | Other | Refused | Taken(chunk: C.Chunk)

  function Classify(decode: Decoder, line: string): Line {
    if Sse.IsDone(line) then Sentinel else
    var data := Sse.Data(line);
    if data.None? then Other else
    var chunk := decode(data.value);
    if chunk.None? || HasErrorFinish(chunk.value) then Refused else Taken(chunk.value)
  }

  /** The line carries this payload, as data. */
  ghost predicate Carries(line: string, payload: string) {
    payload != "" && payload != "[DONE]" && exists a, b :: Sse.DataLine(line, a, payload, b)
  }

  /** Every line, read on its characters: the sentinel; data that is no chunk, or a chunk that
      reports an error; a chunk; or else nothing of interest. */
  lemma LineMeans(decode: Decoder, line: string)
    ensures Classify(decode, line).Sentinel? <==> exists a, b, c :: Sse.DoneLine(line, a, b, c)
    ensures Classify(decode, line).Refused? <==>
              exists payload :: Carries(line, payload) &&
                (decode(payload).None? ||
                 exists i :: 0 <= i < |decode(payload).value.choices| && decode(payload).value.choices[i].finish == "error")
    ensures forall chunk :: Classify(decode, line) == Taken(chunk) <==>
              (forall i :: 0 <= i < |chunk.choices| ==> chunk.choices[i].finish != "error") &&
              exists payload :: Carries(line, payload) && decode(payload) == Some(chunk)
  {
    hide Sse.IsDone, Sse.Data;
    Sse.DoneMeans(line);
    Sse.SentinelIsNoData(line);
    forall payload ensures Sse.Data(line) == Some(payload) <==> Carries(line, payload) { Sse.DataMeans(line, payload); }
    hide Carries;
    if Sse.Data(line).Some? { assert Carries(line, Sse.Data(line).value); }
  }

  predicate Saw(decode: Decoder, lines: seq<string>, what: Line) {
    exists i :: 0 <= i < |lines| && Classify(decode, lines[i]) == what
  }

  /** The chunks that came before the first refused line. */
  function Accepted(decode: Decoder, lines: seq<string>): seq<C.Chunk> {
    if lines == [] then [] else
    var before, last := Accepted(decode, lines[..|lines| - 1]), Classify(decode, lines[|lines| - 1]);
    if last.Taken? && !Saw(decode, lines, Refused) then before + [last.chunk] else before
  }

  /** A stream ended well when no line was refused, the connection held, some chunk came, and
      either a finish reason or the sentinel was seen. */
  predicate Clean(decode: Decoder, lines: seq<string>, broken: bool) {
    var chunks := Accepted(decode, lines);
    && !Saw(decode, lines, Refused) && !broken && chunks != []
    && (FinishReason(C.AllFragments(chunks)) != "" || Saw(decode, lines, Sentinel))
  }

  /** The Anthropic stream before the end of the chat stream. */
  ghost function Partial(codec: A.Codec, chunks: seq<C.Chunk>): seq<Event> {
    View(codec, C.FeedChunks(C.INITIAL, chunks)).out
  }

  /** A stream that ended with the sentinel alone counts as finished with "stop". */
  function Named(c: C.State): C.State {
    if c.finish == "" then c.(finish := "stop") else c
  }

  function Answer(chunks: seq<C.Chunk>): seq<C.Fragment> {
    var h := C.AllFragments(chunks);
    if FinishReason(h) == "" then h + [C.Finish("stop")] else h
  }

  ghost function Delivered(codec: A.Codec, decode: Decoder, lines: seq<string>, broken: bool): seq<Event> {
    var chunks := Accepted(decode, lines);
    if Clean(decode, lines, broken) then View(codec, C.Finalize(Named(C.FeedChunks(C.INITIAL, chunks)))).out
    else Partial(codec, chunks) + [Error(Interrupted)]
  }

  // ---- what the client can rely on ------------------------------------------------------

  predicate Terminating(e: Event) {
    e.Error? || e.MessageStop?
  }

  /** A cleanly ended stream is the translated answer. Any other stream carries all the text
      seen so far, no stop, and one error as its very last event, well bracketed unless some
      reasoning was late: a truncated answer can never be taken for a finished one. */
  lemma PumpTheorem(codec: A.Codec, decode: Decoder, lines: seq<string>, broken: bool)
    ensures var chunks, out := Accepted(decode, lines), Delivered(codec, decode, lines, broken);
            if Clean(decode, lines, broken) then
              if AllObjects(codec, Answer(chunks)) then EndsShown(codec, Answer(chunks), out)
              else EndsFailed(codec, Answer(chunks), out)
            else
              && out != [] && out[|out| - 1] == Error(Interrupted)
              && (forall i :: 0 <= i < |out| - 1 ==> !Terminating(out[i]))
              && ReadAll(out).text == Written(C.AllFragments(chunks))
              && ReadAll(out).thinking == Reasoned(C.AllFragments(chunks))
              && ReadAll(out).phase == if LateReasoning(C.AllFragments(chunks)) then Broken else Phase.Failed
  {
    var chunks := Accepted(decode, lines);
    hide Accepted, C.AllFragments, EndsShown, EndsFailed, AllObjects, View, C.FeedChunks, Terminating;
    if Clean(decode, lines, broken) {
      AnswerTracks(codec, chunks);
      EndReads(codec, Answer(chunks), Named(C.FeedChunks(C.INITIAL, chunks)));
    } else {
      PartialReads(codec, chunks);
      ReadOne(Partial(codec, chunks), Error(Interrupted));
    }
    hide Written, Reasoned, LateReasoning, ReadAll, Partial, Clean, Answer, Named, Tracks, C.Finalize;
  }

  lemma AnswerTracks(codec: A.Codec, chunks: seq<C.Chunk>)
    requires chunks != []
    ensures Tracks(codec, Answer(chunks), Named(C.FeedChunks(C.INITIAL, chunks)))
    ensures C.FeedChunks(C.INITIAL, chunks).finish == FinishReason(C.AllFragments(chunks))
  {
    var h := C.AllFragments(chunks);
    hide C.AllFragments, C.FeedChunks, C.FeedAll, ViewTracks, TableTracks, FinishReason, View;
    AllFragmentsSolid(chunks);
    ChunksAreFragments(chunks);
    TrackAll(codec, h);
    FinishStep(codec, h, C.FeedChunks(C.INITIAL, chunks), "stop");
  }

  lemma PartialReads(codec: A.Codec, chunks: seq<C.Chunk>)
    ensures var h, r := C.AllFragments(chunks), ReadAll(Partial(codec, chunks));
            && r.text == Written(h) && r.thinking == Reasoned(h)
            && if LateReasoning(h) then r.phase.Broken? else r.phase.Before? || r.phase.Idle? || r.phase.Inside?
    ensures forall e :: e in Partial(codec, chunks) ==> !Terminating(e)
  {
    if chunks != [] {
      AllFragmentsSolid(chunks);
      ChunksAreFragments(chunks);
      TrackAll(codec, C.AllFragments(chunks));
      hide C.AllFragments, C.FeedChunks, A.Run, ReadAll, Written, Reasoned, Slots, LateReasoning, PendingTracks, SpanTracks, ChatTracks, C.FeedAll;
      QuietUntilStopped(codec, C.FeedChunks(C.INITIAL, chunks).out);
    }
  }

  predicate Quiet(s: A.State) {
    !s.stopped ==> forall e :: e in s.out ==> !Terminating(e)
  }

  lemma {:induction false} QuietUntilStopped(codec: A.Codec, events: seq<R.Event>)
    ensures Quiet(A.Run(codec, A.Initial(true), events))
  {
    if events != [] {
      var before, body := events[..|events| - 1], events[|events| - 1].body;
      QuietUntilStopped(codec, before);
      QuietStep(codec, A.Run(codec, A.Initial(true), before), body);
    }
  }

  lemma QuietFinish(codec: A.Codec, s: A.State, index: int, item: R.Item, callId: R.Id, name: string, args: string)
    requires Quiet(s)
    ensures Quiet(A.CloseBlock(s)) && Quiet(A.FinishItem(s, index, item))
    ensures Quiet(A.FinishArgs(codec, s, index, callId, name, args))
  {
    hide A.Sanitize, A.Confirm;
  }

  lemma QuietItem(codec: A.Codec, s: A.State, index: int, item: R.Item)
    requires Quiet(s)
    ensures Quiet(A.AddItem(s, index, item))
  {
    QuietFinish(codec, s, index, item, R.NoId, "", "");
    hide A.CloseBlock;
  }

  lemma QuietDelta(s: A.State, index: int, delta: string)
    requires Quiet(s)
    ensures Quiet(A.AddArgs(s, index, delta)) && Quiet(A.AddReasoning(s, index, delta))
  {
  }

  lemma QuietText(codec: A.Codec, s: A.State, delta: string)
    requires Quiet(s)
    ensures Quiet(A.AddText(s, delta))
  {
    QuietFinish(codec, s, 0, R.CallItem(R.NoId, R.NoId, "", "", true), R.NoId, "", "");
    hide A.CloseBlock;
  }

  lemma CompleteStops(codec: A.Codec, s: A.State, status: Option<R.Status>)
    ensures A.Complete(codec, s, status).stopped
  {
    hide A.FlushAll, A.SortedKeys;
  }

  lemma QuietStep(codec: A.Codec, s: A.State, body: R.Body)
    requires Quiet(s)
    ensures Quiet(A.Step(codec, s, body))
  {
    hide A.FinishArgs, A.FinishItem, A.Complete, A.CloseBlock, A.AddItem, A.AddText, A.AddArgs, A.AddReasoning;
    var item := R.CallItem(R.NoId, R.NoId, "", "", true);
    match body
    case ItemAdded(index, it) => QuietItem(codec, s, index, it);
    case TextDelta(_, _, delta) => QuietText(codec, s, delta);
    case ArgsDelta(index, _, delta, _, _) => QuietDelta(s, index, delta);
    case ReasoningDelta(index, _, delta) => QuietDelta(s, index, delta);
    case Terminal(status, _) => CompleteStops(codec, s, status);
    case ArgsDone(index, _, callId, name, args) => QuietFinish(codec, s, index, item, callId, name, args);
    case ItemDone(index, it) => QuietFinish(codec, s, index, it, R.NoId, "", "");
    case _ => QuietFinish(codec, s, 0, item, R.NoId, "", "");
  }

  // ---- the pump itself -----------------------------------------------------------------

  /** The Responses stream only ever grows. */
  lemma OpenGrows(c: C.State, f: C.ToolFragment)
    ensures c.out <= C.EnsureCreated(c).out && c.out <= C.OpenReasoning(c).out && c.out <= C.CloseReasoning(c).out
    ensures c.out <= C.OpenMessage(c).out && c.out <= C.OpenTextPart(c).out && c.out <= C.CloseMessage(c).out
    ensures C.CloseReasoning(c).out <= C.OpenTool(c, f).out
  {
  }

  lemma TextGrows(c: C.State, delta: string)
    ensures c.out <= C.AddText(c, delta).out && c.out <= C.AddReasoning(c, delta).out
  {
    var f := C.ToolFragment(None, "", "", "");
    OpenGrows(c, f);
    OpenGrows(C.OpenMessage(c), f);
    hide C.OpenMessage, C.OpenTextPart, C.OpenReasoning;
  }

  lemma ToolGrows(c: C.State, f: C.ToolFragment)
    ensures c.out <= C.AddTool(c, f).out
  {
    OpenGrows(c, f);
    hide C.OpenTool, C.CloseReasoning;
  }

  lemma {:induction false} FeedGrows(c: C.State, h: seq<C.Fragment>)
    ensures c.out <= C.FeedAll(c, h).out
  {
    if h != [] {
      FeedGrows(c, h[..|h| - 1]);
      var d, f := C.FeedAll(c, h[..|h| - 1]), h[|h| - 1];
      OpenGrows(d, C.ToolFragment(None, "", "", ""));
      hide C.AddTool, C.AddText, C.AddReasoning, C.CloseReasoning;
      match f
      case Reason(t) => TextGrows(d, t);
      case Content(t) => TextGrows(C.CloseReasoning(d), t);
      case Tool(call) => ToolGrows(d, call);
      case _ =>
    }
  }

  lemma {:induction false} CloseToolsGrows(c: C.State, n: nat)
    ensures c.out <= C.CloseTools(c, n).out
  {
    if n > 0 { CloseToolsGrows(c, n - 1); }
  }

  lemma FallbackGrows(c: C.State)
    ensures c.out <= C.Fallback(c).out
  {
    TextGrows(c, c.reasoning.text);
    hide C.AddText, C.NeedsFallback;
  }

  lemma CloseGrows(c: C.State)
    ensures c.out <= C.CloseMessage(C.Fallback(C.CloseReasoning(C.EnsureCreated(c)))).out
  {
    var f := C.ToolFragment(None, "", "", "");
    OpenGrows(c, f);
    OpenGrows(C.EnsureCreated(c), f);
    var e := C.CloseReasoning(C.EnsureCreated(c));
    FallbackGrows(e);
    OpenGrows(C.Fallback(e), f);
    hide C.EnsureCreated, C.CloseReasoning, C.Fallback, C.CloseMessage, C.OpenReasoning, C.OpenMessage, C.OpenTextPart, C.OpenTool;
  }

  lemma FinalizeGrows(c: C.State)
    ensures c.out <= C.Finalize(c).out
  {
    CloseGrows(c);
    var t := C.CloseMessage(C.Fallback(C.CloseReasoning(C.EnsureCreated(c))));
    CloseToolsGrows(t, |t.tools.calls|);
    hide C.EnsureCreated, C.CloseReasoning, C.Fallback, C.CloseMessage, C.CloseTools, C.Output;
  }

  /** Hands the new Responses events to the Anthropic translator. */
  method Relay(anthropic: ResponsesToAnthropic.StreamState, before: seq<Event>, log: seq<R.Event>, from: nat)
    returns (written: seq<Event>)
    requires from <= |log| && anthropic.Abs(before) == A.Run(anthropic.codec, A.Initial(true), log[..from])
    modifies anthropic
    ensures anthropic.Abs(written) == A.Run(anthropic.codec, A.Initial(true), log)
  {
    written := before;
    hide A.Step, A.Run;
    for i := from to |log|
      invariant anthropic.Abs(written) == A.Run(anthropic.codec, A.Initial(true), log[..i])
    {
      written := anthropic.Convert(written, log[i].body);
      A.RunOne(anthropic.codec, A.Initial(true), log[..i], log[i]);
      assert log[..i] + [log[i]] == log[..i + 1];
    }
    assert log[..|log|] == log;
  }

  lemma SawOne(decode: Decoder, lines: seq<string>, line: string, what: Line)
    ensures Saw(decode, lines + [line], what) <==> Saw(decode, lines, what) || Classify(decode, line) == what
  {
    hide Classify;
    var now := lines + [line];
    if i :| 0 <= i < |now| && Classify(decode, now[i]) == what && i < |lines| {
      assert Classify(decode, lines[i]) == what;
    }
    if i :| 0 <= i < |lines| && Classify(decode, lines[i]) == what {
      assert now[i] == lines[i];
    }
    assert now[|lines|] == line;
  }

  lemma AcceptedOne(decode: Decoder, lines: seq<string>, line: string)
    ensures Accepted(decode, lines + [line]) ==
            if Classify(decode, line).Taken? && !Saw(decode, lines, Refused)
            then Accepted(decode, lines) + [Classify(decode, line).chunk] else Accepted(decode, lines)
  {
    hide Classify, Saw;
    SawOne(decode, lines, line, Refused);
    assert (lines + [line])[..|lines|] == lines;
  }

  /** After a refused line nothing more is read. */
  lemma {:induction false} NothingAfterRefusal(decode: Decoder, lines: seq<string>, more: seq<string>)
    requires Saw(decode, lines, Refused)
    ensures Saw(decode, lines + more, Refused) && Accepted(decode, lines + more) == Accepted(decode, lines)
    decreases |more|
  {
    hide Classify, Saw, Accepted;
    if more == [] {
      assert lines + more == lines;
    } else {
      var n := |more| - 1;
      NothingAfterRefusal(decode, lines, more[..n]);
      SawOne(decode, lines + more[..n], more[n], Refused);
      AcceptedOne(decode, lines + more[..n], more[n]);
      assert lines + more[..n] + [more[n]] == lines + more;
    }
  }

  method HasError(chunk: C.Chunk) returns (found: bool)
    ensures found == HasErrorFinish(chunk)
  {
    for i := 0 to |chunk.choices|
      invariant forall j :: 0 <= j < i ==> chunk.choices[j].finish != "error"
    {
      if chunk.choices[i].finish == "error" { return true; }
    }
    return false;
  }

  /** The pump's reading of one line. */
  method Inspect(decode: Decoder, line: string) returns (what: Line)
    ensures what == Classify(decode, line)
  {
    if Sse.IsDone(line) { return Sentinel; }
    var data := Sse.Data(line);
    if data.None? { return Other; }
    var chunk := decode(data.value);
    if chunk.None? { return Refused; }
    var failed := HasError(chunk.value);
    if failed { return Refused; }
    return Taken(chunk.value);
  }

  method ServeChunk(chat: ChatToResponses.StreamState, anthropic: ResponsesToAnthropic.StreamState,
                    before: seq<Event>, log: seq<R.Event>, chunk: C.Chunk)
    returns (written: seq<Event>, events: seq<R.Event>)
    requires anthropic.Abs(before) == A.Run(anthropic.codec, A.Initial(true), log)
    modifies chat, anthropic
    ensures chat.Abs(events) == C.FeedChunk(old(chat.Abs(log)), chunk)
    ensures anthropic.Abs(written) == A.Run(anthropic.codec, A.Initial(true), events)
  {
    ChunkGrows(chat.Abs(log), chunk);
    events := chat.ConvertChunk(log, chunk);
    assert events[..|log|] == log;
    written := Relay(anthropic, before, events, |log|);
  }

  /** Ends both translators; the second has nothing left to say. */
  method ServeEnd(chat: ChatToResponses.StreamState, anthropic: ResponsesToAnthropic.StreamState,
                  before: seq<Event>, log: seq<R.Event>, ghost h: seq<C.Fragment>)
    returns (written: seq<Event>)
    requires anthropic.Abs(before) == A.Run(anthropic.codec, A.Initial(true), log)
    requires Tracks(anthropic.codec, h, chat.Abs(log))
    modifies chat, anthropic
    ensures written == View(anthropic.codec, C.Finalize(old(chat.Abs(log)))).out
  {
    hide Tracks, C.Finalize, A.Run, Ready, A.FlushAll, A.SortedKeys;
    FinalizeGrows(chat.Abs(log));
    EndView(anthropic.codec, h, chat.Abs(log));
    var events := chat.Finalize(log);
    assert events[..|log|] == log;
    written := Relay(anthropic, before, events, |log|);
    written := anthropic.Finalize(written);
  }

  /** The end of an unbroken connection, with what was seen of it. */
  method Conclude(chat: ChatToResponses.StreamState, anthropic: ResponsesToAnthropic.StreamState, before: seq<Event>,
                  log: seq<R.Event>, sawChunk: bool, sawDone: bool, ghost chunks: seq<C.Chunk>)
    returns (written: seq<Event>)
    requires anthropic.Abs(before) == A.Run(anthropic.codec, A.Initial(true), log)
    requires chat.Abs(log) == C.FeedChunks(C.INITIAL, chunks) && (sawChunk <==> chunks != [])
    modifies chat, anthropic
    ensures written ==
            if chunks != [] && (FinishReason(C.AllFragments(chunks)) != "" || sawDone)
            then View(anthropic.codec, C.Finalize(Named(C.FeedChunks(C.INITIAL, chunks)))).out
            else Partial(anthropic.codec, chunks) + [Error(Interrupted)]
  {
    hide A.Run, C.Finalize, C.FeedChunks, C.AllFragments, Tracks, Answer, FinishReason;
    if chunks != [] { AnswerTracks(anthropic.codec, chunks); }
    if !sawChunk || (chat.finishReason == "" && !sawDone) { return before + [Error(Interrupted)]; }
    if chat.finishReason == "" {
      chat.finishReason := "stop";
    }
    written := ServeEnd(chat, anthropic, before, log, Answer(chunks));
  }

  /** Serves the lines of an upstream; `broken` says that the connection failed after them. */
  method PumpChatToAnthropic(codec: A.Codec, decode: Decoder, lines: seq<string>, broken: bool)
    returns (written: seq<Event>)
    ensures written == Delivered(codec, decode, lines, broken)
  {
    var chat := new ChatToResponses.StreamState();
    var anthropic := new ResponsesToAnthropic.StreamState(codec, true);
    var log, sawChunk, sawDone := [], false, false;
    written := [];
    assert lines[..0] == [];
    assert C.FeedChunks(C.INITIAL, Accepted(decode, lines[..0])) == C.INITIAL;
    hide C.FeedChunk, A.Run, C.Finalize, C.FeedChunks, Accepted, Saw, Classify, C.AllFragments, Delivered, SoFar, Partial, View, Named, FinishReason;
    assert SoFar(decode, lines[..0], false, false) by { NoLines(decode); }
    for n := 0 to |lines|
      invariant fresh(chat) && fresh(anthropic) && anthropic.codec == codec
      invariant SoFar(decode, lines[..n], sawChunk, sawDone)
      invariant chat.Abs(log) == C.FeedChunks(C.INITIAL, Accepted(decode, lines[..n]))
      invariant anthropic.Abs(written) == A.Run(codec, A.Initial(true), log)
    {
      LineRead(decode, lines, n, sawChunk, sawDone);
      var what := Inspect(decode, lines[n]);
      match what
      case Sentinel => sawDone := true;
      case Other =>
      case Refused =>
        PartialIs(codec, Accepted(decode, lines[..n]), log);
        CutShort(codec, decode, lines, broken, n + 1);
        return written + [Error(Interrupted)];
      case Taken(chunk) =>
        sawChunk := true;
        FeedChunksOne(Accepted(decode, lines[..n]), chunk);
        written, log := ServeChunk(chat, anthropic, written, log, chunk);
    }
    assert lines[..|lines|] == lines;
    if broken {
      PartialIs(codec, Accepted(decode, lines), log);
      CutShort(codec, decode, lines, broken, |lines|);
      return written + [Error(Interrupted)];
    }
    written := Conclude(chat, anthropic, written, log, sawChunk, sawDone, Accepted(decode, lines));
    CleanEnd(codec, decode, lines, sawChunk, sawDone);
  }

  lemma NoLines(decode: Decoder)
    ensures SoFar(decode, [], false, false)
  {
  }

  /** What a pump has seen of the lines so far, none of which was refused. */
  ghost predicate SoFar(decode: Decoder, lines: seq<string>, sawChunk: bool, sawDone: bool) {
    !Saw(decode, lines, Refused) && (sawChunk <==> Accepted(decode, lines) != []) && (sawDone <==> Saw(decode, lines, Sentinel))
  }

  lemma LineRead(decode: Decoder, lines: seq<string>, n: nat, sawChunk: bool, sawDone: bool)
    requires n < |lines| && SoFar(decode, lines[..n], sawChunk, sawDone)
    ensures var what, before, after := Classify(decode, lines[n]), lines[..n], lines[..n + 1];
            && (what.Refused? ==> Saw(decode, after, Refused))
            && (!what.Refused? ==> SoFar(decode, after, sawChunk || what.Taken?, sawDone || what.Sentinel?))
            && Accepted(decode, after) == if what.Taken? then Accepted(decode, before) + [what.chunk] else Accepted(decode, before)
  {
    hide Saw, Accepted, Classify;
    SawOne(decode, lines[..n], lines[n], Refused);
    SawOne(decode, lines[..n], lines[n], Sentinel);
    AcceptedOne(decode, lines[..n], lines[n]);
    assert lines[..n] + [lines[n]] == lines[..n + 1];
  }

  /** A stream that is refused at some line, or whose connection breaks at the end. */
  lemma CutShort(codec: A.Codec, decode: Decoder, lines: seq<string>, broken: bool, n: nat)
    requires n <= |lines| && (Saw(decode, lines[..n], Refused) || (n == |lines| && broken))
    ensures Delivered(codec, decode, lines, broken) == Partial(codec, Accepted(decode, lines[..n])) + [Error(Interrupted)]
  {
    hide Saw, Accepted, Partial, View, C.FeedChunks, C.Finalize, C.AllFragments;
    assert n == |lines| ==> lines[..n] == lines;
    assert lines[..n] + lines[n..] == lines;
    if Saw(decode, lines[..n], Refused) { NothingAfterRefusal(decode, lines[..n], lines[n..]); }
  }

  lemma PartialIs(codec: A.Codec, chunks: seq<C.Chunk>, log: seq<R.Event>)
    requires log == C.FeedChunks(C.INITIAL, chunks).out
    ensures Partial(codec, chunks) == A.Run(codec, A.Initial(true), log).out
  {
  }

  lemma CleanEnd(codec: A.Codec, decode: Decoder, lines: seq<string>, sawChunk: bool, sawDone: bool)
    requires SoFar(decode, lines, sawChunk, sawDone)
    ensures var chunks := Accepted(decode, lines);
            Delivered(codec, decode, lines, false) ==
            if chunks != [] && (FinishReason(C.AllFragments(chunks)) != "" || sawDone)
            then View(codec, C.Finalize(Named(C.FeedChunks(C.INITIAL, chunks)))).out
            else Partial(codec, chunks) + [Error(Interrupted)]
  {
    hide Saw, Accepted, Partial, View, C.FeedChunks, C.Finalize, C.AllFragments;
  }

  lemma FeedChunksOne(chunks: seq<C.Chunk>, chunk: C.Chunk)
    ensures C.FeedChunks(C.INITIAL, chunks + [chunk]) == C.FeedChunk(C.FeedChunks(C.INITIAL, chunks), chunk)
  {
    assert (chunks + [chunk])[..|chunks|] == chunks;
  }

  lemma ChunkGrows(s: C.State, chunk: C.Chunk)
    ensures s.out <= C.FeedChunk(s, chunk).out
  {
    OpenGrows(s, C.ToolFragment(None, "", "", ""));
    FeedGrows(C.EnsureCreated(s), C.Fragments(chunk.choices));
    hide C.EnsureCreated, C.FeedAll, C.Fragments;
  }
}
