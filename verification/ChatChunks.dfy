/** What a list of chat chunks says, read field by field. */
module ChatChunks {
  import opened Text
  import opened ChatToResponsesSpec
  import opened FragmentHistory
  import AnthropicEvents
  import A = ResponsesToAnthropicSpec
  import Chain = ChatToAnthropicChain

  /** All choices of the chunks, in order. */
  function AllChoices(chunks: seq<Chunk>): seq<Choice> {
    if chunks == [] then [] else AllChoices(chunks[..|chunks| - 1]) + chunks[|chunks| - 1].choices
  }

  function SlotOf(t: ToolFragment): int {
    match t.index
    case Some(i) => i
    case None => 0
  }

  predicate NewTo(tools: seq<ToolFragment>, t: ToolFragment) {
    forall i :: 0 <= i < |tools| ==> SlotOf(tools[i]) != SlotOf(t)
  }

  predicate AnyNewTo(tools: seq<ToolFragment>, more: seq<ToolFragment>) {
    exists i :: 0 <= i < |more| && NewTo(tools, more[i])
  }

  /** The words of the choices, their tool fragments, the last finish reason given, whether the
      reasoning has been followed by an answer or a new call, and whether more came after that. */
  datatype Heard = Heard(content: string, reasoning: string, finish: string, tools: seq<ToolFragment>, ended: bool, late: bool)

  /** Within a choice, reasoning comes first, then content, then the tools. */
  function Next(a: Heard, c: Choice): Heard {
    Heard(a.content + c.content, a.reasoning + c.reasoning, if c.finish != "" then c.finish else a.finish, a.tools + c.tools,
          a.ended || (a.reasoning + c.reasoning != "" && (c.content != "" || AnyNewTo(a.tools, c.tools))),
          a.late || (a.ended && c.reasoning != ""))
  }

  function Hear(choices: seq<Choice>): Heard {
    if choices == [] then Heard("", "", "", [], false, false) else Next(Hear(choices[..|choices| - 1]), choices[|choices| - 1])
  }

  function Tools(h: seq<Fragment>): seq<ToolFragment> {
    if h == [] then [] else Tools(h[..|h| - 1]) + if h[|h| - 1].Tool? then [h[|h| - 1].call] else []
  }

  predicate Tells(h: seq<Fragment>, a: Heard) {
    && Written(h) == a.content && Reasoned(h) == a.reasoning && FinishReason(h) == a.finish && Tools(h) == a.tools
    && SpanEnded(h) == a.ended && LateReasoning(h) == a.late
  }

  lemma ToolsOne(h: seq<Fragment>, f: Fragment)
    ensures Tools(h + [f]) == if f.Tool? then Tools(h) + [f.call] else Tools(h)
  {
    assert (h + [f])[..|h|] == h;
  }

  lemma NewToMore(tools: seq<ToolFragment>, x: ToolFragment, t: ToolFragment)
    ensures NewTo(tools + [x], t) <==> NewTo(tools, t) && SlotOf(x) != SlotOf(t)
  {
    var all := tools + [x];
    assert all[|tools|] == x && forall i :: 0 <= i < |tools| ==> all[i] == tools[i];
  }

  /** The slots in use are those of the tool fragments. */
  lemma {:induction false} SlotsAre(h: seq<Fragment>, t: ToolFragment)
    ensures SlotOf(t) in Slots(h) <==> !NewTo(Tools(h), t)
  {
    hide NewTo;
    if h == [] {
      NothingOld(t);
    } else {
      var before, f := h[..|h| - 1], h[|h| - 1];
      SlotsAre(before, t);
      assert before + [f] == h;
      Extend(before, f);
      ToolsOne(before, f);
      if f.Tool? { NewToMore(Tools(before), f.call, t); }
      hide Slots, Tools;
    }
  }

  lemma NothingOld(t: ToolFragment)
    ensures NewTo([], t) && !AnyNewTo([], [])
  {
  }

  lemma AnyNewMore(known: seq<ToolFragment>, more: seq<ToolFragment>, t: ToolFragment)
    ensures AnyNewTo(known, more + [t]) <==> AnyNewTo(known, more) || NewTo(known, t)
  {
    hide NewTo;
    var all := more + [t];
    if i :| 0 <= i < |more| && NewTo(known, more[i]) { assert NewTo(known, all[i]); }
    if NewTo(known, t) { assert NewTo(known, all[|more|]); }
  }

  lemma NewAmong(known: seq<ToolFragment>, more: seq<ToolFragment>, t: ToolFragment)
    ensures NewTo(known + more, t) ==> NewTo(known, t)
    ensures NewTo(known, t) && !NewTo(known + more, t) ==> AnyNewTo(known, more)
  {
    var all := known + more;
    assert forall i :: 0 <= i < |known| ==> all[i] == known[i];
    if NewTo(known, t) && !NewTo(all, t) {
      var i :| 0 <= i < |all| && SlotOf(all[i]) == SlotOf(t);
      assert NewTo(known, more[i - |known|]);
    }
  }

  lemma {:induction false} AfterTools(h: seq<Fragment>, a: Heard, tools: seq<ToolFragment>)
    requires Tells(h, a)
    ensures Tells(h + ToolFragments(tools), a.(tools := a.tools + tools,
                                               ended := a.ended || (a.reasoning != "" && AnyNewTo(a.tools, tools))))
    decreases |tools|
  {
    hide NewTo, AnyNewTo, Written, Reasoned, Slots, SpanEnded, LateReasoning, FinishReason, Tools;
    if tools == [] {
      NothingNew(a.tools);
      assert h + ToolFragments(tools) == h && a.tools + tools == a.tools;
    } else {
      var before, t := tools[..|tools| - 1], tools[|tools| - 1];
      var g := h + ToolFragments(before);
      AfterTools(h, a, before);
      assert h + ToolFragments(tools) == g + [Tool(t)];
      assert a.tools + tools == a.tools + before + [t];
      assert before + [t] == tools;
      Extend(g, Tool(t));
      ToolsOne(g, Tool(t));
      SlotsAre(g, t);
      AnyNewMore(a.tools, before, t);
      NewAmong(a.tools, before, t);
      assert Written(g) + "" == Written(g) && Reasoned(g) + "" == Reasoned(g);
    }
  }

  lemma NothingNew(known: seq<ToolFragment>)
    ensures !AnyNewTo(known, [])
  {
  }

  /** The words of a choice. */
  function Words(c: Choice): seq<Fragment> {
    (if c.reasoning != "" then [Reason(c.reasoning)] else []) + (if c.content != "" then [Content(c.content)] else [])
  }

  function Worded(a: Heard, c: Choice): Heard {
    a.(content := a.content + c.content, reasoning := a.reasoning + c.reasoning,
       ended := a.ended || (a.reasoning + c.reasoning != "" && c.content != ""), late := a.late || (a.ended && c.reasoning != ""))
  }

  lemma AfterWords(h: seq<Fragment>, a: Heard, c: Choice)
    requires Tells(h, a)
    ensures Tells(h + Words(c), Worded(a, c))
  {
    hide Written, Reasoned, Slots, SpanEnded, LateReasoning, FinishReason, Tools;
    assert a.content + "" == a.content && a.reasoning + "" == a.reasoning;
    var g := h + if c.reasoning != "" then [Reason(c.reasoning)] else [];
    if c.reasoning != "" {
      Extend(h, Reason(c.reasoning));
      ToolsOne(h, Reason(c.reasoning));
    } else {
      assert g == h;
    }
    if c.content != "" {
      Extend(g, Content(c.content));
      ToolsOne(g, Content(c.content));
    }
    assert h + Words(c) == if c.content != "" then g + [Content(c.content)] else g;
  }

  lemma AfterFinish(h: seq<Fragment>, a: Heard, finish: string)
    requires Tells(h, a)
    ensures Tells(h + (if finish != "" then [Finish(finish)] else []), a.(finish := if finish != "" then finish else a.finish))
  {
    hide Written, Reasoned, Slots, SpanEnded, LateReasoning, FinishReason, Tools;
    assert a.content + "" == a.content && a.reasoning + "" == a.reasoning;
    if finish == "" {
      assert h + [] == h;
    } else {
      Extend(h, Finish(finish));
      ToolsOne(h, Finish(finish));
    }
  }

  lemma AfterChoice(h: seq<Fragment>, a: Heard, c: Choice)
    requires Tells(h, a)
    ensures Tells(h + ChoiceFragments(c), Next(a, c))
  {
    hide Tells, AnyNewTo, Words, ToolFragments;
    var b := Worded(a, c);
    AfterWords(h, a, c);
    AfterTools(h + Words(c), b, c.tools);
    AfterFinish(h + Words(c) + ToolFragments(c.tools),
                b.(tools := b.tools + c.tools, ended := b.ended || (b.reasoning != "" && AnyNewTo(b.tools, c.tools))), c.finish);
    ChoiceParts(c);
    Associate(h, Words(c), ToolFragments(c.tools));
    Associate(h, Words(c) + ToolFragments(c.tools), if c.finish != "" then [Finish(c.finish)] else []);
  }

  lemma ChoiceParts(c: Choice)
    ensures ChoiceFragments(c) == Words(c) + ToolFragments(c.tools) + if c.finish != "" then [Finish(c.finish)] else []
  {
  }

  lemma {:induction false} ChoicesTell(choices: seq<Choice>)
    ensures Tells(Fragments(choices), Hear(choices))
  {
    if choices != [] {
      hide Tells, Next, ChoiceFragments;
      var n := |choices| - 1;
      ChoicesTell(choices[..n]);
      AfterChoice(Fragments(choices[..n]), Hear(choices[..n]), choices[n]);
    }
  }

  lemma {:induction false} FragmentsAppend(a: seq<Choice>, b: seq<Choice>)
    ensures Fragments(a + b) == Fragments(a) + Fragments(b)
    decreases |b|
  {
    if b == [] {
      assert a + b == a;
    } else {
      var n := |b| - 1;
      assert (a + b)[..|a + b| - 1] == a + b[..n];
      FragmentsAppend(a, b[..n]);
      Associate(Fragments(a), Fragments(b[..n]), ChoiceFragments(b[n]));
    }
  }

  lemma {:induction false} ChunksAreChoices(chunks: seq<Chunk>)
    ensures AllFragments(chunks) == Fragments(AllChoices(chunks))
  {
    if chunks != [] {
      var n := |chunks| - 1;
      ChunksAreChoices(chunks[..n]);
      FragmentsAppend(AllChoices(chunks[..n]), chunks[n].choices);
    }
  }

  /** The fragments of a list of chunks say exactly what its choices say: every word and every tool
      fragment in order, the last finish reason; and reasoning is late exactly when a choice brings
      some after an earlier choice ended it, so that one choice may well bring all at once. */
  lemma ChunksTell(chunks: seq<Chunk>)
    ensures Tells(AllFragments(chunks), Hear(AllChoices(chunks)))
  {
    ChunksAreChoices(chunks);
    ChoicesTell(AllChoices(chunks));
  }

  /** The slots of a history and its tool fragments: a fragment without an index is on slot 0. */
  lemma SlotsTell(h: seq<Fragment>, k: int)
    ensures k in Slots(h) <==> exists i :: 0 <= i < |Tools(h)| && SlotOf(Tools(h)[i]) == k
  {
    SlotsAre(h, ToolFragment(Some(k), "", "", ""));
  }

  lemma {:induction false} NoSlots(h: seq<Fragment>)
    ensures Slots(h) == [] <==> Tools(h) == []
  {
    if h != [] {
      var before, f := h[..|h| - 1], h[|h| - 1];
      NoSlots(before);
      Extend(before, f);
      assert before + [f] == h;
    }
  }

  /** The answer an Anthropic client of the chain reads, straight from the choices: all thinking;
      all content, or the thinking again where there is nothing else and it is not blank; a block
      structure that is broken exactly when reasoning came late; and, if no call is refused, a stop
      that tells an answer cut at its length from one that calls tools and from one that is over. */
  lemma ClientHears(codec: A.Codec, chunks: seq<Chunk>)
    requires chunks != []
    ensures var a, out := Hear(AllChoices(chunks)), Chain.Shown(codec, chunks);
            var r := AnthropicEvents.ReadAll(out);
            && r.thinking == a.reasoning
            && r.text == (if a.content == "" && a.tools == [] && !IsBlank(a.reasoning) then a.reasoning else a.content)
            && (r.phase.Broken? <==> a.late)
            && (Chain.AllObjects(codec, AllFragments(chunks)) ==>
                  |out| >= 2 && out[|out| - 2] == AnthropicEvents.MessageDelta(
                    if a.finish == "length" then AnthropicEvents.MaxTokens
                    else if a.tools != [] then AnthropicEvents.ToolUse else AnthropicEvents.EndTurn))
  {
    hide AllFragments, Hear, AllChoices, Written, Reasoned, Slots, Tools, SpanEnded, LateReasoning, FinishReason, IsBlank;
    hide Chain.Shown, Chain.AllObjects, Chain.Shows, AnthropicEvents.ReadAll, Chain.FirstBadSlot;
    ChunksTell(chunks);
    NoSlots(AllFragments(chunks));
    Chain.ChainTheorem(codec, chunks);
  }
}
