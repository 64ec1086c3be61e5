/** Repairing an Anthropic history, with an eye on who said what. */
module AnthropicHistoryRoles {
  import opened Text
  import opened AnthropicHistory

  /** The blocks of some content: an array as it is, a plain string as one block of text, and
      nothing of what is neither. */
  function Contents(content: Content): seq<Block> {
    match content
    case Blocks(blocks) => blocks
    case Plain(text) => [Other(text)]
    case Opaque(_) => []
  }

  function AllContents(messages: seq<Message>): seq<Block> {
    if messages == [] then [] else AllContents(messages[..|messages| - 1]) + Contents(messages[|messages| - 1].content)
  }

  /** All blocks of a history, plain text included. */
  lemma {:induction false} FlatMeans(messages: seq<Message>)
    ensures Flat(messages) == AllContents(messages)
  {
    if messages != [] { FlatMeans(messages[..|messages| - 1]); }
  }

  /** A block that is neither a call nor a result, and the role that said it. */
  datatype Said = Said(role: Role, details: string)

  function SaidIn(role: Role, bs: seq<Block>): seq<Said> {
    if bs == [] then [] else
    SaidIn(role, bs[..|bs| - 1]) + if bs[|bs| - 1].Other? then [Said(role, bs[|bs| - 1].details)] else []
  }

  function AllSaid(messages: seq<Message>): seq<Said> {
    if messages == [] then [] else
    var m := messages[|messages| - 1];
    AllSaid(messages[..|messages| - 1]) + SaidIn(m.role, Contents(m.content))
  }

  lemma {:induction false} SaidAppend(role: Role, a: seq<Block>, b: seq<Block>)
    ensures SaidIn(role, a + b) == SaidIn(role, a) + SaidIn(role, b)
    decreases |b|
  {
    if b == [] {
      assert a + b == a;
    } else {
      var n := |b| - 1;
      assert (a + b)[..|a + b| - 1] == a + b[..n];
      SaidAppend(role, a, b[..n]);
    }
  }

  lemma {:induction false} SaidSelected(role: Role, p: Pick, bs: seq<Block>)
    ensures p.others ==> SaidIn(role, Only(p, bs)) == SaidIn(role, bs)
    ensures !p.others ==> SaidIn(role, Only(p, bs)) == []
  {
    if bs != [] {
      var before, b := bs[..|bs| - 1], bs[|bs| - 1];
      SaidSelected(role, p, before);
      var kept := if Wanted(p, b) then [b] else [];
      SaidAppend(role, Only(p, before), kept);
      if kept != [] { assert kept[..0] == []; }
    }
  }

  lemma {:induction false} NothingSaid(role: Role, bs: seq<Block>)
    requires forall i :: 0 <= i < |bs| ==> !bs[i].Other?
    ensures SaidIn(role, bs) == []
  {
    if bs != [] { NothingSaid(role, bs[..|bs| - 1]); }
  }

  lemma AllSaidOne(messages: seq<Message>, m: Message)
    ensures AllSaid(messages + [m]) == AllSaid(messages) + SaidIn(m.role, Contents(m.content))
  {
    assert (messages + [m])[..|messages|] == messages;
  }

  lemma {:induction false} AllSaidAppend(a: seq<Message>, b: seq<Message>)
    ensures AllSaid(a + b) == AllSaid(a) + AllSaid(b)
    decreases |b|
  {
    if b == [] {
      NobodySaid();
      assert a + b == a;
      assert AllSaid(a) + [] == AllSaid(a);
    } else {
      hide AllSaid, SaidIn, Contents;
      var n := |b| - 1;
      SplitLast(a, b);
      AllSaidAppend(a, b[..n]);
      AllSaidOne(a + b[..n], b[n]);
      AllSaidOne(b[..n], b[n]);
      Associate(AllSaid(a), AllSaid(b[..n]), SaidIn(b[n].role, Contents(b[n].content)));
    }
  }

  lemma MergeSaid(merged: seq<Message>, m: Message)
    ensures AllSaid(MergeOnto(merged, m)) == AllSaid(merged) + SaidIn(m.role, Contents(m.content))
  {
    hide AllSaid, SaidIn;
    if merged == [] || merged[|merged| - 1].role != m.role {
      AllSaidOne(merged, m);
    } else {
      var n := |merged| - 1;
      var a, b := Contents(merged[n].content), Contents(m.content);
      SplitLast([], merged);
      AllSaidOne(merged[..n], merged[n]);
      AllSaidOne(merged[..n], Message(m.role, Blocks(a + b)));
      SaidAppend(m.role, a, b);
      Associate(AllSaid(merged[..n]), SaidIn(m.role, a), SaidIn(m.role, b));
    }
  }

  lemma {:induction false} MergedSaid(messages: seq<Message>)
    ensures AllSaid(Merged(messages)) == AllSaid(messages)
  {
    if messages != [] {
      MergedSaid(messages[..|messages| - 1]);
      MergeSaid(Merged(messages[..|messages| - 1]), messages[|messages| - 1]);
    }
  }

  lemma NobodySaid()
    ensures AllSaid([]) == [] && forall role :: SaidIn(role, []) == []
  {
  }

  lemma OneSaid(m: Message)
    ensures AllSaid([m]) == SaidIn(m.role, Contents(m.content))
  {
    assert [m][..0] == [];
    assert [] + SaidIn(m.role, Contents(m.content)) == SaidIn(m.role, Contents(m.content));
  }

  lemma SilentCalls(index: map<string, Block>, kept: seq<Block>)
    requires CallsIn(index, kept) && WellIndexed(index)
    ensures SaidIn(Assistant, kept) == [] && SaidIn(User, ResultsFor(index, kept)) == []
  {
    hide SaidIn;
    NothingSaid(Assistant, kept);
    NothingSaid(User, ResultsFor(index, kept));
  }

  /** Calls and the results that answer them add nothing. */
  lemma AnsweredSaid(index: map<string, Block>, others: seq<Block>, kept: seq<Block>)
    requires CallsIn(index, kept) && WellIndexed(index)
    ensures AllSaid([Message(Assistant, Blocks(others + kept)), Message(User, Blocks(ResultsFor(index, kept)))])
         == SaidIn(Assistant, others)
  {
    hide AllSaid, SaidIn, ResultsFor, CallsIn, WellIndexed;
    SilentCalls(index, kept);
    var replies := ResultsFor(index, kept);
    var turn, reply := Message(Assistant, Blocks(others + kept)), Message(User, Blocks(replies));
    SaidAppend(Assistant, others, kept);
    OneSaid(turn);
    AllSaidOne([turn], reply);
    assert [turn] + [reply] == [turn, reply];
    assert SaidIn(Assistant, others) + [] == SaidIn(Assistant, others);
  }

  lemma AssistantSaid(index: map<string, Block>, m: Message)
    requires m.role.Assistant? && WellIndexed(index)
    ensures AllSaid(PairAssistant(index, m)) == SaidIn(Assistant, Contents(m.content))
  {
    hide AllSaid, SaidIn, Only, Kept, ResultsFor, CallsIn, WellIndexed;
    var bs := Parse(m.content);
    var others, kept := Only(NOT_USES, bs), Kept(index, Uses(bs));
    NobodySaid();
    OneSaid(m);
    OneSaid(Message(Assistant, Blocks(others)));
    SaidSelected(Assistant, NOT_USES, bs);
    KeptCalls(index, Uses(bs));
    AnsweredSaid(index, others, kept);
  }

  lemma UserSaid(m: Message)
    requires m.role.User?
    ensures AllSaid(PairUser(m)) == SaidIn(User, Contents(m.content))
  {
    hide AllSaid, SaidIn, Only;
    NobodySaid();
    OneSaid(m);
    SaidSelected(User, NOT_RESULTS, Parse(m.content));
    OneSaid(Message(User, Blocks(Only(NOT_RESULTS, Parse(m.content)))));
  }

  lemma {:induction false} PairAllSaid(index: map<string, Block>, messages: seq<Message>)
    requires WellIndexed(index)
    ensures AllSaid(PairAll(index, messages)) == AllSaid(messages)
  {
    hide PairAssistant, PairUser, SaidIn, WellIndexed;
    if messages != [] {
      var before, m := messages[..|messages| - 1], messages[|messages| - 1];
      PairAllSaid(index, before);
      AllSaidAppend(PairAll(index, before), Pair(index, m));
      match m.role
      case Assistant => AssistantSaid(index, m);
      case User => UserSaid(m);
      case OtherRole(_) => OneSaid(m);
    }
  }

  lemma {:induction false} IndexedKeeps(index: map<string, Block>, bs: seq<Block>)
    requires WellIndexed(index)
    ensures WellIndexed(Indexed(index, bs))
  {
    if bs != [] { IndexedKeeps(index, bs[..|bs| - 1]); }
  }

  lemma {:induction false} IndexKeeps(messages: seq<Message>)
    ensures WellIndexed(ResultIndex(messages))
  {
    if messages != [] {
      IndexKeeps(messages[..|messages| - 1]);
      IndexedKeeps(ResultIndex(messages[..|messages| - 1]), Parse(messages[|messages| - 1].content));
    }
  }

  /** For every history at all, everything but calls and results stays, in order, and in the mouth
      of who said it. */
  lemma RepairSaid(messages: seq<Message>)
    ensures AllSaid(Repaired(messages)) == AllSaid(messages)
  {
    var merged := Merged(messages);
    MergedSaid(messages);
    IndexKeeps(merged);
    PairAllSaid(ResultIndex(merged), merged);
    MergedSaid(Paired(merged));
  }

  // ---- which calls stay -----------------------------------------------------------------

  /** Some result names the call. */
  predicate Answers(all: seq<Block>, id: string) {
    id != "" && exists i :: 0 <= i < |all| && all[i].ToolResult? && all[i].useId == id
  }

  /** The calls among some blocks that some result of the history names. */
  ghost function AnsweredCalls(all: seq<Block>, bs: seq<Block>): seq<Block> {
    if bs == [] then [] else
    var b := bs[|bs| - 1];
    AnsweredCalls(all, bs[..|bs| - 1]) + if b.ToolUse? && Answers(all, b.id) then [b] else []
  }

  function Calls(bs: seq<Block>): seq<Block> {
    if bs == [] then [] else Calls(bs[..|bs| - 1]) + if bs[|bs| - 1].ToolUse? then [bs[|bs| - 1]] else []
  }

  lemma {:induction false} CallsAreUses(bs: seq<Block>)
    ensures Calls(bs) == Uses(bs)
  {
    if bs != [] { CallsAreUses(bs[..|bs| - 1]); }
  }

  ghost predicate Indexes(index: map<string, Block>, all: seq<Block>) {
    forall id :: id in index <==> Answers(all, id)
  }

  lemma IndexIndexes(all: seq<Block>)
    ensures Indexes(Indexed(map[], all), all)
  {
    IndexMeans(all);
    hide Indexed;
    var index := Indexed(map[], all);
    forall id ensures id in index <==> Answers(all, id) {
      if id in index {
        var i: nat :| LastResult(all, id, i) && all[i] == index[id];
      }
    }
  }

  lemma {:induction false} KeptAreAnswered(index: map<string, Block>, all: seq<Block>, bs: seq<Block>)
    requires Indexes(index, all)
    ensures Kept(index, Uses(bs)) == AnsweredCalls(all, bs)
  {
    if bs != [] {
      hide Answers;
      var before, b := bs[..|bs| - 1], bs[|bs| - 1];
      KeptAreAnswered(index, all, before);
      OnlyOne(USES, before, b);
      assert before + [b] == bs;
      if b.ToolUse? {
        KeptOne(index, Uses(before), b);
      } else {
        assert Uses(before) + [] == Uses(before);
      }
    }
  }

  /** The calls of the repaired history are those of the given one that some result names. */
  lemma CallsStay(messages: seq<Message>)
    requires AllSeparated(messages)
    ensures Calls(AllContents(Repaired(messages))) == AnsweredCalls(AllContents(messages), AllContents(messages))
  {
    hide Only, Kept, Flat, Repaired, Indexed, AnsweredCalls, AllContents, Calls, AllSeparated;
    var all := Flat(messages);
    RepairTheorem(messages);
    FlatMeans(messages);
    FlatMeans(Repaired(messages));
    CallsAreUses(Flat(Repaired(messages)));
    IndexIndexes(all);
    KeptAreAnswered(Indexed(map[], all), all, all);
  }

  // ---- where calls stand in a turn ---------------------------------------------------------

  /** Calls come last: nothing else stands behind a call. */
  predicate Trails(bs: seq<Block>) {
    forall i, j :: 0 <= i < j < |bs| && bs[i].ToolUse? ==> bs[j].ToolUse?
  }

  predicate AllTrail(messages: seq<Message>) {
    forall i :: 0 <= i < |messages| ==> Trails(Contents(messages[i].content))
  }

  lemma {:induction false} NoUses(bs: seq<Block>)
    ensures Uses(bs) == [] <==> forall i :: 0 <= i < |bs| ==> !bs[i].ToolUse?
  {
    if bs != [] { NoUses(bs[..|bs| - 1]); }
  }

  lemma PairTrails(index: map<string, Block>, m: Message)
    requires Separated(m) && WellIndexed(index)
    ensures AllTrail(Pair(index, m))
  {
    var bs := Parse(m.content);
    NoUses(bs);
    OnlyWanted(NOT_USES, bs);
    OnlyWanted(NOT_RESULTS, bs);
    KeptCalls(index, Uses(bs));
    Leftovers(bs);
    NoUses(Only(NOT_RESULTS, bs));
    hide Only, Kept;
    match m.role
    case Assistant =>
      var kept := Kept(index, Uses(bs));
      if kept != [] { ResultsTrail(index, kept); }
    case User =>
    case OtherRole(_) =>
  }

  lemma ResultsTrail(index: map<string, Block>, kept: seq<Block>)
    requires CallsIn(index, kept) && WellIndexed(index)
    ensures Trails(ResultsFor(index, kept))
  {
  }

  lemma {:induction false} PairAllTrail(index: map<string, Block>, messages: seq<Message>)
    requires AllSeparated(messages) && WellIndexed(index)
    ensures AllTrail(PairAll(index, messages))
  {
    if messages != [] {
      hide Trails, Pair, WellIndexed, Separated;
      PairAllTrail(index, messages[..|messages| - 1]);
      PairTrails(index, messages[|messages| - 1]);
    }
  }

  /** A turn that goes on has made no calls yet. */
  lemma NoCallsYet(last: Message, r: Reader, m: Message)
    requires last.role == m.role && Owing(Some(last)) == Owed(r) && Separated(last)
    requires Separated(m) && !Read(r, m).Astray? && (r.Due? ==> r.ids != [])
    ensures forall i :: 0 <= i < |Parse(last.content)| ==> !Parse(last.content)[i].ToolUse?
  {
    hide Only, ResultsLead;
    ReadTurn(r, m);
    assert |UseIds(last)| == |Uses(Parse(last.content))|;
    NoUses(Parse(last.content));
  }

  lemma MergeTrails(merged: seq<Message>, r: Reader, m: Message)
    requires AllTrail(merged) && Trails(Contents(m.content))
    requires Owing(Last(merged)) == Owed(r) && (merged != [] ==> Separated(merged[|merged| - 1]))
    requires Separated(m) && !Read(r, m).Astray? && (r.Due? ==> r.ids != [])
    ensures AllTrail(MergeOnto(merged, m))
  {
    hide Only, Read, Separated, Trails, UseIds, Owed;
    if merged != [] && merged[|merged| - 1].role == m.role {
      NoCallsYet(merged[|merged| - 1], r, m);
      TrailJoins(Parse(merged[|merged| - 1].content), Parse(m.content));
    }
  }

  lemma TrailJoins(a: seq<Block>, b: seq<Block>)
    requires Trails(b) && forall i :: 0 <= i < |a| ==> !a[i].ToolUse?
    ensures Trails(a + b)
  {
  }

  lemma {:induction false} MergedTrails(messages: seq<Message>)
    requires AllSeparated(messages) && !ReadAll(messages).Astray? && AllTrail(messages)
    ensures AllTrail(Merged(messages))
  {
    if messages != [] {
      hide Trails, Separated, Strict, MergeOnto, Read, Only;
      var before, m := messages[..|messages| - 1], messages[|messages| - 1];
      MergedTrails(before);
      MergedStrict(before);
      MergedFlat(before);
      MergeTrails(Merged(before), ReadAll(before), m);
    }
  }

  /** In the repaired history the calls of a turn come last in it. */
  lemma CallsComeLast(messages: seq<Message>)
    requires AllSeparated(messages)
    ensures AllTrail(Repaired(messages))
  {
    hide Merged, PairAll, Separated, Trails, Flat, ReadAll, Only, Kept, Indexed, ResultIndex, WellIndexed;
    var merged := Merged(messages);
    MergedFlat(messages);
    IndexKeeps(merged);
    PairAllPairs(ResultIndex(merged), merged);
    PairAllTrail(ResultIndex(merged), merged);
    MergedTrails(Paired(merged));
  }
}
