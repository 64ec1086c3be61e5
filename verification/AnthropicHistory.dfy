/** Repairing an Anthropic history: roles alternate, and every tool call that stays is
    answered at the head of the very next turn. */
module AnthropicHistory {
  import opened Text

  /** A content block; everything but its place in the call/reply protocol is carried along. */
  datatype Block = ToolUse(id: string, details: string) | ToolResult(useId: string, details: string) | Other(details: string)

  /** Raw content: an array of blocks, a plain string, or text that is neither. */
  datatype Content = Blocks(blocks: seq<Block>) | Plain(text: string) | Opaque(raw: string)

  datatype Role = User | Assistant | OtherRole(name: string)

  datatype Message = Message(role: Role, content: Content)

  /** A block of plain text, as plain content is read. */
  function TextOf(text: string): Block { Other(text) }

  function Parse(content: Content): seq<Block> {
    match content
    case Blocks(blocks) => blocks
    case Plain(text) => [TextOf(text)]
    case Opaque(_) => []
  }

  // ---- selections from a list of blocks -------------------------------------------------

  datatype Pick = Pick(uses: bool, results: bool, others: bool)

  predicate Wanted(p: Pick, b: Block) {
    match b
    case ToolUse(_, _) => p.uses
    case ToolResult(_, _) => p.results
    case Other(_) => p.others
  }

  function Only(p: Pick, bs: seq<Block>): seq<Block> {
    if bs == [] then [] else
    Only(p, bs[..|bs| - 1]) + if Wanted(p, bs[|bs| - 1]) then [bs[|bs| - 1]] else []
  }

  const USES := Pick(true, false, false)
  const RESULTS := Pick(false, true, false)
  const OTHERS := Pick(false, false, true)
  const NOT_USES := Pick(false, true, true)
  const NOT_RESULTS := Pick(true, false, true)

  function Uses(bs: seq<Block>): seq<Block> { Only(USES, bs) }

  function Results(bs: seq<Block>): seq<Block> { Only(RESULTS, bs) }

  lemma {:induction false} Append(p: Pick, a: seq<Block>, b: seq<Block>)
    ensures Only(p, a + b) == Only(p, a) + Only(p, b)
    decreases |b|
  {
    if b == [] {
      assert a + b == a;
    } else {
      var n := |b| - 1;
      assert (a + b)[..|a + b| - 1] == a + b[..n];
      Append(p, a, b[..n]);
    }
  }

  lemma OnlyOne(p: Pick, bs: seq<Block>, b: Block)
    ensures Only(p, bs + [b]) == Only(p, bs) + if Wanted(p, b) then [b] else []
  {
    assert (bs + [b])[..|bs|] == bs;
  }

  lemma {:induction false} Members(p: Pick, bs: seq<Block>)
    ensures forall b :: b in Only(p, bs) <==> b in bs && Wanted(p, b)
  {
    if bs != [] {
      Members(p, bs[..|bs| - 1]);
      assert bs == bs[..|bs| - 1] + [bs[|bs| - 1]];
    }
  }

  lemma {:induction false} Twice(p: Pick, q: Pick, bs: seq<Block>)
    ensures Only(p, Only(q, bs)) == Only(Pick(p.uses && q.uses, p.results && q.results, p.others && q.others), bs)
  {
    if bs != [] {
      var before, b := bs[..|bs| - 1], bs[|bs| - 1];
      Twice(p, q, before);
      OnlyOne(p, Only(q, before), b);
      assert Only(q, before) + [] == Only(q, before);
    }
  }

  /** Selections are all or nothing when a complementary one is nothing or all. */
  lemma {:induction false} Complement(p: Pick, q: Pick, bs: seq<Block>)
    requires q == Pick(!p.uses, !p.results, !p.others)
    ensures |Only(p, bs)| + |Only(q, bs)| == |bs|
    ensures |Only(p, bs)| == |bs| ==> Only(p, bs) == bs
  {
    if bs != [] {
      Complement(p, q, bs[..|bs| - 1]);
    }
  }

  lemma {:induction false} OnlyNothing(bs: seq<Block>)
    ensures Only(Pick(false, false, false), bs) == []
  {
    if bs != [] { OnlyNothing(bs[..|bs| - 1]); }
  }

  /** What is left of a turn without its calls, or without its results. */
  lemma Leftovers(bs: seq<Block>)
    ensures Uses(Only(NOT_USES, bs)) == [] && Results(Only(NOT_USES, bs)) == Results(bs)
    ensures Only(OTHERS, Only(NOT_USES, bs)) == Only(OTHERS, bs)
    ensures Results(Only(NOT_RESULTS, bs)) == [] && Uses(Only(NOT_RESULTS, bs)) == Uses(bs)
    ensures Only(OTHERS, Only(NOT_RESULTS, bs)) == Only(OTHERS, bs)
    ensures Uses(bs) == [] <==> Only(NOT_USES, bs) == bs
    ensures Results(bs) == [] <==> Only(NOT_RESULTS, bs) == bs
    ensures Results(bs) == bs <==> Only(NOT_RESULTS, bs) == []
    ensures Results(bs) == bs ==> Uses(bs) == []
  {
    hide Only;
    Twice(USES, NOT_USES, bs);
    Twice(RESULTS, NOT_USES, bs);
    Twice(OTHERS, NOT_USES, bs);
    Twice(USES, NOT_RESULTS, bs);
    Twice(RESULTS, NOT_RESULTS, bs);
    Twice(OTHERS, NOT_RESULTS, bs);
    Twice(USES, RESULTS, bs);
    OnlyNothing(bs);
    Complement(NOT_USES, USES, bs);
    Complement(NOT_RESULTS, RESULTS, bs);
    Complement(RESULTS, NOT_RESULTS, bs);
  }

  // ---- the two passes --------------------------------------------------------------------

  /** Merging one more message onto a merged history. */
  function MergeOnto(merged: seq<Message>, m: Message): seq<Message> {
    if merged == [] || merged[|merged| - 1].role != m.role then merged + [m] else
    var n := |merged| - 1;
    merged[..n] + [Message(m.role, Blocks(Parse(merged[n].content) + Parse(m.content)))]
  }

  function Merged(messages: seq<Message>): seq<Message> {
    if messages == [] then [] else MergeOnto(Merged(messages[..|messages| - 1]), messages[|messages| - 1])
  }

  function Indexed(index: map<string, Block>, bs: seq<Block>): map<string, Block> {
    if bs == [] then index else
    var before, b := Indexed(index, bs[..|bs| - 1]), bs[|bs| - 1];
    if b.ToolResult? && b.useId != "" then before[b.useId := b] else before
  }

  /** The results in user turns by call identifier; the last one wins. */
  function ResultIndex(messages: seq<Message>): map<string, Block> {
    if messages == [] then map[] else
    var before, m := ResultIndex(messages[..|messages| - 1]), messages[|messages| - 1];
    if m.role.User? then Indexed(before, Parse(m.content)) else before
  }

  /** The answered calls, in order, and their results. */
  function Kept(index: map<string, Block>, uses: seq<Block>): seq<Block> {
    if uses == [] then [] else
    var b := uses[|uses| - 1];
    Kept(index, uses[..|uses| - 1]) + if b.ToolUse? && b.id in index then [b] else []
  }

  function ResultsFor(index: map<string, Block>, kept: seq<Block>): seq<Block> {
    seq(|kept|, i requires 0 <= i < |kept| =>
      if kept[i].ToolUse? && kept[i].id in index then index[kept[i].id] else kept[i])
  }

  function PairAssistant(index: map<string, Block>, m: Message): seq<Message> {
    var bs := Parse(m.content);
    var others, kept := Only(NOT_USES, bs), Kept(index, Uses(bs));
    if Uses(bs) == [] then [m]
    else if kept == [] then (if others == [] then [] else [Message(Assistant, Blocks(others))])
    else [Message(Assistant, Blocks(others + kept)), Message(User, Blocks(ResultsFor(index, kept)))]
  }

  function PairUser(m: Message): seq<Message> {
    var bs := Parse(m.content);
    if Results(bs) == [] then [m]
    else if Only(NOT_RESULTS, bs) == [] then [] else [Message(User, Blocks(Only(NOT_RESULTS, bs)))]
  }

  function Pair(index: map<string, Block>, m: Message): seq<Message> {
    match m.role
    case Assistant => PairAssistant(index, m)
    case User => PairUser(m)
    case OtherRole(_) => [m]
  }

  function PairAll(index: map<string, Block>, messages: seq<Message>): seq<Message> {
    if messages == [] then [] else
    PairAll(index, messages[..|messages| - 1]) + Pair(index, messages[|messages| - 1])
  }

  function Paired(messages: seq<Message>): seq<Message> {
    PairAll(ResultIndex(messages), messages)
  }

  function Repaired(messages: seq<Message>): seq<Message> {
    Merged(Paired(Merged(messages)))
  }

  // ---- the methods of the source ---------------------------------------------------------

  lemma MergedOne(messages: seq<Message>, i: nat)
    requires i < |messages|
    ensures Merged(messages[..i + 1]) == MergeOnto(Merged(messages[..i]), messages[i])
  {
    assert messages[..i + 1][..i] == messages[..i];
  }

  lemma MergedShort(messages: seq<Message>)
    requires |messages| <= 1
    ensures Merged(messages) == messages
  {
    if messages != [] {
      assert messages[..0] == [];
      assert [] + [messages[0]] == messages;
    }
  }

  method MergeConsecutiveMessages(messages: seq<Message>) returns (merged: seq<Message>)
    ensures merged == Merged(messages)
  {
    if |messages| <= 1 {
      MergedShort(messages);
      return messages;
    }
    merged := [];
    assert Merged(messages[..0]) == [];
    hide Merged;
    for i := 0 to |messages|
      invariant merged == Merged(messages[..i])
    {
      MergedOne(messages, i);
      var m := messages[i];
      if |merged| == 0 || merged[|merged| - 1].role != m.role {
        merged := merged + [m];
        continue;
      }
      var last := merged[|merged| - 1];
      var combined := Parse(last.content) + Parse(m.content);
      merged := merged[|merged| - 1 := last.(content := Blocks(combined))];
    }
    assert messages[..|messages|] == messages;
  }

  method IndexResults(messages: seq<Message>) returns (results: map<string, Block>)
    ensures results == ResultIndex(messages)
  {
    results := map[];
    for i := 0 to |messages|
      invariant results == ResultIndex(messages[..i])
    {
      assert messages[..i + 1][..i] == messages[..i];
      if messages[i].role != User { continue; }
      var bs := Parse(messages[i].content);
      ghost var before := results;
      for j := 0 to |bs|
        invariant results == Indexed(before, bs[..j])
      {
        assert bs[..j + 1][..j] == bs[..j];
        if bs[j].ToolResult? && bs[j].useId != "" {
          results := results[bs[j].useId := bs[j]];
        }
      }
      assert bs[..|bs|] == bs;
    }
    assert messages[..|messages|] == messages;
  }

  method SplitUses(bs: seq<Block>) returns (toolUses: seq<Block>, others: seq<Block>)
    ensures toolUses == Uses(bs) && others == Only(NOT_USES, bs)
  {
    toolUses, others := [], [];
    for i := 0 to |bs|
      invariant toolUses == Uses(bs[..i]) && others == Only(NOT_USES, bs[..i])
    {
      assert bs[..i + 1][..i] == bs[..i];
      if bs[i].ToolUse? {
        toolUses := toolUses + [bs[i]];
      } else {
        others := others + [bs[i]];
      }
    }
    assert bs[..|bs|] == bs;
  }

  ghost predicate CallsIn(index: map<string, Block>, kept: seq<Block>) {
    forall i :: 0 <= i < |kept| ==> kept[i].ToolUse? && kept[i].id in index
  }

  lemma {:induction false} KeptCalls(index: map<string, Block>, uses: seq<Block>)
    ensures CallsIn(index, Kept(index, uses))
  {
    if uses != [] { KeptCalls(index, uses[..|uses| - 1]); }
  }

  lemma {:induction false} OnlyWanted(p: Pick, bs: seq<Block>)
    ensures forall i :: 0 <= i < |Only(p, bs)| ==> Wanted(p, Only(p, bs)[i])
  {
    if bs != [] { OnlyWanted(p, bs[..|bs| - 1]); }
  }

  method KeepAnswered(results: map<string, Block>, toolUses: seq<Block>) returns (kept: seq<Block>)
    requires forall i :: 0 <= i < |toolUses| ==> toolUses[i].ToolUse?
    ensures kept == Kept(results, toolUses)
  {
    kept := [];
    for i := 0 to |toolUses|
      invariant kept == Kept(results, toolUses[..i])
    {
      KeptOne(results, toolUses[..i], toolUses[i]);
      assert toolUses[..i] + [toolUses[i]] == toolUses[..i + 1];
      if toolUses[i].id in results {
        kept := kept + [toolUses[i]];
      }
    }
    assert toolUses[..|toolUses|] == toolUses;
  }

  method CollectResults(results: map<string, Block>, kept: seq<Block>) returns (replies: seq<Block>)
    requires CallsIn(results, kept)
    ensures replies == ResultsFor(results, kept)
  {
    replies := [];
    for i := 0 to |kept|
      invariant replies == ResultsFor(results, kept)[..i]
    {
      replies := replies + [results[kept[i].id]];
    }
  }

  method PairAssistantTurn(results: map<string, Block>, before: seq<Message>, m: Message) returns (out: seq<Message>)
    ensures out == before + PairAssistant(results, m)
  {
    out := before;
    var bs := Parse(m.content);
    var toolUses, others := SplitUses(bs);
    OnlyWanted(USES, bs);
    if |toolUses| == 0 {
      out := out + [m];
      return;
    }
    var kept := KeepAnswered(results, toolUses);
    KeptCalls(results, toolUses);
    if |kept| == 0 {
      if |others| > 0 {
        out := out + [Message(Assistant, Blocks(others))];
      }
      return;
    }
    out := out + [Message(Assistant, Blocks(others + kept))];
    var replies := CollectResults(results, kept);
    out := out + [Message(User, Blocks(replies))];
  }

  method PairUserTurn(before: seq<Message>, m: Message) returns (out: seq<Message>)
    ensures out == before + PairUser(m)
  {
    out := before;
    var bs, nonResult, hasResult := Parse(m.content), [], false;
    for i := 0 to |bs|
      invariant nonResult == Only(NOT_RESULTS, bs[..i]) && (hasResult <==> Results(bs[..i]) != [])
    {
      assert bs[..i + 1][..i] == bs[..i];
      if bs[i].ToolResult? {
        hasResult := true;
        continue;
      }
      nonResult := nonResult + [bs[i]];
    }
    assert bs[..|bs|] == bs;
    if !hasResult {
      out := out + [m];
      return;
    }
    if |nonResult| > 0 {
      out := out + [Message(User, Blocks(nonResult))];
    }
  }

  method NormalizeToolPairing(messages: seq<Message>) returns (out: seq<Message>)
    ensures out == Paired(messages)
  {
    var results := IndexResults(messages);
    out := [];
    for i := 0 to |messages|
      invariant out == PairAll(results, messages[..i])
    {
      assert messages[..i + 1][..i] == messages[..i];
      var m := messages[i];
      match m.role
      case Assistant => out := PairAssistantTurn(results, out, m);
      case User => out := PairUserTurn(out, m);
      case OtherRole(_) => out := out + [m];
    }
    assert messages[..|messages|] == messages;
  }

  /** Merge, pair, merge: the pipeline every converted history goes through. */
  method RepairHistory(messages: seq<Message>) returns (repaired: seq<Message>)
    ensures repaired == Repaired(messages)
  {
    repaired := MergeConsecutiveMessages(messages);
    repaired := NormalizeToolPairing(repaired);
    repaired := MergeConsecutiveMessages(repaired);
  }

  // ---- what a strict upstream demands ----------------------------------------------------

  function UseIds(m: Message): seq<string> {
    var us := Uses(Parse(m.content));
    seq(|us|, i requires 0 <= i < |us| => if us[i].ToolUse? then us[i].id else "")
  }

  function ResultIds(m: Message): seq<string> {
    var rs := Results(Parse(m.content));
    seq(|rs|, i requires 0 <= i < |rs| => if rs[i].ToolResult? then rs[i].useId else "")
  }

  /** Calls only in assistant turns, results only in user turns. */
  predicate Separated(m: Message) {
    && (!m.role.Assistant? ==> Uses(Parse(m.content)) == [])
    && (!m.role.User? ==> Results(Parse(m.content)) == [])
  }

  predicate AllSeparated(messages: seq<Message>) {
    forall i :: 0 <= i < |messages| ==> Separated(messages[i])
  }

  predicate ResultsLead(m: Message) {
    var bs := Parse(m.content);
    bs == Results(bs) + Only(NOT_RESULTS, bs)
  }

  function Last(messages: seq<Message>): Option<Message> {
    if messages == [] then None else Some(messages[|messages| - 1])
  }

  /** The calls of a turn, if any. */
  function Owing(turn: Option<Message>): seq<string> {
    if turn.None? then [] else UseIds(turn.value)
  }

  /** A turn may come after `turn`: the role changes, and its results lead it and are those of
      exactly the calls made there, in order. */
  predicate Follows(turn: Option<Message>, m: Message) {
    Separated(m) && ResultsLead(m) && ResultIds(m) == Owing(turn) && (turn.Some? ==> turn.value.role != m.role)
  }

  predicate Strict(messages: seq<Message>) {
    messages == [] ||
    var before := messages[..|messages| - 1];
    Strict(before) && Follows(Last(before), messages[|messages| - 1])
  }

  /** What a strict upstream accepts: a strict history that leaves no call unanswered. */
  predicate Accepted(messages: seq<Message>) {
    Strict(messages) && Owing(Last(messages)) == []
  }

  function TurnBefore(messages: seq<Message>, i: nat): Option<Message>
    requires i < |messages|
  {
    if i == 0 then None else Some(messages[i - 1])
  }

  /** Strict, position by position. */
  lemma {:induction false} StrictMeans(messages: seq<Message>)
    ensures Strict(messages) <==> forall i :: 0 <= i < |messages| ==> Follows(TurnBefore(messages, i), messages[i])
  {
    hide Follows;
    if messages != [] {
      var before, n := messages[..|messages| - 1], |messages| - 1;
      StrictMeans(before);
      assert Strict(messages) <==> Strict(before) && Follows(TurnBefore(messages, n), messages[n]);
      hide Strict;
      forall i | 0 <= i < n ensures Follows(TurnBefore(before, i), before[i]) <==> Follows(TurnBefore(messages, i), messages[i]) {
        assert TurnBefore(before, i) == TurnBefore(messages, i);
      }
      hide TurnBefore;
    }
  }

  // ---- reading a paired history ------------------------------------------------------------

  datatype Reader = Calm | Due(ids: seq<string>) | Astray

  function Read(r: Reader, m: Message): Reader {
    var bs := Parse(m.content);
    match r
    case Calm => if Results(bs) != [] then Astray else if Uses(bs) != [] then Due(UseIds(m)) else Calm
    case Due(ids) => if m.role.User? && Results(bs) == bs && ResultIds(m) == ids then Calm else Astray
    case Astray => Astray
  }

  function ReadAll(messages: seq<Message>): Reader {
    if messages == [] then Calm else Read(ReadAll(messages[..|messages| - 1]), messages[|messages| - 1])
  }

  function Owed(r: Reader): seq<string> {
    if r.Due? then r.ids else []
  }

  lemma ReadOne(messages: seq<Message>, m: Message)
    ensures ReadAll(messages + [m]) == Read(ReadAll(messages), m)
  {
    assert (messages + [m])[..|messages|] == messages;
  }

  /** One turn read after others that owe `Owed(r)`. */
  lemma ReadTurn(r: Reader, m: Message)
    requires Separated(m) && !Read(r, m).Astray? && (r.Due? ==> r.ids != [])
    ensures ResultIds(m) == Owed(r) && UseIds(m) == Owed(Read(r, m)) && ResultsLead(m)
    ensures r.Due? ==> m.role.User?
  {
    var bs := Parse(m.content);
    Leftovers(bs);
    hide Only;
    assert bs + [] == bs && [] + bs == bs;
  }

  lemma StrictOne(messages: seq<Message>, m: Message)
    ensures Strict(messages + [m]) <==> Strict(messages) && Follows(Last(messages), m)
  {
    assert (messages + [m])[..|messages|] == messages;
  }

  lemma JoinTurns(last: Message, r: Reader, m: Message)
    requires Separated(last) && Separated(m) && last.role == m.role && !Read(r, m).Astray?
    requires Owed(r) == UseIds(last) && (r.Due? ==> r.ids != []) && ResultsLead(last)
    ensures var both := Message(m.role, Blocks(Parse(last.content) + Parse(m.content)));
            Separated(both) && ResultIds(both) == ResultIds(last) && UseIds(both) == Owed(Read(r, m)) && ResultsLead(both)
  {
    var a, b := Parse(last.content), Parse(m.content);
    Leftovers(a);
    Leftovers(b);
    Append(USES, a, b);
    Append(RESULTS, a, b);
    Append(NOT_RESULTS, a, b);
    hide Only;
    ReadTurn(r, m);
    assert |UseIds(last)| == |Uses(a)| && |ResultIds(m)| == |Results(b)|;
    assert Results(a) + Only(NOT_RESULTS, a) + b == Results(a) + (Only(NOT_RESULTS, a) + b);
    assert Uses(a) == [] && Results(b) == [];
    assert [] + Uses(b) == Uses(b) && Results(a) + [] == Results(a);
  }

  lemma MergeStep(merged: seq<Message>, r: Reader, m: Message)
    requires Strict(merged) && Owing(Last(merged)) == Owed(r)
    requires Separated(m) && !Read(r, m).Astray? && (r.Due? ==> r.ids != [])
    ensures var now := MergeOnto(merged, m); Strict(now) && Owing(Last(now)) == Owed(Read(r, m))
  {
    if merged == [] || merged[|merged| - 1].role != m.role {
      ReadTurn(r, m);
      StrictOne(merged, m);
    } else {
      var n := |merged| - 1;
      JoinTurns(merged[n], r, m);
      StrictOne(merged[..n], Message(m.role, Blocks(Parse(merged[n].content) + Parse(m.content))));
    }
    hide Only, UseIds, ResultIds, Results, Read, Separated, ResultsLead;
  }

  lemma {:induction false} MergedStrict(messages: seq<Message>)
    requires AllSeparated(messages) && !ReadAll(messages).Astray?
    ensures Strict(Merged(messages)) && Owing(Last(Merged(messages))) == Owed(ReadAll(messages))
    ensures ReadAll(messages).Due? ==> ReadAll(messages).ids != []
  {
    if messages != [] {
      var before, m := messages[..|messages| - 1], messages[|messages| - 1];
      MergedStrict(before);
      MergeStep(Merged(before), ReadAll(before), m);
      hide Strict, MergeOnto, Only;
    }
  }

  // ---- nothing is lost -------------------------------------------------------------------

  /** All blocks of a history, in order. */
  function Flat(messages: seq<Message>): seq<Block> {
    if messages == [] then [] else Flat(messages[..|messages| - 1]) + Parse(messages[|messages| - 1].content)
  }

  lemma FlatOne(messages: seq<Message>, m: Message)
    ensures Flat(messages + [m]) == Flat(messages) + Parse(m.content)
  {
    assert (messages + [m])[..|messages|] == messages;
  }

  lemma JoinSeparated(role: Role, a: seq<Block>, b: seq<Block>)
    requires Separated(Message(role, Blocks(a))) && Separated(Message(role, Blocks(b)))
    ensures Separated(Message(role, Blocks(a + b)))
  {
    Append(USES, a, b);
    Append(RESULTS, a, b);
    hide Only;
  }

  lemma MergeFlat(merged: seq<Message>, m: Message)
    requires AllSeparated(merged) && Separated(m)
    ensures Flat(MergeOnto(merged, m)) == Flat(merged) + Parse(m.content) && AllSeparated(MergeOnto(merged, m))
  {
    hide Flat, Separated;
    if merged == [] || merged[|merged| - 1].role != m.role {
      FlatOne(merged, m);
    } else {
      var n := |merged| - 1;
      var a, b := Parse(merged[n].content), Parse(m.content);
      SplitLast([], merged);
      FlatOne(merged[..n], merged[n]);
      FlatOne(merged[..n], Message(m.role, Blocks(a + b)));
      SeparatedContent(merged[n], Message(m.role, Blocks(a)));
      SeparatedContent(m, Message(m.role, Blocks(b)));
      JoinSeparated(m.role, a, b);
      Associate(Flat(merged[..n]), a, b);
    }
  }

  /** Only the role and the parsed blocks matter. */
  lemma SeparatedContent(m: Message, same: Message)
    requires m.role == same.role && Parse(m.content) == Parse(same.content)
    ensures Separated(m) == Separated(same)
  {
  }

  /** Merging moves no block. */
  lemma {:induction false} MergedFlat(messages: seq<Message>)
    requires AllSeparated(messages)
    ensures Flat(Merged(messages)) == Flat(messages) && AllSeparated(Merged(messages))
  {
    if messages != [] {
      MergedFlat(messages[..|messages| - 1]);
      MergeFlat(Merged(messages[..|messages| - 1]), messages[|messages| - 1]);
    }
  }

  lemma {:induction false} IndexAppend(index: map<string, Block>, a: seq<Block>, b: seq<Block>)
    ensures Indexed(Indexed(index, a), b) == Indexed(index, a + b)
    decreases |b|
  {
    if b == [] {
      assert a + b == a;
    } else {
      var n := |b| - 1;
      assert (a + b)[..|a + b| - 1] == a + b[..n];
      IndexAppend(index, a, b[..n]);
    }
  }

  lemma {:induction false} IndexNothing(index: map<string, Block>, bs: seq<Block>)
    requires Results(bs) == []
    ensures Indexed(index, bs) == index
  {
    if bs != [] { IndexNothing(index, bs[..|bs| - 1]); }
  }

  /** With results only in user turns, the index is that of all blocks. */
  lemma {:induction false} IndexIsFlat(messages: seq<Message>)
    requires AllSeparated(messages)
    ensures ResultIndex(messages) == Indexed(map[], Flat(messages))
  {
    if messages != [] {
      var before, m := messages[..|messages| - 1], messages[|messages| - 1];
      IndexIsFlat(before);
      IndexAppend(map[], Flat(before), Parse(m.content));
      if !m.role.User? { IndexNothing(ResultIndex(before), Parse(m.content)); }
    }
  }

  lemma {:induction false} AllWanted(p: Pick, bs: seq<Block>)
    ensures (forall i :: 0 <= i < |bs| ==> Wanted(p, bs[i])) ==> Only(p, bs) == bs
    ensures (forall i :: 0 <= i < |bs| ==> !Wanted(p, bs[i])) ==> Only(p, bs) == []
  {
    if bs != [] { AllWanted(p, bs[..|bs| - 1]); }
  }

  /** Results as the index holds them: under their own call. */
  predicate WellIndexed(index: map<string, Block>) {
    forall id :: id in index ==> index[id].ToolResult? && index[id].useId == id
  }

  /** The last result for a call. */
  predicate LastResult(bs: seq<Block>, id: string, i: nat) {
    && i < |bs| && bs[i].ToolResult? && bs[i].useId == id
    && forall j :: i < j < |bs| && bs[j].ToolResult? ==> bs[j].useId != id
  }

  /** The index holds, for each call that some result names, the last such result. */
  lemma {:induction false} IndexMeans(bs: seq<Block>)
    ensures var index := Indexed(map[], bs);
            && WellIndexed(index) && "" !in index
            && (forall id :: id in index ==> exists i: nat :: LastResult(bs, id, i) && bs[i] == index[id])
            && forall i :: 0 <= i < |bs| && bs[i].ToolResult? && bs[i].useId != "" ==> bs[i].useId in index
  {
    if bs != [] {
      var before, n := bs[..|bs| - 1], |bs| - 1;
      IndexMeans(before);
      var index := Indexed(map[], bs);
      forall id | id in index ensures exists i: nat :: LastResult(bs, id, i) && bs[i] == index[id] {
        if bs[n].ToolResult? && bs[n].useId == id {
          assert LastResult(bs, id, n);
        } else {
          var i: nat :| LastResult(before, id, i) && before[i] == Indexed(map[], before)[id];
          assert LastResult(bs, id, i);
        }
      }
    }
  }

  /** What one turn turns into: it reads well after a calm history, and its blocks are its
      own, less the unanswered calls, with the results of the others. */
  ghost predicate Pairs(index: map<string, Block>, bs: seq<Block>, out: seq<Message>) {
    && AllSeparated(out) && ReadAll(out) == Calm
    && Only(OTHERS, Flat(out)) == Only(OTHERS, bs)
    && Uses(Flat(out)) == Kept(index, Uses(bs))
    && Results(Flat(out)) == ResultsFor(index, Kept(index, Uses(bs)))
  }

  lemma Single(m: Message)
    ensures Flat([m]) == Parse(m.content) && ReadAll([m]) == Read(Calm, m)
  {
    assert [m][..0] == [];
  }

  lemma Two(a: Message, b: Message)
    ensures Flat([a, b]) == Parse(a.content) + Parse(b.content) && ReadAll([a, b]) == Read(Read(Calm, a), b)
  {
    assert [a, b][..1] == [a];
    Single(a);
  }

  lemma KeptPicks(index: map<string, Block>, kept: seq<Block>)
    requires WellIndexed(index) && CallsIn(index, kept)
    ensures var rs := ResultsFor(index, kept);
            && Only(USES, kept) == kept && Only(RESULTS, kept) == [] && Only(OTHERS, kept) == []
            && Only(USES, rs) == [] && Only(RESULTS, rs) == rs && Only(OTHERS, rs) == []
    ensures UseIds(Message(Assistant, Blocks(kept))) == ResultIds(Message(User, Blocks(ResultsFor(index, kept))))
  {
    hide Only;
    var rs := ResultsFor(index, kept);
    AllWanted(USES, kept);
    AllWanted(RESULTS, kept);
    AllWanted(OTHERS, kept);
    AllWanted(USES, rs);
    AllWanted(RESULTS, rs);
    AllWanted(OTHERS, rs);
  }

  lemma AnsweredTurn(index: map<string, Block>, others: seq<Block>, kept: seq<Block>)
    requires WellIndexed(index) && CallsIn(index, kept) && kept != [] && Uses(others) == [] && Results(others) == []
    ensures var a, u := Message(Assistant, Blocks(others + kept)), Message(User, Blocks(ResultsFor(index, kept)));
            && Separated(a) && Separated(u) && ReadAll([a, u]) == Calm
            && Only(OTHERS, Flat([a, u])) == Only(OTHERS, others)
            && Uses(Flat([a, u])) == kept && Results(Flat([a, u])) == ResultsFor(index, kept)
  {
    hide Only, ReadAll, Flat;
    var rs := ResultsFor(index, kept);
    KeptPicks(index, kept);
    hide ResultsFor;
    var a, u := Message(Assistant, Blocks(others + kept)), Message(User, Blocks(rs));
    Two(a, u);
    Append(USES, others, kept);
    Append(RESULTS, others, kept);
    Append(OTHERS, others, kept);
    Append(USES, others + kept, rs);
    Append(RESULTS, others + kept, rs);
    Append(OTHERS, others + kept, rs);
    assert [] + kept == kept && kept + [] == kept && [] + rs == rs;
    assert Only(OTHERS, others) + [] == Only(OTHERS, others);
    assert UseIds(a) == UseIds(Message(Assistant, Blocks(kept)));
    hide UseIds, ResultIds;
  }

  lemma NothingKept(index: map<string, Block>)
    ensures Kept(index, []) == [] && ResultsFor(index, []) == []
  {
  }

  lemma PairTurn(index: map<string, Block>, m: Message)
    requires Separated(m) && WellIndexed(index)
    ensures Pairs(index, Parse(m.content), Pair(index, m))
  {
    var bs := Parse(m.content);
    Leftovers(bs);
    NothingKept(index);
    Single(m);
    match m.role
    case Assistant =>
      var others, kept := Only(NOT_USES, bs), Kept(index, Uses(bs));
      Single(Message(Assistant, Blocks(others)));
      OnlyNone();
      hide Only, Kept, ReadAll, Flat;
      KeptCalls(index, Uses(bs));
      if Uses(bs) != [] && kept != [] { AnsweredTurn(index, others, kept); }
    case User =>
      Single(Message(User, Blocks(Only(NOT_RESULTS, bs))));
      OnlyNone();
      hide Only, Kept, ReadAll, Flat;
    case OtherRole(_) =>
      hide Only, Kept, ReadAll, Flat;
  }

  lemma OnlyNone()
    ensures ReadAll([]) == Calm && Flat([]) == [] && forall p :: Only(p, []) == []
  {
  }

  lemma {:induction false} FlatAppend(a: seq<Message>, b: seq<Message>)
    ensures Flat(a + b) == Flat(a) + Flat(b)
    decreases |b|
  {
    if b == [] {
      assert Flat(b) == [] && a + b == a;
    } else {
      hide Flat, Parse;
      var n := |b| - 1;
      SplitLast(a, b);
      FlatAppend(a, b[..n]);
      FlatOne(a + b[..n], b[n]);
      FlatOne(b[..n], b[n]);
      Associate(Flat(a), Flat(b[..n]), Parse(b[n].content));
    }
  }

  lemma {:induction false} ReadAppend(a: seq<Message>, b: seq<Message>)
    requires ReadAll(a) == Calm
    ensures ReadAll(a + b) == ReadAll(b)
    decreases |b|
  {
    if b == [] {
      assert a + b == a;
    } else {
      hide Read, ReadAll;
      var n := |b| - 1;
      SplitLast(a, b);
      ReadAppend(a, b[..n]);
      ReadOne(a + b[..n], b[n]);
      ReadOne(b[..n], b[n]);
    }
  }

  lemma KeptOne(index: map<string, Block>, uses: seq<Block>, b: Block)
    ensures Kept(index, uses + [b]) == Kept(index, uses) + if b.ToolUse? && b.id in index then [b] else []
  {
    assert (uses + [b])[..|uses|] == uses;
  }

  lemma {:induction false} KeptAppend(index: map<string, Block>, a: seq<Block>, b: seq<Block>)
    ensures Kept(index, a + b) == Kept(index, a) + Kept(index, b)
    decreases |b|
  {
    if b == [] {
      assert Kept(index, b) == [] && a + b == a;
    } else {
      hide Kept;
      var n := |b| - 1;
      SplitLast(a, b);
      KeptAppend(index, a, b[..n]);
      KeptOne(index, a + b[..n], b[n]);
      KeptOne(index, b[..n], b[n]);
      Associate(Kept(index, a), Kept(index, b[..n]), if b[n].ToolUse? && b[n].id in index then [b[n]] else []);
    }
  }

  lemma PairsAppend(index: map<string, Block>, a: seq<Block>, x: seq<Message>, b: seq<Block>, y: seq<Message>)
    requires Pairs(index, a, x) && Pairs(index, b, y)
    ensures Pairs(index, a + b, x + y)
  {
    hide Only, Kept, ReadAll, Flat;
    ReadAppend(x, y);
    FlatAppend(x, y);
    Append(OTHERS, a, b);
    Append(USES, a, b);
    Append(OTHERS, Flat(x), Flat(y));
    Append(USES, Flat(x), Flat(y));
    Append(RESULTS, Flat(x), Flat(y));
    KeptAppend(index, Uses(a), Uses(b));
    var k, l := Kept(index, Uses(a)), Kept(index, Uses(b));
    assert ResultsFor(index, k + l) == ResultsFor(index, k) + ResultsFor(index, l);
    hide Separated;
  }

  lemma {:induction false} PairAllPairs(index: map<string, Block>, messages: seq<Message>)
    requires AllSeparated(messages) && WellIndexed(index)
    ensures Pairs(index, Flat(messages), PairAll(index, messages))
  {
    if messages == [] {
      NothingKept(index);
    } else {
      var before, m := messages[..|messages| - 1], messages[|messages| - 1];
      PairAllPairs(index, before);
      PairTurn(index, m);
      PairsAppend(index, Flat(before), PairAll(index, before), Parse(m.content), Pair(index, m));
    }
  }

  /** The repaired history, for every history whose calls stand in assistant turns and whose
      results stand in user turns. A strict upstream accepts it: roles alternate and each
      turn's calls are answered, in order, at the head of the next. All other blocks are
      there, in their order; the calls left are exactly the answered ones; each is answered
      by the last result the history had for it. */
  lemma RepairTheorem(messages: seq<Message>)
    requires AllSeparated(messages)
    ensures var out, blocks := Repaired(messages), Flat(messages);
            var index := Indexed(map[], blocks);
            && Accepted(out)
            && Only(OTHERS, Flat(out)) == Only(OTHERS, blocks)
            && Uses(Flat(out)) == Kept(index, Uses(blocks))
            && Results(Flat(out)) == ResultsFor(index, Uses(Flat(out)))
  {
    hide Only, Kept, Flat, ReadAll, Strict, Merged, PairAll, ResultIndex, Indexed, WellIndexed, ResultsFor, Separated;
    var merged := Merged(messages);
    MergedFlat(messages);
    IndexIsFlat(merged);
    IndexMeans(Flat(messages));
    PairAllPairs(ResultIndex(merged), merged);
    MergedStrict(Paired(merged));
    MergedFlat(Paired(merged));
  }
}
