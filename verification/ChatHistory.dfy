/** Repairing a Chat Completions history: every tool call that stays is followed at once by
    its reply. */
module ChatHistory {
  import opened Text

  /** A tool call; its name and arguments are carried along untouched. */
  datatype Call = Call(id: string, details: string)

  datatype Message = Message(role: string, content: string, calls: seq<Call>, replyTo: string, reasoning: string)

  /** A reply to an announced call. A tool message without an identifier is none. */
  predicate IsReply(m: Message) {
    m.role == "tool" && m.replyTo != ""
  }

  predicate Announcing(m: Message) {
    m.role != "tool" && m.calls != []
  }

  /** The replies by call identifier; the last one wins. */
  function Replies(messages: seq<Message>): map<string, Message> {
    if messages == [] then map[] else
    var before, m := Replies(messages[..|messages| - 1]), messages[|messages| - 1];
    if IsReply(m) then before[m.replyTo := m] else before
  }

  predicate Answered(replies: map<string, Message>, c: Call) {
    c.id != "" && c.id in replies
  }

  /** The answered calls, in order. */
  function Kept(replies: map<string, Message>, calls: seq<Call>): seq<Call> {
    if calls == [] then [] else
    Kept(replies, calls[..|calls| - 1]) + if Answered(replies, calls[|calls| - 1]) then [calls[|calls| - 1]] else []
  }

  predicate AllAnswered(replies: map<string, Message>, calls: seq<Call>) {
    forall i :: 0 <= i < |calls| ==> Answered(replies, calls[i])
  }

  lemma {:induction false} KeptAnswered(replies: map<string, Message>, calls: seq<Call>)
    ensures AllAnswered(replies, Kept(replies, calls))
  {
    hide Answered;
    if calls != [] { KeptAnswered(replies, calls[..|calls| - 1]); }
  }

  lemma {:induction false} KeptNone(replies: map<string, Message>, calls: seq<Call>)
    ensures Kept(replies, calls) == [] <==> forall i :: 0 <= i < |calls| ==> !Answered(replies, calls[i])
  {
    hide Answered;
    if calls != [] { KeptNone(replies, calls[..|calls| - 1]); }
  }

  lemma {:induction false} KeptAll(replies: map<string, Message>, calls: seq<Call>)
    requires AllAnswered(replies, calls)
    ensures Kept(replies, calls) == calls
  {
    hide Answered;
    if calls != [] {
      var n := |calls| - 1;
      KeptAll(replies, calls[..n]);
      SplitLast([], calls);
    }
  }

  const NO_MESSAGE := Message("", "", [], "", "")

  function RepliesTo(replies: map<string, Message>, kept: seq<Call>): seq<Message> {
    seq(|kept|, i requires 0 <= i < |kept| => Lookup(replies, kept[i].id, NO_MESSAGE))
  }

  function Reannounce(blank: string -> bool, replies: map<string, Message>, m: Message): seq<Message> {
    var kept := Kept(replies, m.calls);
    if kept == [] then (if blank(m.content) then [] else [m.(calls := [])])
    else [m.(calls := kept)] + RepliesTo(replies, kept)
  }

  function Rewrite(blank: string -> bool, replies: map<string, Message>, m: Message): seq<Message> {
    if IsReply(m) then [] else if Announcing(m) then Reannounce(blank, replies, m) else [m]
  }

  function RewriteAll(blank: string -> bool, replies: map<string, Message>, messages: seq<Message>): seq<Message> {
    if messages == [] then [] else
    RewriteAll(blank, replies, messages[..|messages| - 1]) + Rewrite(blank, replies, messages[|messages| - 1])
  }

  /** The repaired history; `blank` says which content holds no usable text. */
  function Normalized(blank: string -> bool, messages: seq<Message>): seq<Message> {
    RewriteAll(blank, Replies(messages), messages)
  }

  lemma RewriteOne(blank: string -> bool, replies: map<string, Message>, messages: seq<Message>, m: Message)
    ensures RewriteAll(blank, replies, messages + [m]) == RewriteAll(blank, replies, messages) + Rewrite(blank, replies, m)
  {
    assert (messages + [m])[..|messages|] == messages;
  }

  method IndexReplies(messages: seq<Message>) returns (replies: map<string, Message>)
    ensures replies == Replies(messages)
  {
    replies := map[];
    for i := 0 to |messages|
      invariant replies == Replies(messages[..i])
    {
      assert messages[..i + 1][..i] == messages[..i];
      var m := messages[i];
      if m.role == "tool" && m.replyTo != "" {
        replies := replies[m.replyTo := m];
      }
    }
    assert messages[..|messages|] == messages;
  }

  method KeepAnswered(replies: map<string, Message>, calls: seq<Call>) returns (kept: seq<Call>)
    ensures kept == Kept(replies, calls)
  {
    kept := [];
    for i := 0 to |calls|
      invariant kept == Kept(replies, calls[..i])
    {
      assert calls[..i + 1][..i] == calls[..i];
      if calls[i].id == "" { continue; }
      if calls[i].id in replies {
        kept := kept + [calls[i]];
      }
    }
    assert calls[..|calls|] == calls;
  }

  method CollectReplies(replies: map<string, Message>, kept: seq<Call>) returns (found: seq<Message>)
    requires AllAnswered(replies, kept)
    ensures found == RepliesTo(replies, kept)
  {
    found := [];
    for j := 0 to |kept|
      invariant found == RepliesTo(replies, kept)[..j]
    {
      assert Answered(replies, kept[j]);
      found := found + [replies[kept[j].id]];
    }
  }

  /** An announcer, without its unanswered calls and with the replies to the others. */
  method AppendAnnouncer(blank: string -> bool, replies: map<string, Message>, before: seq<Message>, m: Message)
    returns (out: seq<Message>)
    ensures out == before + Reannounce(blank, replies, m)
  {
    out := before;
    var kept := KeepAnswered(replies, m.calls);
    if |kept| == 0 {
      if !blank(m.content) {
        out := out + [m.(calls := [])];
      }
      return;
    }
    KeptAnswered(replies, m.calls);
    hide Kept, AllAnswered, RepliesTo;
    var found := CollectReplies(replies, kept);
    out := out + [m.(calls := kept)] + found;
    Associate(before, [m.(calls := kept)], found);
  }

  method NormalizeChatMessages(blank: string -> bool, messages: seq<Message>) returns (out: seq<Message>)
    ensures out == Normalized(blank, messages)
  {
    var replies := IndexReplies(messages);
    out := [];
    assert RewriteAll(blank, replies, messages[..0]) == [];
    hide Reannounce, RewriteAll, Replies;
    for i := 0 to |messages|
      invariant out == RewriteAll(blank, replies, messages[..i])
    {
      RewriteOne(blank, replies, messages[..i], messages[i]);
      assert messages[..i] + [messages[i]] == messages[..i + 1];
      var m := messages[i];
      if m.role == "tool" {
        if m.replyTo == "" {
          out := out + [m];
        }
      } else if |m.calls| > 0 {
        out := AppendAnnouncer(blank, replies, out, m);
      } else {
        out := out + [m];
      }
    }
    assert messages[..|messages|] == messages;
  }

  // ---- what a strict upstream demands ----------------------------------------------------

  /** How many of the latest announcer's calls still wait for a reply. A reader that meets a
      reply nobody waits for, or anything else while a reply is due, is `Lost`. */
  datatype Waiting = Waiting(due: seq<string>) | Lost

  function Ids(calls: seq<Call>): seq<string> {
    seq(|calls|, i requires 0 <= i < |calls| => calls[i].id)
  }

  function Expect(w: Waiting, m: Message): Waiting {
    if w.Lost? then Lost
    else if w.due != [] then (if IsReply(m) && m.replyTo == w.due[0] then Waiting(w.due[1..]) else Lost)
    else if IsReply(m) then Lost
    else if Announcing(m) then Waiting(Ids(m.calls))
    else w
  }

  function ReadHistory(messages: seq<Message>): Waiting {
    if messages == [] then Waiting([]) else Expect(ReadHistory(messages[..|messages| - 1]), messages[|messages| - 1])
  }

  /** Every announcing message is followed at once by exactly one reply per call, in call
      order, and there are no other replies. */
  predicate WellPaired(messages: seq<Message>) {
    ReadHistory(messages) == Waiting([])
  }

  /** One identifier, one reply. */
  predicate Consistent(messages: seq<Message>) {
    forall a, b :: a in messages && b in messages && IsReply(a) && IsReply(b) && a.replyTo == b.replyTo ==> a == b
  }

  /** Replies as the index holds them: under their own identifier. */
  predicate Indexed(replies: map<string, Message>) {
    forall id :: id in replies ==> IsReply(replies[id]) && replies[id].replyTo == id
  }

  lemma ReadOne(messages: seq<Message>, m: Message)
    ensures ReadHistory(messages + [m]) == Expect(ReadHistory(messages), m)
  {
    assert (messages + [m])[..|messages|] == messages;
  }

  /** The last reply that names an identifier. */
  predicate LastReply(messages: seq<Message>, id: string, i: nat) {
    && i < |messages| && IsReply(messages[i]) && messages[i].replyTo == id
    && forall j :: i < j < |messages| && IsReply(messages[j]) ==> messages[j].replyTo != id
  }

  /** The index holds, for each identifier that some reply names, the last such reply. */
  lemma {:induction false} RepliesMean(messages: seq<Message>)
    ensures Indexed(Replies(messages))
    ensures forall id :: id in Replies(messages) ==>
              exists i: nat :: LastReply(messages, id, i) && messages[i] == Replies(messages)[id]
    ensures forall i :: 0 <= i < |messages| && IsReply(messages[i]) ==> messages[i].replyTo in Replies(messages)
  {
    if messages != [] {
      var before, n := messages[..|messages| - 1], |messages| - 1;
      RepliesMean(before);
      forall id | id in Replies(messages)
        ensures exists i: nat :: LastReply(messages, id, i) && messages[i] == Replies(messages)[id]
      {
        if IsReply(messages[n]) && messages[n].replyTo == id {
          assert LastReply(messages, id, n);
        } else {
          var i: nat :| LastReply(before, id, i) && before[i] == Replies(before)[id];
          assert LastReply(messages, id, i);
        }
      }
    }
  }

  lemma {:induction false} ReadReplies(head: seq<Message>, replies: map<string, Message>, kept: seq<Call>, n: nat)
    requires Indexed(replies) && AllAnswered(replies, kept) && n <= |kept|
    requires ReadHistory(head) == Waiting(Ids(kept))
    ensures ReadHistory(head + RepliesTo(replies, kept)[..n]) == Waiting(Ids(kept)[n..])
  {
    var rs := RepliesTo(replies, kept);
    assert forall i :: 0 <= i < |kept| ==> rs[i] == Lookup(replies, kept[i].id, NO_MESSAGE);
    if n == 0 {
      assert head + rs[..0] == head;
    } else {
      ReadReplies(head, replies, kept, n - 1);
      assert head + rs[..n] == head + rs[..n - 1] + [rs[n - 1]];
      ReadOne(head + rs[..n - 1], rs[n - 1]);
      assert Answered(replies, kept[n - 1]);
      var due := Ids(kept);
      assert due[n - 1..][0] == due[n - 1] && due[n - 1..][1..] == due[n..];
      hide ReadHistory, RepliesTo;
    }
  }

  lemma AnnouncerPairs(blank: string -> bool, replies: map<string, Message>, head: seq<Message>, m: Message)
    requires Indexed(replies) && WellPaired(head) && Announcing(m)
    ensures WellPaired(head + Reannounce(blank, replies, m))
  {
    hide ReadHistory, Kept;
    var kept := Kept(replies, m.calls);
    KeptAnswered(replies, m.calls);
    if kept == [] {
      ReadOne(head, m.(calls := []));
      assert head + [] == head;
    } else {
      var a, rs := m.(calls := kept), RepliesTo(replies, kept);
      ReadOne(head, a);
      ReadReplies(head + [a], replies, kept, |kept|);
      assert rs[..|kept|] == rs;
      assert head + ([a] + rs) == head + [a] + rs;
    }
  }

  lemma RewritePairs(blank: string -> bool, replies: map<string, Message>, head: seq<Message>, m: Message)
    requires Indexed(replies) && WellPaired(head)
    ensures WellPaired(head + Rewrite(blank, replies, m))
  {
    hide ReadHistory, Reannounce;
    if Announcing(m) {
      AnnouncerPairs(blank, replies, head, m);
    } else {
      ReadOne(head, m);
      assert head + [] == head;
    }
  }

  lemma {:induction false} AllPaired(blank: string -> bool, replies: map<string, Message>, messages: seq<Message>)
    requires Indexed(replies)
    ensures WellPaired(RewriteAll(blank, replies, messages))
  {
    if messages != [] {
      AllPaired(blank, replies, messages[..|messages| - 1]);
      RewritePairs(blank, replies, RewriteAll(blank, replies, messages[..|messages| - 1]), messages[|messages| - 1]);
    }
  }

  // ---- what stays and what goes ----------------------------------------------------------

  /** What one message announces, and what it says apart from that. */
  function CallsOf(m: Message): seq<Call> {
    if Announcing(m) then m.calls else []
  }

  function Says(m: Message): seq<Message> {
    if IsReply(m) then [] else if Announcing(m) then [m.(calls := [])] else [m]
  }

  /** All announced calls, in order. */
  function AllCalls(messages: seq<Message>): seq<Call> {
    if messages == [] then [] else AllCalls(messages[..|messages| - 1]) + CallsOf(messages[|messages| - 1])
  }

  /** Everything but replies, without tool calls. */
  function Spoken(messages: seq<Message>): seq<Message> {
    if messages == [] then [] else Spoken(messages[..|messages| - 1]) + Says(messages[|messages| - 1])
  }

  /** An announcer that has nothing left to say once its unanswered calls are gone. */
  predicate Emptied(blank: string -> bool, replies: map<string, Message>, m: Message) {
    Announcing(m) && blank(m.content) && forall i :: 0 <= i < |m.calls| ==> !Answered(replies, m.calls[i])
  }

  function Remaining(blank: string -> bool, replies: map<string, Message>, messages: seq<Message>): seq<Message> {
    if messages == [] then [] else
    var m := messages[|messages| - 1];
    Remaining(blank, replies, messages[..|messages| - 1]) + if Emptied(blank, replies, m) then [] else [m]
  }

  lemma SpokenOne(messages: seq<Message>, m: Message)
    ensures AllCalls(messages + [m]) == AllCalls(messages) + CallsOf(m)
    ensures Spoken(messages + [m]) == Spoken(messages) + Says(m)
  {
    assert (messages + [m])[..|messages|] == messages;
  }

  lemma {:induction false} ReplyTail(head: seq<Message>, tail: seq<Message>)
    requires forall i :: 0 <= i < |tail| ==> IsReply(tail[i])
    ensures AllCalls(head + tail) == AllCalls(head) && Spoken(head + tail) == Spoken(head)
    decreases |tail|
  {
    if tail == [] {
      assert head + tail == head;
    } else {
      var n := |tail| - 1;
      assert head + tail == head + tail[..n] + [tail[n]];
      ReplyTail(head, tail[..n]);
      SpokenOne(head + tail[..n], tail[n]);
    }
  }

  lemma AnnouncerKeeps(blank: string -> bool, replies: map<string, Message>, head: seq<Message>, m: Message)
    requires Indexed(replies) && Announcing(m)
    ensures var out := head + Reannounce(blank, replies, m);
            && AllCalls(out) == AllCalls(head) + Kept(replies, m.calls)
            && Spoken(out) == Spoken(head) + if Emptied(blank, replies, m) then [] else [m.(calls := [])]
  {
    hide AllCalls, Spoken, Kept;
    var kept := Kept(replies, m.calls);
    KeptAnswered(replies, m.calls);
    KeptNone(replies, m.calls);
    assert Emptied(blank, replies, m) <==> kept == [] && blank(m.content);
    if kept == [] {
      SpokenOne(head, m.(calls := []));
      assert head + [] == head;
    } else {
      var a, rs := m.(calls := kept), RepliesTo(replies, kept);
      SpokenOne(head, a);
      forall i | 0 <= i < |rs| ensures IsReply(rs[i]) {
        assert Answered(replies, kept[i]);
      }
      ReplyTail(head + [a], rs);
      assert head + ([a] + rs) == head + [a] + rs;
    }
  }

  lemma KeptOne(replies: map<string, Message>, calls: seq<Call>, c: Call)
    ensures Kept(replies, calls + [c]) == Kept(replies, calls) + if Answered(replies, c) then [c] else []
  {
    assert (calls + [c])[..|calls|] == calls;
  }

  lemma {:induction false} KeptAppend(replies: map<string, Message>, a: seq<Call>, b: seq<Call>)
    ensures Kept(replies, a + b) == Kept(replies, a) + Kept(replies, b)
    decreases |b|
  {
    if b == [] {
      assert Kept(replies, b) == [] && a + b == a;
    } else {
      hide Kept, Answered;
      var n := |b| - 1;
      SplitLast(a, b);
      KeptAppend(replies, a, b[..n]);
      KeptOne(replies, a + b[..n], b[n]);
      KeptOne(replies, b[..n], b[n]);
      Associate(Kept(replies, a), Kept(replies, b[..n]), if Answered(replies, b[n]) then [b[n]] else []);
    }
  }

  lemma RewriteKeeps(blank: string -> bool, replies: map<string, Message>, head: seq<Message>, m: Message)
    requires Indexed(replies)
    ensures var out := head + Rewrite(blank, replies, m);
            && AllCalls(out) == AllCalls(head) + Kept(replies, CallsOf(m))
            && Spoken(out) == Spoken(head) + if Emptied(blank, replies, m) then [] else Says(m)
  {
    assert Kept(replies, []) == [];
    hide AllCalls, Spoken, Kept, Reannounce;
    if Announcing(m) {
      AnnouncerKeeps(blank, replies, head, m);
    } else if IsReply(m) {
      assert head + [] == head;
    } else {
      SpokenOne(head, m);
    }
  }

  lemma {:induction false} AllKept(blank: string -> bool, replies: map<string, Message>, messages: seq<Message>)
    requires Indexed(replies)
    ensures var out := RewriteAll(blank, replies, messages);
            && AllCalls(out) == Kept(replies, AllCalls(messages))
            && Spoken(out) == Spoken(Remaining(blank, replies, messages))
  {
    hide Rewrite, Emptied, Says, CallsOf;
    if messages != [] {
      var before, m := messages[..|messages| - 1], messages[|messages| - 1];
      AllKept(blank, replies, before);
      hide Kept;
      RewriteKeeps(blank, replies, RewriteAll(blank, replies, before), m);
      KeptAppend(replies, AllCalls(before), CallsOf(m));
      SpokenOne(Remaining(blank, replies, before), m);
      assert Spoken(RewriteAll(blank, replies, before)) + [] == Spoken(RewriteAll(blank, replies, before));
      assert Remaining(blank, replies, before) + [] == Remaining(blank, replies, before);
    }
  }

  lemma {:induction false} RepliesFromIndex(blank: string -> bool, replies: map<string, Message>, messages: seq<Message>)
    requires Indexed(replies)
    ensures forall m :: m in RewriteAll(blank, replies, messages) && IsReply(m) ==>
              m.replyTo in replies && m == replies[m.replyTo]
  {
    if messages != [] {
      RepliesFromIndex(blank, replies, messages[..|messages| - 1]);
      var m := messages[|messages| - 1];
      forall x | x in Rewrite(blank, replies, m) && IsReply(x) ensures x.replyTo in replies && x == replies[x.replyTo] {
        if Announcing(m) {
          var kept := Kept(replies, m.calls);
          assert kept != [];
          var i :| 0 <= i < |kept| && RepliesTo(replies, kept)[i] == x;
          assert kept[i] in kept;
        }
      }
    }
  }

  /** The repaired history, for every history: calls and replies are strictly adjacent; the
      calls left are exactly the answered ones in their order; every reply is the last one
      the history had for its call; and of everything else only announcers that were left
      with nothing to say are gone. */
  lemma NormalizeTheorem(blank: string -> bool, messages: seq<Message>)
    ensures var replies, out := Replies(messages), Normalized(blank, messages);
            && WellPaired(out) && Consistent(out)
            && AllCalls(out) == Kept(replies, AllCalls(messages))
            && (forall m :: m in out && IsReply(m) ==> exists i: nat :: LastReply(messages, m.replyTo, i) && m == messages[i])
            && Spoken(out) == Spoken(Remaining(blank, replies, messages))
  {
    var replies := Replies(messages);
    RepliesMean(messages);
    AllPaired(blank, replies, messages);
    AllKept(blank, replies, messages);
    RepliesFromIndex(blank, replies, messages);
    hide AllCalls, Spoken, WellPaired;
  }

  // ---- the repaired histories are exactly the fixed points ---------------------------------

  /** Every reply is the indexed one, and every announced call has one. */
  ghost predicate Settled(replies: map<string, Message>, m: Message) {
    && (IsReply(m) ==> m.replyTo in replies && replies[m.replyTo] == m)
    && (Announcing(m) ==> forall i :: 0 <= i < |m.calls| ==> Answered(replies, m.calls[i]))
  }

  ghost predicate AreDue(replies: map<string, Message>, due: seq<string>) {
    forall i :: 0 <= i < |due| ==> due[i] in replies
  }

  lemma SettledStep(blank: string -> bool, replies: map<string, Message>, due: seq<string>, m: Message)
    requires AreDue(replies, due) && Settled(replies, m) && !Expect(Waiting(due), m).Lost?
    ensures var next := Expect(Waiting(due), m).due;
            AreDue(replies, next) && DueReplies(replies, due) + Rewrite(blank, replies, m) == [m] + DueReplies(replies, next)
  {
    hide Kept;
    if due != [] {
      assert DueReplies(replies, due) == [m] + DueReplies(replies, due[1..]);
    } else if Announcing(m) {
      KeptAll(replies, m.calls);
      assert RepliesTo(replies, m.calls) == DueReplies(replies, Ids(m.calls));
    }
  }

  /** Reading a well-paired history: what has been rewritten so far is what has been read,
      plus the replies that are still due. */
  lemma {:induction false} PairedIsFixed(blank: string -> bool, replies: map<string, Message>, messages: seq<Message>)
    requires !ReadHistory(messages).Lost? && forall i :: 0 <= i < |messages| ==> Settled(replies, messages[i])
    ensures var due := ReadHistory(messages).due;
            AreDue(replies, due) && RewriteAll(blank, replies, messages) == messages + DueReplies(replies, due)
  {
    hide Settled, Rewrite, Expect, DueReplies;
    if messages == [] {
      assert DueReplies(replies, []) == [] by { NothingDue(replies); }
    } else {
      var before, m := messages[..|messages| - 1], messages[|messages| - 1];
      ExpectLost(ReadHistory(before), m);
      PairedIsFixed(blank, replies, before);
      var due := ReadHistory(before).due;
      SettledStep(blank, replies, due, m);
      var next := ReadHistory(messages).due;
      assert before + DueReplies(replies, due) + Rewrite(blank, replies, m) ==
             before + (DueReplies(replies, due) + Rewrite(blank, replies, m));
      assert before + ([m] + DueReplies(replies, next)) == before + [m] + DueReplies(replies, next);
      assert before + [m] == messages;
    }
  }

  lemma NothingDue(replies: map<string, Message>)
    ensures DueReplies(replies, []) == []
  {
  }

  lemma ExpectLost(w: Waiting, m: Message)
    ensures w.Lost? ==> Expect(w, m).Lost?
  {
  }

  function DueReplies(replies: map<string, Message>, due: seq<string>): seq<Message>
    requires AreDue(replies, due)
  {
    seq(|due|, i requires 0 <= i < |due| => replies[due[i]])
  }

  lemma AnsweredParts(replies: map<string, Message>, a: seq<Call>, b: seq<Call>)
    requires AllAnswered(replies, a + b)
    ensures AllAnswered(replies, a) && AllAnswered(replies, b)
  {
    assert forall i :: 0 <= i < |a| ==> (a + b)[i] == a[i];
    assert forall i :: 0 <= i < |b| ==> (a + b)[|a| + i] == b[i];
  }

  lemma {:induction false} CallsSettled(replies: map<string, Message>, messages: seq<Message>, i: nat)
    requires i < |messages| && Announcing(messages[i]) && AllAnswered(replies, AllCalls(messages))
    ensures AllAnswered(replies, messages[i].calls)
    decreases |messages|
  {
    var before, m := messages[..|messages| - 1], messages[|messages| - 1];
    AnsweredParts(replies, AllCalls(before), CallsOf(m));
    hide AllAnswered;
    if i < |before| { CallsSettled(replies, before, i); }
  }

  /** A history is left as it is exactly when calls and replies are strictly adjacent already,
      no two different replies share an identifier, and every announced call is answered. */
  lemma FixedPoints(blank: string -> bool, messages: seq<Message>)
    ensures Normalized(blank, messages) == messages <==>
            WellPaired(messages) && Consistent(messages) && AllAnswered(Replies(messages), AllCalls(messages))
  {
    var replies := Replies(messages);
    RepliesMean(messages);
    if WellPaired(messages) && Consistent(messages) && AllAnswered(replies, AllCalls(messages)) {
      forall i | 0 <= i < |messages| ensures Settled(replies, messages[i]) {
        var m := messages[i];
        if IsReply(m) {
          var j: nat :| LastReply(messages, m.replyTo, j) && messages[j] == replies[m.replyTo];
          assert messages[j] in messages && m in messages;
        }
        if Announcing(m) { CallsSettled(replies, messages, i); }
      }
      PairedIsFixed(blank, replies, messages);
      NothingDue(replies);
    }
    NormalizeTheorem(blank, messages);
    KeptAnswered(replies, AllCalls(messages));
    if AllAnswered(replies, AllCalls(messages)) { KeptAll(replies, AllCalls(messages)); }
  }

  /** Repairing twice is repairing once. */
  lemma NormalizeIdempotent(blank: string -> bool, messages: seq<Message>)
    ensures var out := Normalized(blank, messages);
            Normalized(blank, out) == out
  {
    var replies, out := Replies(messages), Normalized(blank, messages);
    NormalizeTheorem(blank, messages);
    FixedPoints(blank, out);
    RepliesMean(out);
    KeptAnswered(replies, AllCalls(messages));
    forall i | 0 <= i < |AllCalls(out)| ensures Answered(Replies(out), AllCalls(out)[i]) {
      assert Answered(replies, AllCalls(out)[i]) && AllCalls(out)[i] in AllCalls(out);
      AnsweredInPlace(out, AllCalls(out)[i]);
    }
  }

  /** In a well-paired history every announced call with an identifier has its reply. */
  lemma {:induction false} RepliesRead(messages: seq<Message>)
    requires !ReadHistory(messages).Lost?
    ensures forall c :: c in AllCalls(messages) && c.id != "" ==>
              c.id in ReadHistory(messages).due || exists m :: m in messages && IsReply(m) && m.replyTo == c.id
  {
    if messages != [] {
      var before, m := messages[..|messages| - 1], messages[|messages| - 1];
      ExpectLost(ReadHistory(before), m);
      RepliesRead(before);
      assert before + [m] == messages;
      forall c | c in AllCalls(messages) && c.id != ""
        ensures c.id in ReadHistory(messages).due || exists r :: r in messages && IsReply(r) && r.replyTo == c.id
      {
        if c in AllCalls(before) {
          if r :| r in before && IsReply(r) && r.replyTo == c.id { assert r in messages; }
        } else {
          var i :| 0 <= i < |m.calls| && m.calls[i] == c;
          assert Ids(m.calls)[i] == c.id;
        }
      }
    }
  }

  lemma AnsweredInPlace(messages: seq<Message>, c: Call)
    requires WellPaired(messages) && c in AllCalls(messages) && c.id != ""
    ensures Answered(Replies(messages), c)
  {
    RepliesRead(messages);
    RepliesMean(messages);
  }
}
