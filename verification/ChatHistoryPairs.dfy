/** What a paired history looks like, message by message. */
module ChatHistoryPairs {
  import opened Text
  import opened ChatHistory

  /** The message at i carries calls; it is no tool message. */
  predicate CallsAt(h: seq<Message>, i: nat) {
    i < |h| && h[i].role != "tool" && h[i].calls != []
  }

  /** The message at p is a tool message that names a call. */
  predicate ReplyAt(h: seq<Message>, p: nat) {
    p < |h| && h[p].role == "tool" && h[p].replyTo != ""
  }

  /** The reply to call j of the message at i stands j + 1 places behind it. */
  predicate RepliedAt(h: seq<Message>, i: nat, j: nat)
    requires i < |h| && j < |h[i].calls|
  {
    ReplyAt(h, i + 1 + j) && h[i + 1 + j].replyTo == h[i].calls[j].id
  }

  /** The reply at p belongs to the message at i. */
  predicate BelongsTo(h: seq<Message>, p: nat, i: nat) {
    i < p < |h| && CallsAt(h, i) && p - i - 1 < |h[i].calls| && RepliedAt(h, i, p - i - 1)
  }

  /** A history read so far, with `due` replies still to come for its latest calls. */
  ghost predicate ReadSo(h: seq<Message>, due: seq<string>) {
    && (forall i: nat, j: nat :: CallsAt(h, i) && j < |h[i].calls| && i + 1 + j < |h| ==> RepliedAt(h, i, j))
    && (forall p: nat :: ReplyAt(h, p) ==> exists i: nat :: BelongsTo(h, p, i))
    && (forall i: nat :: CallsAt(h, i) && i + 1 + |h[i].calls| > |h| ==> due == Ids(h[i].calls)[|h| - i - 1..])
    && (due != [] ==> exists i: nat :: CallsAt(h, i) && i + 1 + |h[i].calls| > |h|)
  }

  lemma OneMore(h: seq<Message>, m: Message)
    ensures var g := h + [m];
            && (forall i: nat :: i < |h| ==> g[i] == h[i] && (CallsAt(g, i) <==> CallsAt(h, i)) && (ReplyAt(g, i) <==> ReplyAt(h, i)))
            && (forall i: nat, p: nat :: BelongsTo(h, p, i) ==> BelongsTo(g, p, i))
            && (forall i: nat, j: nat :: CallsAt(h, i) && j < |h[i].calls| && i + 1 + j < |h| && RepliedAt(h, i, j) ==> RepliedAt(g, i, j))
  {
  }

  /** A reply that was due. */
  lemma DueComes(h: seq<Message>, due: seq<string>, m: Message)
    requires ReadSo(h, due) && due != [] && m.role == "tool" && m.replyTo != "" && m.replyTo == due[0]
    ensures ReadSo(h + [m], due[1..])
  {
    var g, n := h + [m], |h|;
    OneMore(h, m);
    var i: nat :| CallsAt(h, i) && i + 1 + |h[i].calls| > n;
    var ids := Ids(h[i].calls);
    assert due[0] == ids[n - i - 1] == h[i].calls[n - i - 1].id;
    assert RepliedAt(g, i, n - i - 1) && BelongsTo(g, n, i);
    assert due[1..] == ids[n - i..];
    forall k: nat | CallsAt(g, k) && k + 1 + |g[k].calls| > n + 1 ensures due[1..] == Ids(g[k].calls)[n + 1 - k - 1..] {
      assert due == Ids(h[k].calls)[n - k - 1..];
      assert due[1..] == Ids(h[k].calls)[n - k..];
    }
    forall k: nat, j: nat | CallsAt(g, k) && j < |g[k].calls| && k + 1 + j < n + 1 ensures RepliedAt(g, k, j) {
      if k + 1 + j == n {
        assert due == Ids(h[k].calls)[n - k - 1..];
        assert due[0] == h[k].calls[j].id;
      }
    }
    if due[1..] != [] { assert CallsAt(g, i) && i + 1 + |g[i].calls| > n + 1; }
  }

  lemma StillDue(h: seq<Message>, due: seq<string>, i: nat)
    requires ReadSo(h, due) && CallsAt(h, i) && i + 1 + |h[i].calls| > |h|
    ensures due != []
  {
    assert |due| == |h[i].calls| - (|h| - i - 1);
  }

  /** A message while no reply is due. */
  lemma NothingDue(h: seq<Message>, m: Message)
    requires ReadSo(h, []) && !(m.role == "tool" && m.replyTo != "")
    ensures ReadSo(h + [m], if m.role != "tool" && m.calls != [] then Ids(m.calls) else [])
  {
    var g, n := h + [m], |h|;
    OneMore(h, m);
    forall i: nat | CallsAt(h, i) ensures i + 1 + |h[i].calls| <= n {
      if i + 1 + |h[i].calls| > n { StillDue(h, [], i); }
    }
    if CallsAt(g, n) {
      assert Ids(m.calls)[0..] == Ids(m.calls);
    }
  }

  lemma {:induction false} ReadMeans(h: seq<Message>)
    ensures ReadHistory(h).Waiting? ==> ReadSo(h, ReadHistory(h).due)
  {
    if h != [] {
      var n := |h| - 1;
      ReadMeans(h[..n]);
      var w := ReadHistory(h[..n]);
      assert h[..n] + [h[n]] == h;
      hide ReadSo;
      if w.Waiting? && ReadHistory(h).Waiting? {
        if w.due != [] { DueComes(h[..n], w.due, h[n]); } else { NothingDue(h[..n], h[n]); }
      }
    }
  }

  /** In a paired history the calls of each message are answered by the messages right behind it,
      one by one, and a reply stands nowhere else. */
  lemma PairedMeans(h: seq<Message>)
    requires WellPaired(h)
    ensures forall i: nat, j: nat :: CallsAt(h, i) && j < |h[i].calls| ==> RepliedAt(h, i, j)
    ensures forall p: nat :: ReplyAt(h, p) ==> exists i: nat :: BelongsTo(h, p, i)
  {
    ReadMeans(h);
    forall i: nat | CallsAt(h, i) ensures i + 1 + |h[i].calls| <= |h| {
      if i + 1 + |h[i].calls| > |h| { StillDue(h, [], i); }
    }
  }

  // ---- which messages stay ---------------------------------------------------------------

  /** Some tool message names the call. */
  predicate Answers(all: seq<Message>, id: string) {
    id != "" && exists i :: 0 <= i < |all| && all[i].role == "tool" && all[i].replyTo == id
  }

  ghost function AnsweredCalls(all: seq<Message>, calls: seq<Call>): seq<Call> {
    if calls == [] then [] else
    var c := calls[|calls| - 1];
    AnsweredCalls(all, calls[..|calls| - 1]) + if Answers(all, c.id) then [c] else []
  }

  /** What is left of one message of the history `all`, its replies aside. */
  ghost function Left(blank: string -> bool, all: seq<Message>, m: Message): seq<Message> {
    if m.role == "tool" then (if m.replyTo == "" then [m] else [])
    else if m.calls == [] then [m]
    else if AnsweredCalls(all, m.calls) == [] && blank(m.content) then []
    else [m.(calls := AnsweredCalls(all, m.calls))]
  }

  ghost function AllLeft(blank: string -> bool, all: seq<Message>, messages: seq<Message>): seq<Message> {
    if messages == [] then [] else
    AllLeft(blank, all, messages[..|messages| - 1]) + Left(blank, all, messages[|messages| - 1])
  }

  /** A history without the tool messages that name a call. */
  function Others(messages: seq<Message>): seq<Message> {
    if messages == [] then [] else
    var m := messages[|messages| - 1];
    Others(messages[..|messages| - 1]) + if m.role == "tool" && m.replyTo != "" then [] else [m]
  }

  ghost predicate Indexes(replies: map<string, Message>, all: seq<Message>) {
    forall id :: id != "" ==> (id in replies <==> Answers(all, id))
  }

  lemma IndexIndexes(all: seq<Message>)
    ensures Indexes(Replies(all), all) && Indexed(Replies(all))
  {
    RepliesMean(all);
    hide Replies;
    forall id | id != "" ensures id in Replies(all) <==> Answers(all, id) {
      if id in Replies(all) {
        var i: nat :| LastReply(all, id, i) && all[i] == Replies(all)[id];
      }
      if Answers(all, id) {
        var i :| 0 <= i < |all| && all[i].role == "tool" && all[i].replyTo == id;
        assert IsReply(all[i]);
      }
    }
  }

  lemma CallAnswered(replies: map<string, Message>, all: seq<Message>, c: Call)
    requires Indexes(replies, all)
    ensures Answered(replies, c) <==> Answers(all, c.id)
  {
  }

  lemma {:induction false} KeptAreAnswered(replies: map<string, Message>, all: seq<Message>, calls: seq<Call>)
    requires Indexes(replies, all)
    ensures Kept(replies, calls) == AnsweredCalls(all, calls)
  {
    if calls != [] {
      hide Answers, Answered, Indexes;
      KeptAreAnswered(replies, all, calls[..|calls| - 1]);
      CallAnswered(replies, all, calls[|calls| - 1]);
    }
  }

  lemma {:induction false} OthersAppend(a: seq<Message>, b: seq<Message>)
    ensures Others(a + b) == Others(a) + Others(b)
    decreases |b|
  {
    if b == [] {
      assert a + b == a;
    } else {
      var n := |b| - 1;
      assert (a + b)[..|a + b| - 1] == a + b[..n];
      OthersAppend(a, b[..n]);
    }
  }

  lemma {:induction false} RepliesAreNoOthers(messages: seq<Message>)
    requires forall i :: 0 <= i < |messages| ==> messages[i].role == "tool" && messages[i].replyTo != ""
    ensures Others(messages) == []
  {
    if messages != [] { RepliesAreNoOthers(messages[..|messages| - 1]); }
  }

  lemma OthersOne(m: Message)
    ensures Others([m]) == (if m.role == "tool" && m.replyTo != "" then [] else [m]) && Others([]) == []
  {
    assert [m][..0] == [];
  }

  /** An announcer with its replies. */
  lemma AnnouncerLeft(replies: map<string, Message>, m: Message, kept: seq<Call>)
    requires Indexed(replies) && AllAnswered(replies, kept) && m.role != "tool"
    ensures Others([m] + RepliesTo(replies, kept)) == [m]
  {
    hide Others;
    var found := RepliesTo(replies, kept);
    forall i | 0 <= i < |found| ensures found[i].role == "tool" && found[i].replyTo != "" {
      assert Answered(replies, kept[i]) && found[i] == replies[kept[i].id] && IsReply(found[i]);
    }
    hide RepliesTo;
    RepliesAreNoOthers(found);
    OthersAppend([m], found);
    OthersOne(m);
  }

  lemma RewriteLeft(blank: string -> bool, replies: map<string, Message>, all: seq<Message>, m: Message)
    requires Indexes(replies, all) && Indexed(replies)
    ensures Others(Rewrite(blank, replies, m)) == Left(blank, all, m)
  {
    hide Others, Kept, AnsweredCalls, Indexes, Indexed, RepliesTo;
    var kept := Kept(replies, m.calls);
    KeptAreAnswered(replies, all, m.calls);
    KeptAnswered(replies, m.calls);
    OthersOne(m);
    OthersOne(m.(calls := []));
    if m.role != "tool" { AnnouncerLeft(replies, m.(calls := kept), kept); }
  }

  lemma {:induction false} RewriteAllLeft(blank: string -> bool, replies: map<string, Message>, all: seq<Message>, messages: seq<Message>)
    requires Indexes(replies, all) && Indexed(replies)
    ensures Others(RewriteAll(blank, replies, messages)) == AllLeft(blank, all, messages)
  {
    if messages != [] {
      hide Others, Rewrite, Left, Indexes, Indexed;
      var before, m := messages[..|messages| - 1], messages[|messages| - 1];
      RewriteAllLeft(blank, replies, all, before);
      RewriteLeft(blank, replies, all, m);
      OthersAppend(RewriteAll(blank, replies, before), Rewrite(blank, replies, m));
    } else {
      OthersOne(NO_MESSAGE);
    }
  }

  /** Every message but a tool message that names a call stays, in order, with the calls that some
      tool message names; it goes only if it had calls, has none left, and says nothing. Together
      with the pairing above, and with the last reply of each call, this is the whole repaired
      history. */
  lemma MessagesStay(blank: string -> bool, messages: seq<Message>)
    ensures Others(Normalized(blank, messages)) == AllLeft(blank, messages, messages)
  {
    IndexIndexes(messages);
    RewriteAllLeft(blank, Replies(messages), messages, messages);
  }
}
