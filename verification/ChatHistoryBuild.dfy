/** From Responses input items to a repaired Chat Completions history. */
module ChatHistoryBuild {
  import opened Text
  import opened H = ChatHistory

  /** An input item, decoded: a message of some role (texts and images count as messages of the
      user), or one of the kinds that have a meaning of their own. Kinds without an equivalent
      are skipped and end the reasoning that waits; an empty or null item is passed over; what cannot
      be decoded fails the request. */
  datatype Item =
    | Thought(text: string)
    | Calls(call: Call)
    | Output(callId: string, content: string)
    | Says(role: string, content: string)
    | Skipped
    | Nothing
    | Malformed

  /** The messages so far, and reasoning that waits for the message it belongs to. */
  datatype Built = Built(messages: seq<Message>, pending: string)

  function LastIsAssistant(messages: seq<Message>): bool {
    messages != [] && messages[|messages| - 1].role == "assistant"
  }

  function WithCall(m: Message, call: Call, pending: string): Message {
    m.(calls := m.calls + [call], reasoning := if m.reasoning == "" then pending else m.reasoning)
  }

  function Step(b: Built, item: Item): Built {
    match item
    case Thought(text) => if text == "" then b else b.(pending := text)
    case Calls(call) =>
      var n := |b.messages| - 1;
      if LastIsAssistant(b.messages) then Built(b.messages[..n] + [WithCall(b.messages[n], call, b.pending)], "")
      else Built(b.messages + [Message("assistant", "", [call], "", b.pending)], "")
    case Output(callId, content) => Built(b.messages + [Message("tool", content, [], callId, "")], "")
    case Says(role, content) =>
      Built(b.messages + [Message(role, content, [], "", "")], if role == "assistant" then b.pending else "")
    case Nothing => b
    case _ => b.(pending := "")
  }

  function Build(start: seq<Message>, items: seq<Item>): Built {
    if items == [] then Built(start, "") else Step(Build(start, items[..|items| - 1]), items[|items| - 1])
  }

  predicate AnyMalformed(items: seq<Item>) {
    exists i :: 0 <= i < |items| && items[i].Malformed?
  }

  method AddItem(built: seq<Message>, pending: string, item: Item) returns (messages: seq<Message>, reasoning: string)
    ensures Built(messages, reasoning) == Step(Built(built, pending), item)
  {
    messages, reasoning := built, pending;
    match item
    case Thought(text) =>
      if text != "" {
        reasoning := text;
      }
    case Calls(call) =>
      var n := |built|;
      if n > 0 && built[n - 1].role == "assistant" {
        var m := built[n - 1];
        m := m.(calls := m.calls + [call]);
        if m.reasoning == "" {
          m := m.(reasoning := pending);
        }
        messages := built[..n - 1] + [m];
      } else {
        messages := messages + [Message("assistant", "", [call], "", pending)];
      }
      reasoning := "";
    case Output(callId, content) =>
      messages := messages + [Message("tool", content, [], callId, "")];
      reasoning := "";
    case Says(role, content) =>
      messages := messages + [Message(role, content, [], "", "")];
      if role != "assistant" {
        reasoning := "";
      }
    case Nothing =>
    case _ => reasoning := "";
  }

  method BuildChatMessages(start: seq<Message>, items: seq<Item>) returns (messages: Option<seq<Message>>)
    ensures messages == if AnyMalformed(items) then None else Some(Build(start, items).messages)
  {
    var built, pending := start, "";
    hide Step;
    for i := 0 to |items|
      invariant forall j :: 0 <= j < i ==> !items[j].Malformed?
      invariant Build(start, items[..i]) == Built(built, pending)
    {
      assert items[..i + 1][..i] == items[..i];
      if items[i].Malformed? { return None; }
      built, pending := AddItem(built, pending, items[i]);
    }
    assert items[..|items|] == items;
    return Some(built);
  }

  /** The whole conversion of an input list. */
  method ConvertItems(blank: string -> bool, start: seq<Message>, items: seq<Item>) returns (messages: Option<seq<Message>>)
    ensures messages == if AnyMalformed(items) then None else Some(Normalized(blank, Build(start, items).messages))
  {
    messages := BuildChatMessages(start, items);
    if messages.None? { return; }
    var out := NormalizeChatMessages(blank, messages.value);
    messages := Some(out);
  }

  // ---- nothing is lost on the way ------------------------------------------------------------

  function ItemCalls(items: seq<Item>): seq<Call> {
    if items == [] then [] else
    var last := items[|items| - 1];
    ItemCalls(items[..|items| - 1]) + if last.Calls? then [last.call] else []
  }

  datatype Pair = Pair(key: string, content: string)

  /** Outputs by call, and words by role, in order. */
  function ItemOutputs(items: seq<Item>): seq<Pair> {
    if items == [] then [] else
    var last := items[|items| - 1];
    ItemOutputs(items[..|items| - 1]) + if last.Output? && last.callId != "" then [Pair(last.callId, last.content)] else []
  }

  function ItemWords(items: seq<Item>): seq<Pair> {
    if items == [] then [] else
    var last := items[|items| - 1];
    ItemWords(items[..|items| - 1]) + if last.Says? && last.role != "tool" && last.content != "" then [Pair(last.role, last.content)] else []
  }

  function Outputs(messages: seq<Message>): seq<Pair> {
    if messages == [] then [] else
    var m := messages[|messages| - 1];
    Outputs(messages[..|messages| - 1]) + if IsReply(m) then [Pair(m.replyTo, m.content)] else []
  }

  function Words(messages: seq<Message>): seq<Pair> {
    if messages == [] then [] else
    var m := messages[|messages| - 1];
    Words(messages[..|messages| - 1]) + if m.role != "tool" && m.content != "" then [Pair(m.role, m.content)] else []
  }

  lemma ReadMessages(messages: seq<Message>, m: Message)
    ensures AllCalls(messages + [m]) == AllCalls(messages) + CallsOf(m)
    ensures Outputs(messages + [m]) == Outputs(messages) + if IsReply(m) then [Pair(m.replyTo, m.content)] else []
    ensures Words(messages + [m]) == Words(messages) + if m.role != "tool" && m.content != "" then [Pair(m.role, m.content)] else []
  {
    SpokenOne(messages, m);
    assert (messages + [m])[..|messages|] == messages;
  }

  /** A call joins the assistant message before it, or opens one. */
  lemma CallReads(b: Built, call: Call)
    ensures var t := Step(b, Calls(call)).messages;
            && AllCalls(t) == AllCalls(b.messages) + [call] && Outputs(t) == Outputs(b.messages) && Words(t) == Words(b.messages)
            && LastIsAssistant(t) && t[|t| - 1].calls != [] && t[|t| - 1].calls[|t[|t| - 1].calls| - 1] == call
  {
    hide AllCalls, Outputs, Words;
    if LastIsAssistant(b.messages) {
      var n := |b.messages| - 1;
      var m, head := b.messages[n], b.messages[..n];
      SplitLast([], b.messages);
      ReadMessages(head, m);
      ReadMessages(head, WithCall(m, call, b.pending));
      Associate(AllCalls(head), m.calls, [call]);
      assert [] + [call] == [call];
      assert Outputs(head) + [] == Outputs(head);
    } else {
      ReadMessages(b.messages, Message("assistant", "", [call], "", b.pending));
      assert Outputs(b.messages) + [] == Outputs(b.messages) && Words(b.messages) + [] == Words(b.messages);
    }
  }

  lemma StepReads(b: Built, item: Item)
    ensures var t := Step(b, item).messages;
            && AllCalls(t) == AllCalls(b.messages) + (if item.Calls? then [item.call] else [])
            && Outputs(t) == Outputs(b.messages) + (if item.Output? && item.callId != "" then [Pair(item.callId, item.content)] else [])
            && Words(t) == Words(b.messages) +
               (if item.Says? && item.role != "tool" && item.content != "" then [Pair(item.role, item.content)] else [])
  {
    hide AllCalls, Outputs, Words;
    match item
    case Calls(call) => CallReads(b, call);
    case Output(callId, content) => ReadMessages(b.messages, Message("tool", content, [], callId, ""));
    case Says(role, content) => ReadMessages(b.messages, Message(role, content, [], "", ""));
    case _ =>
  }

  /** Every call, every output and every word of the items is in the built history, once and
      in order, however the items interleave. */
  lemma {:induction false} BuildKeeps(start: seq<Message>, items: seq<Item>)
    ensures var t := Build(start, items).messages;
            && AllCalls(t) == AllCalls(start) + ItemCalls(items)
            && Outputs(t) == Outputs(start) + ItemOutputs(items)
            && Words(t) == Words(start) + ItemWords(items)
  {
    hide AllCalls, Outputs, Words, Step;
    if items != [] {
      var before, last := items[..|items| - 1], items[|items| - 1];
      BuildKeeps(start, before);
      StepReads(Build(start, before), last);
      Associate(AllCalls(start), ItemCalls(before), if last.Calls? then [last.call] else []);
      Associate(Outputs(start), ItemOutputs(before), if last.Output? && last.callId != "" then [Pair(last.callId, last.content)] else []);
      Associate(Words(start), ItemWords(before),
                if last.Says? && last.role != "tool" && last.content != "" then [Pair(last.role, last.content)] else []);
    }
  }

  /** Whatever the start and the items, the converted history is one a strict upstream accepts,
      and its calls are exactly the answered calls of the start and the items, in order. */
  lemma ConvertTheorem(blank: string -> bool, start: seq<Message>, items: seq<Item>)
    ensures var built := Build(start, items).messages;
            var out := Normalized(blank, built);
            WellPaired(out) && Consistent(out) && AllCalls(out) == Kept(Replies(built), AllCalls(start) + ItemCalls(items))
  {
    BuildKeeps(start, items);
    NormalizeTheorem(blank, Build(start, items).messages);
    hide Build, Normalized, WellPaired, Consistent, Spoken, Remaining, Kept, Outputs, Words, Replies, ItemCalls;
  }

  /** A call counts as answered exactly when it has an identifier that some output names. */
  lemma AnsweredItems(start: seq<Message>, items: seq<Item>, c: Call)
    ensures Answered(Replies(Build(start, items).messages), c) <==>
            c.id != "" && (Named(Outputs(start), c.id) || Named(ItemOutputs(items), c.id))
  {
    BuildKeeps(start, items);
    OutputsAnswer(Build(start, items).messages, c);
    NamedAppend(Outputs(start), ItemOutputs(items), c.id);
    hide Build, ItemOutputs, ItemWords, ItemCalls, AllCalls, Words, Outputs, Named;
  }

  /** The start of a request that carries instructions: it adds no call and no output. */
  lemma InstructionsAreSilent(content: string)
    ensures var start := [Message("system", content, [], "", "")]; AllCalls(start) == [] && Outputs(start) == []
  {
    ReadMessages([], Message("system", content, [], "", ""));
    assert [] + [Message("system", content, [], "", "")] == [Message("system", content, [], "", "")];
  }

  predicate Named(outputs: seq<Pair>, id: string) {
    exists i :: 0 <= i < |outputs| && outputs[i].key == id
  }

  lemma NamedAppend(a: seq<Pair>, b: seq<Pair>, id: string)
    ensures Named(a + b, id) <==> Named(a, id) || Named(b, id)
  {
    if i :| 0 <= i < |a| && a[i].key == id { assert (a + b)[i].key == id; }
    if i :| 0 <= i < |b| && b[i].key == id { assert (a + b)[|a| + i].key == id; }
    if i :| 0 <= i < |a + b| && (a + b)[i].key == id {
      assert i < |a| ==> a[i].key == id;
      assert i >= |a| ==> b[i - |a|].key == id;
    }
  }

  lemma NamedOne(outputs: seq<Pair>, p: Pair, id: string)
    ensures Named(outputs + [p], id) <==> Named(outputs, id) || p.key == id
  {
    var now := outputs + [p];
    if i :| 0 <= i < |outputs| && outputs[i].key == id { assert now[i].key == id; }
    assert now[|outputs|].key == p.key;
  }

  lemma {:induction false} OutputsAnswer(messages: seq<Message>, c: Call)
    ensures Answered(Replies(messages), c) <==> c.id != "" && Named(Outputs(messages), c.id)
  {
    hide Named;
    if messages == [] {
      NothingNamed(c.id);
    } else {
      var before, m := messages[..|messages| - 1], messages[|messages| - 1];
      OutputsAnswer(before, c);
      assert Outputs(before) + [] == Outputs(before);
      NamedOne(Outputs(before), Pair(m.replyTo, m.content), c.id);
    }
  }

  lemma NothingNamed(id: string)
    ensures !Named([], id)
  {
  }

  /** Items that leave the messages alone. */
  predicate Quiet(item: Item) {
    item.Thought? || item.Skipped? || item.Nothing? || item.Malformed?
  }

  /** The reasoning of the message a call joins or opens: its own, or else what was pending. */
  function ReasoningFor(b: Built): string {
    if LastIsAssistant(b.messages) && b.messages[|b.messages| - 1].reasoning != ""
    then b.messages[|b.messages| - 1].reasoning else b.pending
  }

  /** Parallel calls share one message, even across reasoning and items that are skipped; the
      reasoning that came before the first call goes with it, unless the message has its own. */
  lemma {:induction false} ParallelCallsShare(b: Built, call: Call, between: seq<Item>, next: Call)
    requires forall i :: 0 <= i < |between| ==> Quiet(between[i])
    ensures var first := Step(b, Calls(call));
            var m := first.messages[|first.messages| - 1];
            var t := Step(After(first, between), Calls(next)).messages;
            && |t| == |first.messages| && t[..|t| - 1] == first.messages[..|t| - 1]
            && t[|t| - 1].calls == m.calls + [next]
            && m.reasoning == ReasoningFor(b)
            && (m.reasoning != "" ==> t[|t| - 1].reasoning == m.reasoning)
  {
    var first := Step(b, Calls(call));
    QuietAfter(first, between);
    CallReads(b, call);
    FirstReasoning(b, call);
    hide AllCalls, Outputs, Words, After;
    var s, n := After(first, between), |first.messages| - 1;
    assert Step(s, Calls(next)).messages == first.messages[..n] + [WithCall(first.messages[n], next, s.pending)];
    hide Step, ReasoningFor;
  }

  lemma FirstReasoning(b: Built, call: Call)
    ensures var t := Step(b, Calls(call)).messages; t != [] && t[|t| - 1].reasoning == ReasoningFor(b)
  {
  }

  function After(b: Built, items: seq<Item>): Built {
    if items == [] then b else Step(After(b, items[..|items| - 1]), items[|items| - 1])
  }

  lemma {:induction false} QuietAfter(b: Built, items: seq<Item>)
    requires forall i :: 0 <= i < |items| ==> Quiet(items[i])
    ensures After(b, items).messages == b.messages
  {
    if items != [] { QuietAfter(b, items[..|items| - 1]); }
  }
}
