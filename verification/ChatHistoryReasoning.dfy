/** Where the items of a request end up in the chat history, and which reasoning each call carries. */
module ChatHistoryReasoning {
  import opened Text
  import opened H = ChatHistory
  import opened ChatHistoryBuild

  // ---- places ----------------------------------------------------------------------------------

  /** How many messages there are, and whether the last one is the assistant's. */
  datatype Shape = Shape(count: nat, assistant: bool)

  function ShapeOf(messages: seq<Message>): Shape {
    Shape(|messages|, messages != [] && messages[|messages| - 1].role == "assistant")
  }

  /** Every output and every message stands alone; a call joins an assistant message just before it. */
  function Shaped(start: Shape, items: seq<Item>): Shape {
    if items == [] then start else
    var s := Shaped(start, items[..|items| - 1]);
    match items[|items| - 1]
    case Output(_, _) => Shape(s.count + 1, false)
    case Says(role, _) => Shape(s.count + 1, role == "assistant")
    case Calls(_) => if s.assistant then s else Shape(s.count + 1, true)
    case _ => s
  }

  lemma {:induction false} ShapeMeans(start: seq<Message>, items: seq<Item>)
    ensures ShapeOf(Build(start, items).messages) == Shaped(ShapeOf(start), items)
  {
    if items != [] { ShapeMeans(start, items[..|items| - 1]); }
  }

  /** The message of an item: the last one there is once the item has been read. */
  function PlaceOf(start: seq<Message>, items: seq<Item>, k: nat): int
    requires k < |items|
  {
    Shaped(ShapeOf(start), items[..k + 1]).count - 1
  }

  // ---- what stays ------------------------------------------------------------------------------

  /** What later items may still do to a message: the last one, if it is the assistant's, may get
      more calls, and reasoning if it has none. */
  predicate Grown(m: Message, n: Message) {
    && n == m.(calls := n.calls, reasoning := n.reasoning) && m.calls <= n.calls
    && (m.reasoning != "" ==> n.reasoning == m.reasoning)
    && (m.role != "assistant" ==> n == m)
  }

  predicate AllGrown(a: seq<Message>, b: seq<Message>) {
    |a| <= |b| && forall i :: 0 <= i < |a| ==> Grown(a[i], b[i])
  }

  lemma StepGrows(b: Built, item: Item)
    ensures AllGrown(b.messages, Step(b, item).messages)
  {
  }

  lemma {:induction false} BuildGrows(start: seq<Message>, items: seq<Item>, n: nat)
    requires n <= |items|
    ensures AllGrown(Build(start, items[..n]).messages, Build(start, items).messages)
    decreases |items|
  {
    if n == |items| {
      assert items[..n] == items;
    } else {
      var m := |items| - 1;
      BuildGrows(start, items[..m], n);
      assert items[..m][..n] == items[..n];
      StepGrows(Build(start, items[..m]), items[m]);
      GrownOnce(Build(start, items[..n]).messages, Build(start, items[..m]).messages, Build(start, items).messages);
      hide AllGrown;
    }
  }

  lemma GrownOnce(a: seq<Message>, b: seq<Message>, c: seq<Message>)
    requires AllGrown(a, b) && AllGrown(b, c)
    ensures AllGrown(a, c)
  {
    forall i | 0 <= i < |a| ensures Grown(a[i], c[i]) { assert Grown(a[i], b[i]) && Grown(b[i], c[i]); }
  }

  /** An output is a tool reply to its call; a message keeps its role and its words. */
  lemma SpokenPlaced(start: seq<Message>, items: seq<Item>, k: nat)
    requires k < |items| && (items[k].Output? || items[k].Says?)
    ensures var final, p := Build(start, items).messages, PlaceOf(start, items, k);
            && 0 <= p < |final|
            && (items[k].Output? ==> final[p] == Message("tool", items[k].content, [], items[k].callId, ""))
            && (items[k].Says? ==> final[p].role == items[k].role && final[p].content == items[k].content && final[p].replyTo == "")
  {
    var now, p := Build(start, items[..k + 1]), PlaceOf(start, items, k);
    assert items[..k + 1][..k] == items[..k];
    ShapeMeans(start, items[..k + 1]);
    BuildGrows(start, items, k + 1);
    var m := now.messages[p];
    assert items[k].Output? ==> m == Message("tool", items[k].content, [], items[k].callId, "");
    assert items[k].Says? ==> m == Message(items[k].role, items[k].content, [], "", "");
    hide Build, Shaped;
    assert Grown(m, Build(start, items).messages[p]);
  }

  // ---- reasoning -------------------------------------------------------------------------------

  /** An item that reasoning outlives: more thinking without text, nothing at all, or an assistant
      message. Calls, outputs, other messages and skipped items all end it. */
  predicate Outlived(item: Item) {
    (item.Thought? && item.text == "") || item.Nothing? || (item.Says? && item.role == "assistant")
  }

  /** The reasoning of item i still waits at the end of the items. */
  predicate Waits(items: seq<Item>, i: nat) {
    i < |items| && items[i].Thought? && items[i].text != "" && forall j :: i < j < |items| ==> Outlived(items[j])
  }

  /** What waits for a call is the reasoning that nothing has ended. */
  lemma {:induction false} PendingMeans(start: seq<Message>, items: seq<Item>)
    ensures var p := Build(start, items).pending;
            && (forall i: nat :: Waits(items, i) ==> p == items[i].text)
            && (p != "" ==> exists i: nat :: Waits(items, i))
  {
    if items != [] {
      var n := |items| - 1;
      PendingMeans(start, items[..n]);
      forall i: nat | i < n ensures Waits(items, i) <==> Waits(items[..n], i) && Outlived(items[n]) {
        assert forall j :: i < j < n ==> items[..n][j] == items[j];
      }
      var p := Build(start, items).pending;
      if p != "" {
        if items[n].Thought? && items[n].text != "" {
          assert Waits(items, n);
        } else {
          var i: nat :| Waits(items[..n], i);
          assert Waits(items, i);
        }
      }
    }
  }

  /** A call is in the message at its place. That message keeps the reasoning it had before the
      call; if it had none, it takes the reasoning that waited for the call. */
  lemma CallCarries(start: seq<Message>, items: seq<Item>, k: nat)
    requires k < |items| && items[k].Calls?
    ensures var before, final, p := Build(start, items[..k]), Build(start, items).messages, PlaceOf(start, items, k);
            && 0 <= p < |final| && final[p].role == "assistant" && items[k].call in final[p].calls
            && var had := if p < |before.messages| then before.messages[p].reasoning else "";
               && (had != "" ==> final[p].reasoning == had)
               && (had == "" && before.pending != "" ==> final[p].reasoning == before.pending)
  {
    var before, now, p := Build(start, items[..k]), Build(start, items[..k + 1]), PlaceOf(start, items, k);
    assert items[..k + 1][..k] == items[..k];
    ShapeMeans(start, items[..k + 1]);
    BuildGrows(start, items, k + 1);
    var m := now.messages[p];
    assert now == Step(before, Calls(items[k].call));
    assert m.calls != [] && m.calls[|m.calls| - 1] == items[k].call;
    hide Build, Shaped;
    assert Grown(m, Build(start, items).messages[p]);
  }

  lemma StepReasoning(b: Built, item: Item, p: nat)
    requires p < |Step(b, item).messages|
    ensures var t := Step(b, item).messages;
            || (p < |b.messages| && t[p].reasoning == b.messages[p].reasoning) || t[p].reasoning == ""
            || (item.Calls? && p == |t| - 1 && t[p].reasoning == b.pending)
  {
  }

  /** No message is given reasoning in any other way: what one has, it had at the start, or it is
      the reasoning that waited for one of its calls. */
  lemma {:induction false} ReasoningOnlyFromCalls(start: seq<Message>, items: seq<Item>, p: nat)
    requires p < |Build(start, items).messages|
    ensures var r := Build(start, items).messages[p].reasoning;
            || r == "" || (p < |start| && start[p].reasoning == r)
            || exists k :: 0 <= k < |items| && items[k].Calls? && PlaceOf(start, items, k) == p && Build(start, items[..k]).pending == r
  {
    if items != [] {
      hide Step, Shaped;
      var n, before := |items| - 1, items[..|items| - 1];
      StepReasoning(Build(start, before), items[n], p);
      var b, r := Build(start, before), Build(start, items).messages[p].reasoning;
      ShapeMeans(start, items);
      assert items[..n + 1] == items;
      if p < |b.messages| && r == b.messages[p].reasoning {
        ReasoningOnlyFromCalls(start, before, p);
        if k :| 0 <= k < n && before[k].Calls? && PlaceOf(start, before, k) == p && Build(start, before[..k]).pending == r {
          assert before[..k + 1] == items[..k + 1] && before[..k] == items[..k] && items[k].Calls?;
        }
      } else if r != "" {
        assert items[n].Calls? && PlaceOf(start, items, n) == p && b.pending == r;
      }
    }
  }
}
