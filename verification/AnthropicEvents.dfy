/** The Anthropic Messages event stream and the reading of a finished stream. */
module AnthropicEvents {
  import opened ResponsesEvents

  datatype Block =
    | TextBlock
    | ThinkingBlock
    | ToolUseBlock(id: Id, name: string)
    | ServerToolBlock(id: Id)
    | SearchResultBlock(id: Id)

  datatype Delta = TextPiece(text: string) | ThinkingPiece(text: string) | JsonPiece(json: string)

  datatype StopReason = EndTurn | ToolUse | MaxTokens

  datatype ErrorKind = InvalidArguments(tool: string) | ToolsCutShort | Interrupted

  datatype Event =
    | MessageStart
    | BlockStart(index: nat, block: Block)
    | BlockDelta(index: nat, delta: Delta)
    | BlockStop(index: nat)
    | MessageDelta(stop: StopReason)
    | MessageStop
    | Error(kind: ErrorKind)

  // ---- call identifiers ----------------------------------------------------------------------

  /** An identifier in the legacy form, with `fc_` before one that an Anthropic client knows. */
  predicate Prefixed(id: Id) {
    id.Given? && ("fc_toolu_" <= id.text || "fc_call_" <= id.text)
  }

  /** The identifier under which a client sees a call: unchanged, unless it has the legacy form,
      of which the first three characters are dropped. */
  predicate SameCall(id: Id, shown: Id) {
    if Prefixed(id) then shown.Given? && id.text == "fc_" + shown.text else shown == id
  }

  /** Calls that are told apart upstream are told apart by the client, the legacy form aside. */
  lemma ToldApart(a: Id, b: Id, x: Id, y: Id)
    requires SameCall(a, x) && SameCall(b, y) && a != b && (Prefixed(a) <==> Prefixed(b))
    ensures x != y
  {
  }

  // ---- reading ---------------------------------------------------------------------------------

  /** Reading a stream front to back. `Idle(n)`: n blocks are complete and none is open;
      `Inside(n, b)`: block n is open; `Closing`: the stop reason was given;
      `Broken`: some event was out of place. */
  datatype Phase = Before | Idle(blocks: nat) | Inside(index: nat, block: Block) | Closing | Complete | Failed | Broken

  predicate Fits(b: Block, d: Delta) {
    match d
    case TextPiece(_) => b.TextBlock?
    case ThinkingPiece(_) => b.ThinkingBlock?
    case JsonPiece(_) => b.ToolUseBlock?
  }

  function Read(p: Phase, e: Event): Phase {
    match e
    case MessageStart => if p.Before? then Idle(0) else Broken
    case BlockStart(i, b) => if p == Idle(i) then Inside(i, b) else Broken
    case BlockDelta(i, d) => if p.Inside? && p.index == i && Fits(p.block, d) then p else Broken
    case BlockStop(i) => if p.Inside? && p.index == i then Idle(i + 1) else Broken
    case MessageDelta(_) => if p.Idle? then Closing else Broken
    case MessageStop => if p.Closing? then Complete else Broken
    case Error(_) => if p.Before? || p.Idle? || p.Inside? then Phase.Failed else Broken
  }

  datatype ToolUseCall = ToolUseCall(id: Id, name: string, json: string)

  /** What a reader has gathered: where it stands in the protocol, the visible text, the
      thinking text, and the tool calls in order, each with the text of its JSON pieces. */
  datatype Reading = Reading(phase: Phase, text: string, thinking: string, calls: seq<ToolUseCall>)

  function NextCalls(calls: seq<ToolUseCall>, e: Event): seq<ToolUseCall> {
    if e.BlockStart? && e.block.ToolUseBlock? then calls + [ToolUseCall(e.block.id, e.block.name, "")]
    else if e.BlockDelta? && e.delta.JsonPiece? && calls != []
    then var last := calls[|calls| - 1];
         calls[..|calls| - 1] + [last.(json := last.json + e.delta.json)]
    else calls
  }

  function Next(r: Reading, e: Event): Reading {
    Reading(Read(r.phase, e),
            r.text + if e.BlockDelta? && e.delta.TextPiece? then e.delta.text else "",
            r.thinking + if e.BlockDelta? && e.delta.ThinkingPiece? then e.delta.text else "",
            NextCalls(r.calls, e))
  }

  function ReadAll(out: seq<Event>): Reading {
    if out == [] then Reading(Before, "", "", []) else Next(ReadAll(out[..|out| - 1]), out[|out| - 1])
  }

  lemma ReadOne(out: seq<Event>, e: Event)
    ensures ReadAll(out + [e]) == Next(ReadAll(out), e)
  {
    assert (out + [e])[..|out|] == out;
  }

  /** A stream that is still going holds neither an error nor a stop; one that failed ends
      with its only error and never stops. */
  lemma {:induction false} FailedStream(out: seq<Event>)
    ensures var p := ReadAll(out).phase;
            && (p.Idle? || p.Inside? || p.Before? || p.Closing? ==> forall i :: 0 <= i < |out| ==> !out[i].Error? && !out[i].MessageStop?)
            && (p.Failed? ==> out != [] && out[|out| - 1].Error? && forall i :: 0 <= i < |out| - 1 ==> !out[i].Error? && !out[i].MessageStop?)
            && (p.Complete? ==> out != [] && out[|out| - 1] == MessageStop && forall i :: 0 <= i < |out| - 1 ==> !out[i].Error? && !out[i].MessageStop?)
  {
    if out != [] {
      FailedStream(out[..|out| - 1]);
      assert forall i :: 0 <= i < |out| - 1 ==> out[i] == out[..|out| - 1][i];
    }
  }
}
