/** The Responses event stream: the protocol every chat translator reads or writes. */
module ResponsesEvents {
  import opened Text
  import Sse

  /** An identifier supplied by the upstream, drawn at random by the gateway (a fresh
      serial stands for the random draw), or absent. */
  datatype Id = NoId | Given(text: string) | Fresh(serial: nat)

  /** `Absent` is the kind of an event that carries no item at all. */
  datatype ItemKind = Reasoning | Message | FunctionCall | CustomToolCall | WebSearchCall | OtherKind | Absent

  datatype Item = Item(kind: ItemKind, id: Id, callId: Id, name: string, args: string, text: string, completed: bool)

  /** Response status; `Incomplete(true)` is an answer cut at max_output_tokens. */
  datatype Status = InProgress | Completed | Incomplete(maxTokens: bool) | Failed | OtherStatus

  datatype Body =
    | Created
    | ItemAdded(index: int, item: Item)
    | SummaryPartAdded(index: int, itemId: Id)
    | ReasoningDelta(index: int, itemId: Id, delta: string)
    | SummaryTextDone(index: int, itemId: Id, text: string)
    | SummaryPartDone(index: int, itemId: Id, text: string)
    | PartAdded(index: int, itemId: Id)
    | TextDelta(index: int, itemId: Id, delta: string)
    | TextDone(index: int, itemId: Id, text: string)
    | PartDone(index: int, itemId: Id, text: string)
    | ArgsDelta(index: int, itemId: Id, delta: string, callId: Id, name: string)
    | ArgsDone(index: int, itemId: Id, callId: Id, name: string, args: string)
    | ItemDone(index: int, item: Item)
    | Terminal(status: Option<Status>, output: seq<Item>)
    | OtherEvent

  datatype Event = Event(seqNo: nat, body: Body)

  function ReasoningItem(id: Id, text: string, completed: bool): Item {
    Item(Reasoning, id, NoId, "", "", text, completed)
  }

  function MessageItem(id: Id, text: string, completed: bool): Item {
    Item(Message, id, NoId, "", "", text, completed)
  }

  function CallItem(id: Id, callId: Id, name: string, args: string, completed: bool): Item {
    Item(FunctionCall, id, callId, name, args, "", completed)
  }

  type Decoder = string -> Option<Event>

  /** The events of the lines; a line that cannot be decoded is passed over. */
  function Events(decode: Decoder, lines: seq<string>): seq<Event> {
    if lines == [] then [] else
    var before, data := Events(decode, lines[..|lines| - 1]), Sse.Data(lines[|lines| - 1]);
    if data.None? || decode(data.value).None? then before else before + [decode(data.value).value]
  }
}
