/** The Responses API event builder: inference events in, item lifecycle events and a final output list out. */
module Responses {
  import opened Wrappers
  import opened Json
  import opened ChatModel

  // ---------------------------------------------------------------- identities

  /** A value handed out by the process-wide item counter. */
  type Ticket = n: int | 0 <= n < 0x1_0000_0000_0000_0000 witness 0

  const HEX_DIGITS: string := "0123456789abcdef"

  function Hex(n: nat, width: nat): (s: string)
    ensures |s| == width
  {
    if width == 0 then "" else Hex(n / 16, width - 1) + [HEX_DIGITS[n % 16]]
  }

  /** An item identity, kept structured; `Text` is its spelling on the wire. */
  datatype ItemId = ItemId(prefix: string, number: Ticket) {
    function Text(): string { prefix + "_" + Hex(number, 16) }
  }

  // ---------------------------------------------------------------- output items

  datatype Status = InProgress | Completed {
    function Text(): string { if InProgress? then "in_progress" else "completed" }
  }

  datatype Item =
    | MessageItem(id: ItemId, status: Status, text: string)
    | ReasoningItem(id: ItemId, status: Status, text: string)
    | FunctionItem(id: ItemId, callId: string, name: string, arguments: string, status: Status)
  {
    /** The item as the JSON object that clients receive and may send back as history. */
    function Json(): Value {
      match this
      case MessageItem(id, status, text) =>
        Obj(map[
          "id" := Str(id.Text()), "type" := Str("message"), "status" := Str(status.Text()), "role" := Str("assistant"),
          "content" := Arr(if status.InProgress? then [] else [OutputText(text)])])
      case ReasoningItem(id, status, text) =>
        Obj(map[
          "id" := Str(id.Text()), "type" := Str("reasoning"), "status" := Str(status.Text()),
          "summary" := Arr(if status.InProgress? then [] else [ReasoningSummary(text)]),
          "content" := Arr([]), "encrypted_content" := Null])
      case FunctionItem(id, callId, name, arguments, status) =>
        Obj(map[
          "id" := Str(id.Text()), "type" := Str("function_call"), "status" := Str(status.Text()),
              "call_id" := Str(callId),
          "name" := Str(name), "arguments" := Str(arguments)])
    }

    /** The text a finished item shows its reader. */
    function Shown(): string { if FunctionItem? then arguments else text }
  }

  function OutputText(text: string): Value {
    Obj(map["type" := Str("output_text"), "text" := Str(text), "annotations" := Arr([]), "logprobs" := Arr([])])
  }

  function ReasoningSummary(text: string): Value {
    Obj(map["type" := Str("summary_text"), "text" := Str(text)])
  }

  function CallItem(codec: Codec, id: ItemId, call: ToolCall): Item {
    FunctionItem(id, call.id, call.name, codec.write(Obj(call.arguments)), Status.Completed)
  }

  /** The output list of a response body. */
  function OutputJson(items: seq<Item>): seq<Value> {
    if items == [] then [] else OutputJson(items[..|items| - 1]) + [items[|items| - 1].Json()]
  }

  // ---------------------------------------------------------------- streamed events

  datatype Header = Header(id: string, model: string, createdAt: nat, parallelToolCalls: bool)

  datatype Response = Response(
    header: Header, status: string, incompleteReason: Option<string>, output: seq<Item>, usage: Option<Usage>)

  /** One constructor per `type` tag of the streamed event objects; a part event carries the part's text. */
  datatype StreamEvent =
    | Created(response: Response)
    | ItemAdded(index: nat, item: Item)
    | ReasoningPartAdded(id: ItemId, index: nat, text: string)
    | ReasoningDelta(id: ItemId, index: nat, delta: string)
    | ReasoningTextDone(id: ItemId, index: nat, text: string)
    | ReasoningPartDone(id: ItemId, index: nat, text: string)
    | ContentPartAdded(id: ItemId, index: nat, text: string)
    | TextDelta(id: ItemId, index: nat, delta: string)
    | TextDone(id: ItemId, index: nat, text: string)
    | ContentPartDone(id: ItemId, index: nat, text: string)
    | ArgumentsDelta(id: ItemId, index: nat, delta: string)
    | ArgumentsDone(id: ItemId, index: nat, name: string, arguments: string)
    | ItemDone(index: nat, item: Item)
    | ResponseCompleted(response: Response)
    | ResponseIncomplete(response: Response)
    | Failed(message: string)

  // ---------------------------------------------------------------- the state machine on values

  datatype OpenItem = OpenItem(id: ItemId, index: nat, text: string)

  datatype Stream = Stream(output: seq<Item>, reasoning: Option<OpenItem>, text: Option<OpenItem>, completed: bool)

  const FRESH := Stream([], None, None, false)

  datatype Emit = Emit(stream: Stream, events: seq<StreamEvent>) {
    /** Runs another step from where this one ended, after its events. */
    function Then(next: Emit): Emit { Emit(next.stream, events + next.events) }
  }

  function PushReasoning(s: Stream, delta: string, id: ItemId): Emit {
    if delta == "" then Emit(s, [])
    else if s.reasoning.None? then
      var index := |s.output|;
      Emit(s.(reasoning := Some(OpenItem(id, index, delta))),
           [ItemAdded(index, ReasoningItem(id, InProgress, "")),
            ReasoningPartAdded(id, index, ""),
            ReasoningDelta(id, index, delta)])
    else
      var r := s.reasoning.value;
      Emit(s.(reasoning := Some(r.(text := r.text + delta))), [ReasoningDelta(r.id, r.index, delta)])
  }

  function CloseReasoning(s: Stream): Emit {
    if s.reasoning.None? then Emit(s, [])
    else
      var r := s.reasoning.value;
      var item := ReasoningItem(r.id, Status.Completed, r.text);
      Emit(s.(reasoning := None, output := s.output + [item]),
           [ReasoningTextDone(r.id, r.index, r.text),
            ReasoningPartDone(r.id, r.index, r.text),
            ItemDone(r.index, item)])
  }

  function PushText(s: Stream, delta: string, id: ItemId): Emit {
    if delta == "" then Emit(s, [])
    else if s.text.None? then
      var index := |s.output|;
      Emit(s.(text := Some(OpenItem(id, index, delta))),
           [ItemAdded(index, MessageItem(id, InProgress, "")),
            ContentPartAdded(id, index, ""),
            TextDelta(id, index, delta)])
    else
      var t := s.text.value;
      Emit(s.(text := Some(t.(text := t.text + delta))), [TextDelta(t.id, t.index, delta)])
  }

  function CloseText(s: Stream): Emit {
    if s.text.None? then Emit(s, [])
    else
      var t := s.text.value;
      var item := MessageItem(t.id, Status.Completed, t.text);
      Emit(s.(text := None, output := s.output + [item]),
           [TextDone(t.id, t.index, t.text),
            ContentPartDone(t.id, t.index, t.text),
            ItemDone(t.index, item)])
  }

  /** Closes whatever is open, reasoning first. */
  function CloseAll(s: Stream): Emit {
    var e := CloseReasoning(s);
    e.Then(CloseText(e.stream))
  }

  function AddCall(codec: Codec, s: Stream, call: ToolCall, id: ItemId): Emit {
    var index := |s.output|;
    var arguments := codec.write(Obj(call.arguments));
    var item := CallItem(codec, id, call);
    Emit(s.(output := s.output + [item]),
         [ItemAdded(index, FunctionItem(id, call.id, call.name, "", InProgress)),
          ArgumentsDelta(id, index, arguments),
          ArgumentsDone(id, index, call.name, arguments),
          ItemDone(index, item)])
  }

  function PushTool(codec: Codec, s: Stream, call: ToolCall, id: ItemId): Emit {
    var e := CloseAll(s);
    e.Then(AddCall(codec, e.stream, call, id))
  }

  function EndEvent(header: Header, output: seq<Item>, reason: FinishReason, usage: Usage): StreamEvent {
    if reason.Length?
    then ResponseIncomplete(Response(header, "incomplete", Some("max_output_tokens"), output, Some(usage)))
    else ResponseCompleted(Response(header, "completed", None, output, Some(usage)))
  }

  function Finish(header: Header, s: Stream, reason: FinishReason, usage: Usage): Emit {
    var e := CloseAll(s);
    Emit(e.stream.(completed := true), e.events + [EndEvent(header, e.stream.output, reason, usage)])
  }

  function PushOutput(codec: Codec, s: Stream, out: OutputEvent, ticket: Ticket): Emit {
    match out
    case Reasoning(delta) => PushReasoning(s, delta, ItemId("rs", ticket))
    case Text(delta) => var e := CloseReasoning(s); e.Then(PushText(e.stream, delta, ItemId("msg", ticket)))
    case Call(call) => PushTool(codec, s, call, ItemId("fc", ticket))
  }

  function Push(codec: Codec, header: Header, s: Stream, inference: InferenceEvent, ticket: Ticket): Emit {
    match inference
    case Output(out) => PushOutput(codec, s, out, ticket)
    case Finished(reason, usage) => Finish(header, s, reason, usage)
    case Error(message) => Emit(s.(completed := true), [Failed(message)])
  }

  // ---------------------------------------------------------------- the object

  class ResponseStream {
    const codec: Codec
    const header: Header
    var output: seq<Item>
    var reasoning: Option<OpenItem>
    var text: Option<OpenItem>
    var completed: bool

    ghost function State(): Stream
      reads this
    {
      Stream(output, reasoning, text, completed)
    }

    constructor (codec: Codec, header: Header)
      ensures this.codec == codec && this.header == header && State() == FRESH
    {
      this.codec, this.header := codec, header;
      output, reasoning, text, completed := [], None, None, false;
    }

    method ReasoningStep(delta: string, ticket: Ticket) returns (events: seq<StreamEvent>)
      modifies this
      ensures Emit(State(), events) == PushReasoning(old(State()), delta, ItemId("rs", ticket))
    {
      if delta == "" { return []; }
      events := [];
      if reasoning.None? {
        var id, index := ItemId("rs", ticket), |output|;
        events := [ItemAdded(index, ReasoningItem(id, InProgress, "")),
                   ReasoningPartAdded(id, index, "")];
        reasoning := Some(OpenItem(id, index, ""));
      }
      var item := reasoning.value;
      reasoning := Some(item.(text := item.text + delta));
      assert item.text == "" ==> item.text + delta == delta;
      events := events + [ReasoningDelta(item.id, item.index, delta)];
    }

    method EndReasoning() returns (events: seq<StreamEvent>)
      modifies this
      ensures Emit(State(), events) == CloseReasoning(old(State()))
    {
      if reasoning.None? { return []; }
      var r := reasoning.value;
      reasoning := None;
      var item := ReasoningItem(r.id, Status.Completed, r.text);
      output := output + [item];
      events := [ReasoningTextDone(r.id, r.index, r.text),
                 ReasoningPartDone(r.id, r.index, r.text),
                 ItemDone(r.index, item)];
    }

    method TextStep(delta: string, ticket: Ticket) returns (events: seq<StreamEvent>)
      modifies this
      ensures Emit(State(), events) == PushText(old(State()), delta, ItemId("msg", ticket))
    {
      if delta == "" { return []; }
      events := [];
      if text.None? {
        var id, index := ItemId("msg", ticket), |output|;
        events := [ItemAdded(index, MessageItem(id, InProgress, "")),
                   ContentPartAdded(id, index, "")];
        text := Some(OpenItem(id, index, ""));
      }
      var item := text.value;
      text := Some(item.(text := item.text + delta));
      assert item.text == "" ==> item.text + delta == delta;
      events := events + [TextDelta(item.id, item.index, delta)];
    }

    method EndText() returns (events: seq<StreamEvent>)
      modifies this
      ensures Emit(State(), events) == CloseText(old(State()))
    {
      if text.None? { return []; }
      var t := text.value;
      text := None;
      var item := MessageItem(t.id, Status.Completed, t.text);
      output := output + [item];
      events := [TextDone(t.id, t.index, t.text),
                 ContentPartDone(t.id, t.index, t.text),
                 ItemDone(t.index, item)];
    }

    method ToolStep(call: ToolCall, ticket: Ticket) returns (events: seq<StreamEvent>)
      modifies this
      ensures Emit(State(), events) == PushTool(codec, old(State()), call, ItemId("fc", ticket))
    {
      events := EndReasoning();
      var closing := EndText();
      events := events + closing;
      var id, index := ItemId("fc", ticket), |output|;
      var arguments := codec.write(Obj(call.arguments));
      var inProgress := FunctionItem(id, call.id, call.name, "", InProgress);
      var done := FunctionItem(id, call.id, call.name, arguments, Status.Completed);
      events := events + [ItemAdded(index, inProgress), ArgumentsDelta(id, index, arguments),
                          ArgumentsDone(id, index, call.name, arguments), ItemDone(index, done)];
      output := output + [done];
    }

    method FinishStep(reason: FinishReason, usage: Usage) returns (events: seq<StreamEvent>)
      modifies this
      ensures Emit(State(), events) == Finish(header, old(State()), reason, usage)
    {
      events := EndReasoning();
      var closing := EndText();
      events := events + closing;
      completed := true;
      events := events + [EndEvent(header, output, reason, usage)];
    }

    method PushEvent(inference: InferenceEvent, ticket: Ticket) returns (events: seq<StreamEvent>)
      modifies this
      ensures Emit(State(), events) == Push(codec, header, old(State()), inference, ticket)
    {
      match inference {
        case Output(Reasoning(delta)) => events := ReasoningStep(delta, ticket);
        case Output(Text(delta)) =>
          events := EndReasoning();
          var more := TextStep(delta, ticket);
          events := events + more;
        case Output(Call(call)) => events := ToolStep(call, ticket);
        case Finished(reason, usage) => events := FinishStep(reason, usage);
        case Error(message) =>
          completed := true;
          events := [Failed(message)];
      }
    }
  }
}
