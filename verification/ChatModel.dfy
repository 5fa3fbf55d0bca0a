/** Chat messages and inference events shared by both HTTP APIs. */
module ChatModel {
  import opened Wrappers
  import opened Json

  datatype Role = System | Developer | User | Assistant | Tool

  datatype ToolCall = ToolCall(id: string, name: string, arguments: map<string, Value>)

  datatype Message = Message(
    role: Role,
    content: Option<string>,
    reasoning: Option<string>,
    toolCalls: seq<ToolCall>,
    toolCallId: Option<string>)

  function TextMessage(role: Role, content: string): Message {
    Message(role, Some(content), None, [], None)
  }

  function ToolMessage(callId: string, content: string): Message {
    Message(Tool, Some(content), None, [], Some(callId))
  }

  function AssistantMessage(content: Option<string>, reasoning: Option<string>, calls: seq<ToolCall>): Message {
    Message(Assistant, content, reasoning, calls, None)
  }

  datatype OutputEvent = Reasoning(delta: string) | Text(delta: string) | Call(call: ToolCall)

  datatype FinishReason = Eos | Length | Stop(sequence: string) | ToolCalls

  datatype Usage = Usage(
    promptTokens: nat, cachedPromptTokens: nat, completionTokens: nat, reasoningTokens: nat)

  datatype InferenceEvent =
    | Output(event: OutputEvent)
    | Finished(reason: FinishReason, usage: Usage)
    | Error(message: string)
  {
    predicate Terminal() { !Output? }
  }

  // What a sequence of output events says: its text, its reasoning and its calls, each in order.

  function TextOf(outs: seq<OutputEvent>): string {
    if outs == [] then ""
    else
      var front, last := outs[..|outs| - 1], outs[|outs| - 1];
      TextOf(front) + (if last.Text? then last.delta else "")
  }

  function ReasoningOf(outs: seq<OutputEvent>): string {
    if outs == [] then ""
    else
      var front, last := outs[..|outs| - 1], outs[|outs| - 1];
      ReasoningOf(front) + (if last.Reasoning? then last.delta else "")
  }

  function CallsOf(outs: seq<OutputEvent>): seq<ToolCall> {
    if outs == [] then []
    else
      var front, last := outs[..|outs| - 1], outs[|outs| - 1];
      CallsOf(front) + (if last.Call? then [last.call] else [])
  }

  /** The assistant turn that says exactly this, or none when there is nothing to say. */
  function Turn(text: string, reasoning: string, calls: seq<ToolCall>): Option<Message> {
    if text == "" && reasoning == "" && calls == [] then None
    else Some(AssistantMessage(NonEmpty(text), NonEmpty(reasoning), calls))
  }

  function NonEmpty(text: string): Option<string> {
    if text == "" then None else Some(text)
  }

  // Tool calls on the wire: the arguments travel as JSON text.

  datatype WireCall = WireCall(id: string, name: string, arguments: string)

  function Wire(codec: Codec, call: ToolCall): WireCall {
    WireCall(call.id, call.name, codec.write(Obj(call.arguments)))
  }

  function WireAll(codec: Codec, calls: seq<ToolCall>): (wires: seq<WireCall>)
    ensures |wires| == |calls| && forall i :: 0 <= i < |calls| ==> wires[i] == Wire(codec, calls[i])
  {
    if calls == [] then [] else WireAll(codec, calls[..|calls| - 1]) + [Wire(codec, calls[|calls| - 1])]
  }

  /** Reads calls back; fails with the name of the first call whose arguments are not a JSON object. */
  function ReadCalls(codec: Codec, wires: seq<WireCall>): Result<seq<ToolCall>, string> {
    if wires == [] then Ok([])
    else
      var last := wires[|wires| - 1];
      var front :- ReadCalls(codec, wires[..|wires| - 1]);
      match codec.readObject(last.arguments)
      case Some(arguments) => Ok(front + [ToolCall(last.id, last.name, arguments)])
      case None => Err(last.name)
  }

  lemma SameSnoc<T>(a: seq<T>, x: T, b: seq<T>, y: T)
    ensures a + [x] == b + [y] <==> a == b && x == y
  {
    if a + [x] == b + [y] {
      assert a == (a + [x])[..|a + [x]| - 1] == (b + [y])[..|b + [y]| - 1] == b;
      assert x == (a + [x])[|a|] == (b + [y])[|b|] == y;
    }
  }

  lemma NoCalls(codec: Codec)
    ensures ReadCalls(codec, WireAll(codec, [])) == Ok([])
  {
  }

  lemma WireSplits(codec: Codec, calls: seq<ToolCall>)
    requires calls != []
    ensures
      var front, last := WireAll(codec, calls[..|calls| - 1]), Wire(codec, calls[|calls| - 1]);
      && WireAll(codec, calls) == front + [last] && (front + [last])[..|calls| - 1] == front
  {
  }

  lemma ReadSplits(codec: Codec, front: seq<WireCall>, last: WireCall)
    ensures
      ReadCalls(codec, front + [last]) ==
        var read := ReadCalls(codec, front);
        if read.Err? then read
        else
          match codec.readObject(last.arguments)
          case Some(arguments) => Ok(read.value + [ToolCall(last.id, last.name, arguments)])
          case None => Err(last.name)
  {
    assert (front + [last])[..|front|] == front;
  }

  lemma {:induction false} ReadLength(codec: Codec, wires: seq<WireCall>)
    requires ReadCalls(codec, wires).Ok?
    ensures |ReadCalls(codec, wires).value| == |wires|
  {
    if wires != [] { ReadLength(codec, wires[..|wires| - 1]); }
  }

  /** Calls survive the wire exactly when the text library round-trips each of their argument maps. */
  lemma {:induction false} CallsSurvive(codec: Codec, calls: seq<ToolCall>)
    ensures ReadCalls(codec, WireAll(codec, calls)) == Ok(calls)
            <==> forall call :: call in calls ==> codec.RoundTrips(call.arguments)
  {
    hide ReadCalls, WireAll;
    if calls == [] {
      NoCalls(codec);
    } else {
      var front, last := calls[..|calls| - 1], calls[|calls| - 1];
      CallsSurvive(codec, front);
      WireSplits(codec, calls);
      ReadSplits(codec, WireAll(codec, front), Wire(codec, last));
      assert calls == front + [last];
      var read := codec.readObject(Wire(codec, last).arguments);
      if ReadCalls(codec, WireAll(codec, front)).Ok? && read.Some? {
        SameSnoc(ReadCalls(codec, WireAll(codec, front)).value, ToolCall(last.id, last.name, read.value), front, last);
      }
      assert (forall call :: call in calls ==> codec.RoundTrips(call.arguments))
          <==> (forall call :: call in front ==> codec.RoundTrips(call.arguments)) && codec.RoundTrips(last.arguments);
    }
  }
}
