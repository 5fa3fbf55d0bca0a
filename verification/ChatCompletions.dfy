/** The Chat Completions rendering of the same inference events, streamed and whole. */
module ChatCompletions {
  import opened Wrappers
  import opened Json
  import opened ChatModel

  // ---------------------------------------------------------------- chunks

  datatype Delta =
    | Opening
    | ContentDelta(content: string)
    | ReasoningDelta(reasoning: string)
    | ToolDelta(index: nat, call: WireCall)
    | Nothing

  /** `nullUsage` marks chunks that carry a null usage member because usage was asked for. */
  datatype Chunk =
    | Choice(delta: Delta, finish: Option<string>, nullUsage: bool)
    | UsageReport(usage: Usage)
    | Failure(message: string)

  datatype State = State(
    content: string, reasoning: string, toolCalls: seq<ToolCall>,
    finished: Option<(FinishReason, Usage)>, error: Option<string>)
  {
    predicate Completed() { finished.Some? || error.Some? }
  }

  const FRESH := State("", "", [], None, None)

  function ReasonName(reason: FinishReason): string {
    match reason
    case Eos => "stop"
    case Stop(_) => "stop"
    case Length => "length"
    case ToolCalls => "tool_calls"
  }

  datatype Emit = Emit(state: State, chunks: seq<Chunk>)

  function Push(codec: Codec, includeUsage: bool, s: State, inference: InferenceEvent): Emit {
    match inference
    case Output(Reasoning(delta)) =>
      if delta == "" then Emit(s, [])
      else Emit(s.(reasoning := s.reasoning + delta), [Choice(ReasoningDelta(delta), None, includeUsage)])
    case Output(Text(delta)) =>
      if delta == "" then Emit(s, [])
      else Emit(s.(content := s.content + delta), [Choice(ContentDelta(delta), None, includeUsage)])
    case Output(Call(call)) =>
      Emit(s.(toolCalls := s.toolCalls + [call]),
           [Choice(ToolDelta(|s.toolCalls|, Wire(codec, call)), None, includeUsage)])
    case Finished(reason, usage) =>
      Emit(s.(finished := Some((reason, usage))),
           [Choice(Nothing, Some(ReasonName(reason)), includeUsage)]
               + (if includeUsage then [UsageReport(usage)] else []))
    case Error(message) =>
      Emit(s.(error := Some(message)), [Failure(message)])
  }

  class ChatCompletionStream {
    const codec: Codec
    const includeUsage: bool
    var content: string
    var reasoning: string
    var toolCalls: seq<ToolCall>
    var finished: Option<(FinishReason, Usage)>
    var error: Option<string>

    ghost function Now(): State
      reads this
    {
      State(content, reasoning, toolCalls, finished, error)
    }

    constructor (codec: Codec, includeUsage: bool)
      ensures this.codec == codec && this.includeUsage == includeUsage && Now() == FRESH
    {
      this.codec, this.includeUsage := codec, includeUsage;
      content, reasoning, toolCalls, finished, error := "", "", [], None, None;
    }

    method PushEvent(inference: InferenceEvent) returns (chunks: seq<Chunk>)
      modifies this
      ensures Emit(Now(), chunks) == Push(codec, includeUsage, old(Now()), inference)
    {
      match inference {
        case Output(Reasoning(delta)) =>
          if delta == "" { return []; }
          reasoning := reasoning + delta;
          chunks := [Choice(ReasoningDelta(delta), None, includeUsage)];
        case Output(Text(delta)) =>
          if delta == "" { return []; }
          content := content + delta;
          chunks := [Choice(ContentDelta(delta), None, includeUsage)];
        case Output(Call(call)) =>
          var index := |toolCalls|;
          toolCalls := toolCalls + [call];
          chunks := [Choice(ToolDelta(index, Wire(codec, call)), None, includeUsage)];
        case Finished(reason, usage) =>
          finished := Some((reason, usage));
          chunks := [Choice(Nothing, Some(ReasonName(reason)), includeUsage)];
          if includeUsage { chunks := chunks + [UsageReport(usage)]; }
        case Error(message) =>
          error := Some(message);
          chunks := [Failure(message)];
      }
    }
  }

  // ---------------------------------------------------------------- whole streams

  function Run(codec: Codec, includeUsage: bool, outs: seq<OutputEvent>): Emit {
    if outs == [] then Emit(FRESH, [Choice(Opening, None, includeUsage)])
    else
      var before := Run(codec, includeUsage, outs[..|outs| - 1]);
      var next := Push(codec, includeUsage, before.state, Output(outs[|outs| - 1]));
      Emit(next.state, before.chunks + next.chunks)
  }

  function RunToEnd(codec: Codec, includeUsage: bool, outs: seq<OutputEvent>, reason: FinishReason,
      usage: Usage): Emit
  {
    var before := Run(codec, includeUsage, outs);
    var next := Push(codec, includeUsage, before.state, Finished(reason, usage));
    Emit(next.state, before.chunks + next.chunks)
  }

  /** What a client holds after folding chunks: text and reasoning concatenated, calls placed by index. */
  datatype Folded = Folded(
    content: string, reasoning: string, calls: map<nat, WireCall>, finish: Option<string>, usage: Option<Usage>)

  function FoldChunk(f: Folded, c: Chunk): Folded {
    match c
    case Choice(delta, finish, _) =>
      var g := if finish.Some? then f.(finish := finish) else f;
      (match delta
       case ContentDelta(text) => g.(content := g.content + text)
       case ReasoningDelta(text) => g.(reasoning := g.reasoning + text)
       case ToolDelta(index, call) => g.(calls := g.calls[index := call])
       case _ => g)
    case UsageReport(usage) => f.(usage := Some(usage))
    case Failure(_) => f
  }

  function Fold(chunks: seq<Chunk>): Folded {
    if chunks == [] then Folded("", "", map[], None, None)
    else FoldChunk(Fold(chunks[..|chunks| - 1]), chunks[|chunks| - 1])
  }

  function Placed(wires: seq<WireCall>): map<nat, WireCall> {
    map i: nat | i < |wires| :: wires[i]
  }

  lemma FoldOne(chunks: seq<Chunk>, c: Chunk)
    ensures Fold(chunks + [c]) == FoldChunk(Fold(chunks), c)
  {
    assert (chunks + [c])[..|chunks|] == chunks;
  }

  lemma PlacedGrows(wires: seq<WireCall>, wire: WireCall)
    ensures Placed(wires)[|wires| := wire] == Placed(wires + [wire])
  {
  }

  /** The client's fold holds the same turn as the server's accumulator. */
  predicate Agrees(codec: Codec, s: State, f: Folded) {
    f == Folded(s.content, s.reasoning, Placed(WireAll(codec, s.toolCalls)), None, None)
  }

  lemma AgreesCall(codec: Codec, includeUsage: bool, s: State, chunks: seq<Chunk>, call: ToolCall)
    requires Agrees(codec, s, Fold(chunks))
    ensures
      var e := Push(codec, includeUsage, s, Output(Call(call)));
      Agrees(codec, e.state, Fold(chunks + e.chunks))
  {
    hide WireAll, Wire, Placed, Fold;
    FoldOne(chunks, Choice(ToolDelta(|s.toolCalls|, Wire(codec, call)), None, includeUsage));
    OneMoreCall(codec, s.toolCalls, call);
  }

  lemma OneMoreCall(codec: Codec, calls: seq<ToolCall>, call: ToolCall)
    ensures
      Placed(WireAll(codec, calls + [call])) == Placed(WireAll(codec, calls))[|calls| := Wire(codec, call)]
  {
    hide Wire, Placed;
    assert (calls + [call])[..|calls|] == calls;
    WireSplits(codec, calls + [call]);
    PlacedGrows(WireAll(codec, calls), Wire(codec, call));
  }

  lemma AgreesStep(codec: Codec, includeUsage: bool, s: State, chunks: seq<Chunk>, out: OutputEvent)
    requires Agrees(codec, s, Fold(chunks))
    ensures var e := Push(codec, includeUsage, s, Output(out)); Agrees(codec, e.state, Fold(chunks + e.chunks))
  {
    if out.Call? {
      AgreesCall(codec, includeUsage, s, chunks, out.call);
    } else {
      AgreesDelta(codec, includeUsage, s, chunks, out);
    }
  }

  lemma AgreesDelta(codec: Codec, includeUsage: bool, s: State, chunks: seq<Chunk>, out: OutputEvent)
    requires Agrees(codec, s, Fold(chunks)) && !out.Call?
    ensures var e := Push(codec, includeUsage, s, Output(out)); Agrees(codec, e.state, Fold(chunks + e.chunks))
  {
    hide WireAll, Placed, Fold;
    if out.delta == "" {
      assert chunks + [] == chunks;
    } else {
      FoldOne(chunks,
          Choice(if out.Text? then ContentDelta(out.delta) else ReasoningDelta(out.delta), None, includeUsage));
    }
  }

  /** The accumulator holds the text, reasoning and calls of all events so far, in order. */
  lemma {:induction false} StateFollows(codec: Codec, includeUsage: bool, outs: seq<OutputEvent>)
    ensures Run(codec, includeUsage, outs).state == State(TextOf(outs), ReasoningOf(outs), CallsOf(outs), None, None)
  {
    if outs != [] {
      var front, last := outs[..|outs| - 1], outs[|outs| - 1];
      StateFollows(codec, includeUsage, front);
      assert TextOf(front) + "" == TextOf(front) && ReasoningOf(front) + "" == ReasoningOf(front);
      assert CallsOf(front) + [] == CallsOf(front);
    }
  }

  lemma {:induction false} FoldFollows(codec: Codec, includeUsage: bool, outs: seq<OutputEvent>)
    ensures var e := Run(codec, includeUsage, outs); Agrees(codec, e.state, Fold(e.chunks))
  {
    if outs == [] {
      var c := Choice(Opening, None, includeUsage);
      assert [c][..0] == [];
      assert Placed([]) == map[];
    } else {
      var before := Run(codec, includeUsage, outs[..|outs| - 1]);
      FoldFollows(codec, includeUsage, outs[..|outs| - 1]);
      AgreesStep(codec, includeUsage, before.state, before.chunks, outs[|outs| - 1]);
    }
  }

  // ---------------------------------------------------------------- the whole answer

  function CallJson(wire: WireCall): Value {
    Obj(map[
      "id" := Str(wire.id), "type" := Str("function"),
      "function" := Obj(map["name" := Str(wire.name), "arguments" := Str(wire.arguments)])])
  }

  function CallsJson(wires: seq<WireCall>): (values: seq<Value>)
    ensures |values| == |wires|
  {
    if wires == [] then [] else CallsJson(wires[..|wires| - 1]) + [CallJson(wires[|wires| - 1])]
  }

  /** The message of the non-streaming answer. */
  function MessageJson(codec: Codec, s: State): Value {
    var base := map[
      "role" := Str("assistant"),
      "content" := if s.content == "" && s.toolCalls != [] then Null else Str(s.content),
      "refusal" := Null];
    var thought := if s.reasoning == "" then base else base["reasoning_content" := Str(s.reasoning)];
    Obj(if s.toolCalls == [] then thought else thought["tool_calls" := Arr(CallsJson(WireAll(codec, s.toolCalls)))])
  }

  /** The non-streaming answer: its one choice's message and finish reason, and the usage. */
  datatype Completion = Completion(message: Value, finish: string, usage: Usage)

  function Answer(codec: Codec, s: State): Option<Completion> {
    if s.finished.None? then None
    else Some(Completion(MessageJson(codec, s), ReasonName(s.finished.value.0), s.finished.value.1))
  }

  // ---------------------------------------------------------------- reading messages

  datatype ChatInputError =
    | MissingField(key: string)
    | UnsupportedPart(kind: string)
    | ContentNotText
    | UnsupportedRole(role: string)
    | NotAFunction
    | MissingFunction
    | BadArguments(name: string)

  function Required(v: Value, key: string): Result<string, ChatInputError> {
    match GetStr(v, key)
    case Some(s) => Ok(s)
    case None => Err(MissingField(key))
  }

  function ParseParts(parts: seq<Value>): Result<string, ChatInputError> {
    if parts == [] then Ok("")
    else
      var front :- ParseParts(parts[..|parts| - 1]);
      var kind :- Required(parts[|parts| - 1], "type");
      if kind == "text" || kind == "input_text" || kind == "output_text" then
        var text :- Required(parts[|parts| - 1], "text");
        Ok(front + text)
      else Err(UnsupportedPart(kind))
  }

  function ParseContent(content: Option<Value>): Result<Option<string>, ChatInputError> {
    match content
    case None => Ok(None)
    case Some(Null) => Ok(None)
    case Some(Str(text)) => Ok(Some(text))
    case Some(Arr(parts)) => var text :- ParseParts(parts); Ok(Some(text))
    case _ => Err(ContentNotText)
  }

  function ParseToolCall(codec: Codec, v: Value): Result<ToolCall, ChatInputError> {
    var kind :- Required(v, "type");
    if kind != "function" then Err(NotAFunction)
    else
      match Get(v, "function")
      case None => Err(MissingFunction)
      case Some(function_) =>
        var name :- Required(function_, "name");
        var text :- Required(function_, "arguments");
        match codec.readObject(text)
        case None => Err(BadArguments(name))
        case Some(arguments) => var id :- Required(v, "id"); Ok(ToolCall(id, name, arguments))
  }

  function ParseToolCalls(codec: Codec, values: seq<Value>): Result<seq<ToolCall>, ChatInputError> {
    if values == [] then Ok([])
    else
      var front :- ParseToolCalls(codec, values[..|values| - 1]);
      var last :- ParseToolCall(codec, values[|values| - 1]);
      Ok(front + [last])
  }

  function ParseMessage(codec: Codec, v: Value): Result<Message, ChatInputError> {
    var role :- Required(v, "role");
    var content :- ParseContent(Get(v, "content"));
    if role == "system" then Ok(TextMessage(System, content.GetOr("")))
    else if role == "developer" then Ok(TextMessage(Developer, content.GetOr("")))
    else if role == "user" then Ok(TextMessage(User, content.GetOr("")))
    else if role == "tool" then
      var callId :- Required(v, "tool_call_id");
      Ok(ToolMessage(callId, content.GetOr("")))
    else if role == "assistant" then
      var calls :- ParseToolCalls(codec, match Get(v, "tool_calls") case Some(Arr(values)) => values case _ => []);
      Ok(AssistantMessage(content, GetStr(v, "reasoning_content"), calls))
    else Err(UnsupportedRole(role))
  }

  /** All messages, or the error of the first one that does not parse. */
  function ParseMessages(codec: Codec, values: seq<Value>): Result<seq<Message>, ChatInputError> {
    if values == [] then Ok([])
    else
      var front :- ParseMessages(codec, values[..|values| - 1]);
      var last :- ParseMessage(codec, values[|values| - 1]);
      Ok(front + [last])
  }

  // ---------------------------------------------------------------- the answer reads back

  lemma ReadCallJson(codec: Codec, wire: WireCall)
    ensures ParseToolCall(codec, CallJson(wire)) ==
      match codec.readObject(wire.arguments)
      case None => Err(BadArguments(wire.name))
      case Some(arguments) => Ok(ToolCall(wire.id, wire.name, arguments))
  {
    var v := CallJson(wire);
    var inner := Obj(map["name" := Str(wire.name), "arguments" := Str(wire.arguments)]);
    assert GetStr(v, "type") == Some("function") && Get(v, "function") == Some(inner)
        && GetStr(v, "id") == Some(wire.id);
    assert GetStr(inner, "name") == Some(wire.name) && GetStr(inner, "arguments") == Some(wire.arguments);
  }

  lemma {:induction false} ReadCallsJson(codec: Codec, wires: seq<WireCall>)
    ensures
      var read := ReadCalls(codec, wires);
      ParseToolCalls(codec, CallsJson(wires)) == if read.Ok? then Ok(read.value) else Err(BadArguments(read.error))
  {
    if wires != [] {
      var front, last := wires[..|wires| - 1], wires[|wires| - 1];
      ReadCallsJson(codec, front);
      ReadCallJson(codec, last);
      assert CallsJson(wires)[..|wires| - 1] == CallsJson(front);
    }
  }

  lemma MessageMembers(codec: Codec, s: State)
    ensures
      var v := MessageJson(codec, s);
      && GetStr(v, "role") == Some("assistant")
      && Get(v, "content") == Some(if s.content == "" && s.toolCalls != [] then Null else Str(s.content))
      && Get(v, "refusal") == Some(Null)
  {
  }

  lemma OptionalMembers(codec: Codec, s: State)
    ensures
      var v := MessageJson(codec, s);
      && GetStr(v, "reasoning_content") == NonEmpty(s.reasoning)
      && Get(v, "tool_calls") == (if s.toolCalls == [] then None else Some(Arr(CallsJson(WireAll(codec, s.toolCalls)))))
  {
  }

  /** The content member the answer shows: null only when there are calls and no text. */
  function ShownContent(content: string, calls: seq<ToolCall>): Option<string> {
    if content == "" && calls != [] then None else Some(content)
  }

  lemma AnswerReadsBack(codec: Codec, s: State)
    ensures
      var read := ReadCalls(codec, WireAll(codec, s.toolCalls));
      ParseMessage(codec, MessageJson(codec, s)) ==
        if read.Ok? then Ok(AssistantMessage(ShownContent(s.content, s.toolCalls), NonEmpty(s.reasoning), read.value))
        else Err(BadArguments(read.error))
  {
    hide MessageJson, ReadCalls, GetStr, CallsJson;
    var wires := WireAll(codec, s.toolCalls);
    MessageMembers(codec, s);
    OptionalMembers(codec, s);
    ReadCallsJson(codec, wires);
  }

  lemma FinishFolds(codec: Codec, includeUsage: bool, s: State, chunks: seq<Chunk>, reason: FinishReason, usage: Usage)
    requires Fold(chunks).usage == None
    ensures
      var e := Push(codec, includeUsage, s, Finished(reason, usage));
      Fold(chunks + e.chunks) ==
        Fold(chunks).(finish := Some(ReasonName(reason)), usage := if includeUsage then Some(usage) else None)
  {
    var last := Choice(Nothing, Some(ReasonName(reason)), includeUsage);
    hide Fold;
    FoldOne(chunks, last);
    if includeUsage {
      FoldOne(chunks + [last], UsageReport(usage));
      assert chunks + ([last] + [UsageReport(usage)]) == chunks + [last] + [UsageReport(usage)];
    } else {
      assert chunks + ([last] + []) == chunks + [last];
    }
  }

  /** A message value shows this text, reasoning and calls. */
  predicate Shows(v: Value, content: string, reasoning: string, wires: seq<WireCall>) {
    && GetStr(v, "role") == Some("assistant") && Get(v, "refusal") == Some(Null)
    && Get(v, "content") == Some(if content == "" && wires != [] then Null else Str(content))
    && GetStr(v, "reasoning_content") == NonEmpty(reasoning)
    && Get(v, "tool_calls") == (if wires == [] then None else Some(Arr(CallsJson(wires))))
  }

  /** The finish reason as clients read it. */
  predicate FinishSays(finish: string, reason: FinishReason) {
    && (finish == "length" <==> reason.Length?)
    && (finish == "tool_calls" <==> reason.ToolCalls?)
    && (finish == "stop" <==> reason.Eos? || reason.Stop?)
    && finish in {"length", "tool_calls", "stop"}
  }

  lemma ReasonSays(reason: FinishReason)
    ensures FinishSays(ReasonName(reason), reason)
  {
    var l, t, s := "length", "tool_calls", "stop";
    assert |l| == 6 && |t| == 10 && |s| == 4;
  }

  lemma AnswerShows(codec: Codec, s: State)
    ensures Shows(MessageJson(codec, s), s.content, s.reasoning, WireAll(codec, s.toolCalls))
  {
    hide MessageJson, Get, GetStr, CallsJson, NonEmpty;
    MessageMembers(codec, s);
    OptionalMembers(codec, s);
  }

  /** Streaming and not streaming give the same answer: the chunks of any finished stream fold into some text,
      reasoning, numbered calls and finish reason, and the whole answer's message shows exactly those, null content
      standing for empty text only beside calls. */
  lemma StreamedEqualsWhole(
      codec: Codec, includeUsage: bool, outs: seq<OutputEvent>, reason: FinishReason, usage: Usage)
    ensures
      var e := RunToEnd(codec, includeUsage, outs, reason, usage);
      var f := Fold(e.chunks);
      && Answer(codec, e.state).Some?
      && var whole := Answer(codec, e.state).value;
      && Shows(whole.message, f.content, f.reasoning, WireAll(codec, CallsOf(outs)))
      && f == Folded(TextOf(outs), ReasoningOf(outs), Placed(WireAll(codec, CallsOf(outs))), Some(whole.finish),
                     if includeUsage then Some(whole.usage) else None)
      && FinishSays(whole.finish, reason) && whole.usage == usage
  {
    ReasonSays(reason);
    var before := Run(codec, includeUsage, outs);
    StateFollows(codec, includeUsage, outs);
    FoldFollows(codec, includeUsage, outs);
    FinishFolds(codec, includeUsage, before.state, before.chunks, reason, usage);
    hide Shows, MessageJson, Placed, WireAll, Fold, Run, FinishSays, TextOf, ReasoningOf, CallsOf;
    AnswerShows(codec, before.state.(finished := Some((reason, usage))));
  }
}
