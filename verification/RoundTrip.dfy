/** What the Responses stream prints, the history parser reads back as the same assistant turn. */
module RoundTrip {
  import opened Wrappers
  import opened Json
  import opened ChatModel
  import opened Responses
  import opened ResponseRuns
  import opened History

  // ---------------------------------------------------------------- what a list of items says

  function SaidIn(items: seq<Item>): string {
    if items == [] then ""
    else
      var last := items[|items| - 1];
      SaidIn(items[..|items| - 1]) + (if last.MessageItem? then last.text else "")
  }

  function ThoughtIn(items: seq<Item>): string {
    if items == [] then ""
    else
      var last := items[|items| - 1];
      ThoughtIn(items[..|items| - 1]) + (if last.ReasoningItem? then last.text else "")
  }

  function CallsIn(items: seq<Item>): seq<WireCall> {
    if items == [] then []
    else
      var last := items[|items| - 1];
      CallsIn(items[..|items| - 1])
          + (if last.FunctionItem? then [WireCall(last.callId, last.name, last.arguments)] else [])
  }

  predicate Whole(item: Item) {
    item.status == Status.Completed && (!item.FunctionItem? ==> item.text != "")
  }

  predicate AllWhole(items: seq<Item>) {
    forall i :: 0 <= i < |items| ==> Whole(items[i])
  }

  // ---------------------------------------------------------------- reading finished items

  lemma ReadMessageItem(codec: Codec, item: Item)
    requires item.MessageItem? && Whole(item)
    ensures ParseItem(codec, item.Json()) == Ok(Said(item.text))
  {
    var v, part := item.Json(), OutputText(item.text);
    assert GetStr(v, "type") == Some("message") && GetStr(v, "role") == Some("assistant");
    assert Get(v, "content") == Some(Arr([part]));
    assert [part][..0] == [];
    assert GetStr(part, "type") == Some("output_text") && GetStr(part, "text") == Some(item.text);
    assert ParseParts([part]) == Ok("" + item.text);
    assert "" + item.text == item.text;
  }

  lemma ReadReasoningItem(codec: Codec, item: Item)
    requires item.ReasoningItem? && Whole(item)
    ensures ParseItem(codec, item.Json()) == Ok(Thought(item.text))
  {
    var v, part := item.Json(), ReasoningSummary(item.text);
    assert GetStr(v, "type") == Some("reasoning");
    assert Get(v, "summary") == Some(Arr([part]));
    assert [part][..0] == [];
    assert GetStr(part, "type") == Some("summary_text") && GetStr(part, "text") == Some(item.text);
    assert ParseSummary([part]) == Ok("" + item.text);
    assert "" + item.text == item.text;
  }

  lemma ReadFunctionItem(codec: Codec, item: Item)
    requires item.FunctionItem?
    ensures ParseItem(codec, item.Json()) ==
      match codec.readObject(item.arguments)
      case Some(arguments) => Ok(Called(ToolCall(item.callId, item.name, arguments)))
      case None => Err(BadArguments(item.name))
  {
    var v := item.Json();
    assert GetStr(v, "type") == Some("function_call");
    assert GetStr(v, "call_id") == Some(item.callId) && GetStr(v, "name") == Some(item.name);
    assert GetStr(v, "arguments") == Some(item.arguments);
  }

  lemma TurnGrows(text: string, reasoning: string, calls: seq<ToolCall>, more: string, call: ToolCall)
    requires more != ""
    ensures
      var acc := Acc([], Turn(text, reasoning, calls));
      && acc.Feed(Said(more)) == Acc([], Turn(text + more, reasoning, calls))
      && acc.Feed(Thought(more)) == Acc([], Turn(text, reasoning + more, calls))
      && acc.Feed(Called(call)) == Acc([], Turn(text, reasoning, calls + [call]))
  {
    assert "" + more == more && [] + [call] == [call];
  }

  /** The pending turn that says this, its calls decoded; fails on the first call that does not decode. */
  function ReadTurn(codec: Codec, text: string, reasoning: string, wires: seq<WireCall>): Result<Acc, InputError> {
    match ReadCalls(codec, wires)
    case Ok(calls) => Ok(Acc([], Turn(text, reasoning, calls)))
    case Err(name) => Err(BadArguments(name))
  }

  /** Parsing an output list gives back exactly what the list says, as one pending assistant turn;
      it fails only on a call whose argument text is not an object. */
  lemma {:induction false} ParseOutput(codec: Codec, items: seq<Item>)
    requires AllWhole(items)
    ensures FeedAll(codec, START, OutputJson(items)) ==
      ReadTurn(codec, SaidIn(items), ThoughtIn(items), CallsIn(items))
  {
    if items != [] {
      var front, last := items[..|items| - 1], items[|items| - 1];
      ParseOutput(codec, front);
      assert OutputJson(items)[..|OutputJson(items)| - 1] == OutputJson(front);
      ParseOutputLast(codec, front, last);
    }
  }

  lemma ParseOutputLast(codec: Codec, front: seq<Item>, last: Item)
    requires Whole(last)
    requires FeedAll(codec, START, OutputJson(front)) ==
      ReadTurn(codec, SaidIn(front), ThoughtIn(front), CallsIn(front))
    ensures
      var items := front + [last];
      var before, piece := FeedAll(codec, START, OutputJson(front)), ParseItem(codec, last.Json());
      (if before.Err? then before else if piece.Err? then Err(piece.error) else Ok(before.value.Feed(piece.value))) ==
      ReadTurn(codec, SaidIn(items), ThoughtIn(items), CallsIn(items))
  {
    var items := front + [last];
    assert items[..|items| - 1] == front;
    var calls := ReadCalls(codec, CallsIn(front));
    match last
    case MessageItem(_, _, text) =>
      ReadMessageItem(codec, last);
      assert CallsIn(front) + [] == CallsIn(front) && ThoughtIn(front) + "" == ThoughtIn(front);
      if calls.Ok? { TurnGrows(SaidIn(front), ThoughtIn(front), calls.value, text, ToolCall("", "", map[])); }
    case ReasoningItem(_, _, text) =>
      ReadReasoningItem(codec, last);
      assert CallsIn(front) + [] == CallsIn(front) && SaidIn(front) + "" == SaidIn(front);
      if calls.Ok? { TurnGrows(SaidIn(front), ThoughtIn(front), calls.value, text, ToolCall("", "", map[])); }
    case FunctionItem(_, callId, name, arguments, _) =>
      ReadFunctionItem(codec, last);
      assert SaidIn(front) + "" == SaidIn(front) && ThoughtIn(front) + "" == ThoughtIn(front);
      var wires := CallsIn(items);
      assert wires[..|wires| - 1] == CallsIn(front);
      if calls.Ok? && codec.readObject(arguments).Some? {
        var call := ToolCall(callId, name, codec.readObject(arguments).value);
        TurnGrows(SaidIn(front), ThoughtIn(front), calls.value, "x", call);
      }
  }

  // ---------------------------------------------------------------- what a run writes

  function OpenText(o: Option<OpenItem>): string { if o.Some? then o.value.text else "" }

  /** Closed items plus whatever is still open say exactly what the inference events said. */
  predicate Written(codec: Codec, s: Stream, outs: seq<OutputEvent>) {
    && AllWhole(s.output)
    && (s.reasoning.Some? ==> s.reasoning.value.text != "") && (s.text.Some? ==> s.text.value.text != "")
    && SaidIn(s.output) + OpenText(s.text) == TextOf(outs)
    && ThoughtIn(s.output) + OpenText(s.reasoning) == ReasoningOf(outs)
    && CallsIn(s.output) == WireAll(codec, CallsOf(outs))
  }

  lemma AppendItem(items: seq<Item>, item: Item)
    ensures SaidIn(items + [item]) == SaidIn(items) + (if item.MessageItem? then item.text else "")
    ensures ThoughtIn(items + [item]) == ThoughtIn(items) + (if item.ReasoningItem? then item.text else "")
    ensures CallsIn(items + [item]) ==
            CallsIn(items) + (if item.FunctionItem? then [WireCall(item.callId, item.name, item.arguments)] else [])
  {
    assert (items + [item])[..|items|] == items;
  }

  lemma WrittenCloseReasoning(codec: Codec, s: Stream, outs: seq<OutputEvent>)
    requires Written(codec, s, outs)
    ensures Written(codec, CloseReasoning(s).stream, outs)
  {
    hide TextOf, ReasoningOf, CallsOf, WireAll, SaidIn, ThoughtIn, CallsIn;
    if s.reasoning.Some? {
      var r := s.reasoning.value;
      AppendItem(s.output, ReasoningItem(r.id, Status.Completed, r.text));
      assert SaidIn(s.output) + "" == SaidIn(s.output);
      assert ThoughtIn(s.output) + r.text + "" == ThoughtIn(s.output) + r.text;
      assert CallsIn(s.output) + [] == CallsIn(s.output);
    }
  }

  lemma WrittenCloseText(codec: Codec, s: Stream, outs: seq<OutputEvent>)
    requires Written(codec, s, outs)
    ensures Written(codec, CloseText(s).stream, outs)
  {
    hide TextOf, ReasoningOf, CallsOf, WireAll, SaidIn, ThoughtIn, CallsIn;
    if s.text.Some? {
      var t := s.text.value;
      AppendItem(s.output, MessageItem(t.id, Status.Completed, t.text));
      assert ThoughtIn(s.output) + "" == ThoughtIn(s.output);
      assert SaidIn(s.output) + t.text + "" == SaidIn(s.output) + t.text;
      assert CallsIn(s.output) + [] == CallsIn(s.output);
    }
  }

  lemma WrittenCloseAll(codec: Codec, s: Stream, outs: seq<OutputEvent>)
    requires Written(codec, s, outs)
    ensures Written(codec, CloseAll(s).stream, outs)
  {
    WrittenCloseReasoning(codec, s, outs);
    WrittenCloseText(codec, CloseReasoning(s).stream, outs);
  }

  lemma Said1(outs: seq<OutputEvent>, out: OutputEvent)
    ensures TextOf(outs + [out]) == TextOf(outs) + (if out.Text? then out.delta else "")
    ensures ReasoningOf(outs + [out]) == ReasoningOf(outs) + (if out.Reasoning? then out.delta else "")
    ensures CallsOf(outs + [out]) == CallsOf(outs) + (if out.Call? then [out.call] else [])
  {
    assert (outs + [out])[..|outs|] == outs;
  }

  lemma WrittenPushReasoning(codec: Codec, s: Stream, outs: seq<OutputEvent>, delta: string, id: ItemId)
    requires Written(codec, s, outs)
    ensures Written(codec, PushReasoning(s, delta, id).stream, outs + [Reasoning(delta)])
  {
    hide TextOf, ReasoningOf, CallsOf, WireAll, SaidIn, ThoughtIn, CallsIn;
    Said1(outs, Reasoning(delta));
    assert TextOf(outs) + "" == TextOf(outs) && CallsOf(outs) + [] == CallsOf(outs);
    Associative(ThoughtIn(s.output), OpenText(s.reasoning), delta);
    assert "" + delta == delta && OpenText(s.reasoning) + "" == OpenText(s.reasoning);
  }

  lemma WrittenPushText(codec: Codec, s: Stream, outs: seq<OutputEvent>, delta: string, id: ItemId)
    requires Written(codec, s, outs)
    ensures Written(codec, PushText(s, delta, id).stream, outs + [Text(delta)])
  {
    hide TextOf, ReasoningOf, CallsOf, WireAll, SaidIn, ThoughtIn, CallsIn;
    Said1(outs, Text(delta));
    assert ReasoningOf(outs) + "" == ReasoningOf(outs) && CallsOf(outs) + [] == CallsOf(outs);
    Associative(SaidIn(s.output), OpenText(s.text), delta);
    assert "" + delta == delta && OpenText(s.text) + "" == OpenText(s.text);
  }

  lemma WrittenAddCall(codec: Codec, s: Stream, outs: seq<OutputEvent>, call: ToolCall, id: ItemId)
    requires Written(codec, s, outs) && s.text.None? && s.reasoning.None?
    ensures Written(codec, AddCall(codec, s, call, id).stream, outs + [Call(call)])
  {
    hide TextOf, ReasoningOf, CallsOf, WireAll, SaidIn, ThoughtIn, CallsIn;
    Said1(outs, Call(call));
    AppendItem(s.output, CallItem(codec, id, call));
    assert TextOf(outs) + "" == TextOf(outs) && ReasoningOf(outs) + "" == ReasoningOf(outs);
    assert SaidIn(s.output) + "" == SaidIn(s.output) && ThoughtIn(s.output) + "" == ThoughtIn(s.output);
    var calls := CallsOf(outs);
    assert (calls + [call])[..|calls|] == calls;
    WireSplits(codec, calls + [call]);
  }

  lemma {:induction false} RunWritten(codec: Codec, run: seq<Step>)
    ensures Written(codec, Run(codec, run).stream, Outs(run))
  {
    if run != [] {
      var front, last := run[..|run| - 1], run[|run| - 1];
      var s, outs := Run(codec, front).stream, Outs(front);
      RunWritten(codec, front);
      match last.out {
        case Reasoning(delta) => WrittenPushReasoning(codec, s, outs, delta, ItemId("rs", last.ticket));
        case Text(delta) =>
          WrittenCloseReasoning(codec, s, outs);
          WrittenPushText(codec, CloseReasoning(s).stream, outs, delta, ItemId("msg", last.ticket));
        case Call(call) =>
          WrittenCloseAll(codec, s, outs);
          WrittenAddCall(codec, CloseAll(s).stream, outs, call, ItemId("fc", last.ticket));
      }
    }
  }

  // ---------------------------------------------------------------- the round trip

  /** The history a client gets by sending a finished response's output back. */
  function Reparsed(codec: Codec, header: Header, run: seq<Step>, reason: FinishReason, usage: Usage)
    : Result<seq<Message>, InputError>
  {
    Parse(codec, OutputJson(RunToEnd(codec, header, run, reason, usage).stream.output))
  }

  lemma EndClosesAll(codec: Codec, header: Header, run: seq<Step>, reason: FinishReason, usage: Usage)
    ensures
      var end := CloseAll(Run(codec, run).stream).stream;
      && RunToEnd(codec, header, run, reason, usage).stream.output == end.output
      && end.text.None? && end.reasoning.None?
  {
    hide Run;
  }

  /** For every event sequence, in any order: the final output reads back as no message if nothing non-empty
      was emitted, and otherwise as one assistant message with all text, all reasoning and all calls in order.
      A call comes back as the text library decodes it, and an undecodable one is the only way to fail. */
  lemma OutputReadsBack(codec: Codec, header: Header, run: seq<Step>, reason: FinishReason, usage: Usage)
    ensures
      var turn := ReadTurn(codec, TextOf(Outs(run)), ReasoningOf(Outs(run)), WireAll(codec, CallsOf(Outs(run))));
      Reparsed(codec, header, run, reason, usage) == if turn.Ok? then Ok(turn.value.Flush()) else Err(turn.error)
  {
    var s := Run(codec, run).stream;
    var end := CloseAll(s).stream;
    EndClosesAll(codec, header, run, reason, usage);
    hide Run, RunToEnd, CloseAll, TextOf, ReasoningOf, CallsOf, Outs, WireAll, SaidIn, ThoughtIn, CallsIn, FeedAll,
      OutputJson, ReadTurn, Acc.Flush;
    RunWritten(codec, run);
    WrittenCloseAll(codec, s, Outs(run));
    assert SaidIn(end.output) + "" == SaidIn(end.output) && ThoughtIn(end.output) + "" == ThoughtIn(end.output);
    ParseOutput(codec, end.output);
  }

  /** With arguments the text library preserves, the round trip is exact; it is exact only then. */
  lemma RoundTripExact(codec: Codec, header: Header, run: seq<Step>, reason: FinishReason, usage: Usage)
    ensures
      var outs := Outs(run);
      var turn := Turn(TextOf(outs), ReasoningOf(outs), CallsOf(outs));
      Reparsed(codec, header, run, reason, usage) == Ok(Messages(turn))
      <==> forall call :: call in CallsOf(outs) ==> codec.RoundTrips(call.arguments)
  {
    OutputReadsBack(codec, header, run, reason, usage);
    CallsSurvive(codec, CallsOf(Outs(run)));
    var read := ReadCalls(codec, WireAll(codec, CallsOf(Outs(run))));
    if read.Ok? { TurnFlush(TextOf(Outs(run)), ReasoningOf(Outs(run)), read.value, CallsOf(Outs(run))); }
  }

  lemma TurnFlush(text: string, reasoning: string, calls: seq<ToolCall>, other: seq<ToolCall>)
    ensures Acc([], Turn(text, reasoning, calls)).Flush() == Messages(Turn(text, reasoning, calls))
    ensures Messages(Turn(text, reasoning, calls)) == Messages(Turn(text, reasoning, other)) <==> calls == other
  {
    var a, b := Messages(Turn(text, reasoning, calls)), Messages(Turn(text, reasoning, other));
    if a == b && a != [] { assert a[0].toolCalls == b[0].toolCalls; }
  }

  function Messages(turn: Option<Message>): seq<Message> {
    if turn.Some? then [turn.value] else []
  }
}
