/** When the streamed events form complete, non-overlapping, correctly numbered item blocks. */
module ItemGrammar {
  import opened Wrappers
  import opened Json
  import opened ChatModel
  import opened Responses
  import opened ResponseRuns

  /** A reader of the event stream, independent of the builder. `items` are the blocks read so far;
      a new block must be numbered by its position and may only begin between blocks. */
  datatype Reader =
    | Between(items: seq<Item>)
    | Announced(items: seq<Item>, item: Item)
    | InReasoning(items: seq<Item>, id: ItemId, text: string)
    | ReasoningTextEnded(items: seq<Item>, id: ItemId, text: string)
    | ReasoningPartEnded(items: seq<Item>, id: ItemId, text: string)
    | InText(items: seq<Item>, id: ItemId, text: string)
    | TextEnded(items: seq<Item>, id: ItemId, text: string)
    | PartEnded(items: seq<Item>, id: ItemId, text: string)
    | InArguments(items: seq<Item>, id: ItemId, item: Item, text: string)
    | ArgumentsEnded(items: seq<Item>, id: ItemId, item: Item, text: string)
    | Closed(items: seq<Item>)
    | Broken

  function Read(r: Reader, e: StreamEvent): Reader {
    match (r, e)
    case (Between(items), ItemAdded(index, item)) =>
      if index == |items| then Announced(items, item) else Broken
    case (Announced(items, item), ReasoningPartAdded(id, index, part)) =>
      if index == |items| && item == ReasoningItem(id, InProgress, "") && part == ""
      then InReasoning(items, id, "") else Broken
    case (InReasoning(items, id, text), ReasoningDelta(id', index, delta)) =>
      if index == |items| && id' == id && delta != "" then InReasoning(items, id, text + delta) else Broken
    case (InReasoning(items, id, text), ReasoningTextDone(id', index, all)) =>
      if index == |items| && id' == id && all == text && text != "" then ReasoningTextEnded(items, id, text) else Broken
    case (ReasoningTextEnded(items, id, text), ReasoningPartDone(id', index, part)) =>
      if index == |items| && id' == id && part == text then ReasoningPartEnded(items, id, text) else Broken
    case (ReasoningPartEnded(items, id, text), ItemDone(index, item)) =>
      if index == |items| && item == ReasoningItem(id, Status.Completed, text) then Between(items + [item]) else Broken
    case (Announced(items, item), ContentPartAdded(id, index, part)) =>
      if index == |items| && item == MessageItem(id, InProgress, "") && part == ""
      then InText(items, id, "") else Broken
    case (InText(items, id, text), TextDelta(id', index, delta)) =>
      if index == |items| && id' == id && delta != "" then InText(items, id, text + delta) else Broken
    case (InText(items, id, text), TextDone(id', index, all)) =>
      if index == |items| && id' == id && all == text && text != "" then TextEnded(items, id, text) else Broken
    case (TextEnded(items, id, text), ContentPartDone(id', index, part)) =>
      if index == |items| && id' == id && part == text then PartEnded(items, id, text) else Broken
    case (PartEnded(items, id, text), ItemDone(index, item)) =>
      if index == |items| && item == MessageItem(id, Status.Completed, text) then Between(items + [item]) else Broken
    case (Announced(items, item), ArgumentsDelta(id, index, delta)) =>
      if index == |items| && item.FunctionItem? && item.id == id && item.status == InProgress && item.arguments == ""
      then InArguments(items, id, item, delta) else Broken
    case (InArguments(items, id, item, text), ArgumentsDone(id', index, name, arguments)) =>
      if index == |items| && id' == id && item.FunctionItem? && item.name == name && arguments == text
      then ArgumentsEnded(items, id, item, text) else Broken
    case (ArgumentsEnded(items, id, item, text), ItemDone(index, done)) =>
      if index == |items| && item.FunctionItem? && done == item.(arguments := text, status := Status.Completed)
          then Between(items + [done]) else Broken
    case (Between(items), ResponseCompleted(response)) => if response.output == items then Closed(items) else Broken
    case (Between(items), ResponseIncomplete(response)) => if response.output == items then Closed(items) else Broken
    case _ => Broken
  }

  function ReadAll(r: Reader, events: seq<StreamEvent>): Reader {
    if events == [] then r else Read(ReadAll(r, events[..|events| - 1]), events[|events| - 1])
  }

  lemma {:induction false} ReadConcat(r: Reader, a: seq<StreamEvent>, b: seq<StreamEvent>)
    ensures ReadAll(r, a + b) == ReadAll(ReadAll(r, a), b)
  {
    if b == [] {
      assert a + b == a;
    } else {
      ReadConcat(r, a, b[..|b| - 1]);
      assert (a + b)[..|a + b| - 1] == a + b[..|b| - 1];
    }
  }

  lemma {:induction false} BrokenStays(events: seq<StreamEvent>)
    ensures ReadAll(Broken, events) == Broken
  {
    if events != [] { BrokenStays(events[..|events| - 1]); }
  }

  lemma NothingRead(r: Reader)
    ensures ReadAll(r, []) == r
  {
  }

  lemma ReadOne(r: Reader, e: StreamEvent)
    ensures ReadAll(r, [e]) == Read(r, e)
  {
    assert [e][..0] == [];
  }

  lemma ReadThree(r: Reader, a: StreamEvent, b: StreamEvent, c: StreamEvent)
    ensures ReadAll(r, [a, b, c]) == Read(Read(Read(r, a), b), c)
  {
    hide Read, ReadAll;
    ReadOne(r, a);
    ReadLast(r, [a], b);
    assert [a] + [b] == [a, b];
    ReadLast(r, [a, b], c);
    assert [a, b] + [c] == [a, b, c];
  }

  lemma ReadLast(r: Reader, front: seq<StreamEvent>, last: StreamEvent)
    ensures ReadAll(r, front + [last]) == Read(ReadAll(r, front), last)
  {
    assert (front + [last])[..|front|] == front;
  }

  // ---------------------------------------------------------------- the condition on the input

  /** A text item is open exactly when non-empty text arrived and no call has followed it. */
  predicate TextPending(outs: seq<OutputEvent>) {
    outs != [] &&
    var front, last := outs[..|outs| - 1], outs[|outs| - 1];
    match last
    case Text(delta) => delta != "" || TextPending(front)
    case Reasoning(_) => TextPending(front)
    case Call(_) => false
  }

  /** No non-empty reasoning delta arrives while text is pending. */
  predicate Ordered(outs: seq<OutputEvent>) {
    outs == [] ||
    var front, last := outs[..|outs| - 1], outs[|outs| - 1];
    Ordered(front) && !(last.Reasoning? && last.delta != "" && TextPending(front))
  }

  // ---------------------------------------------------------------- the reader follows the builder

  /** The reader state that mirrors a builder with at most one item open. */
  predicate Mirrors(s: Stream, r: Reader) {
    && (s.reasoning.None? || s.text.None?)
    && (s.reasoning.Some? ==>
         var o := s.reasoning.value;
         o.index == |s.output| && o.text != "" && r == InReasoning(s.output, o.id, o.text))
    && (s.text.Some? ==>
         var o := s.text.value;
         o.index == |s.output| && o.text != "" && r == InText(s.output, o.id, o.text))
    && (s.reasoning.None? && s.text.None? ==> r == Between(s.output))
  }

  lemma MirrorCloseReasoning(s: Stream, r: Reader)
    requires Mirrors(s, r)
    ensures var e := CloseReasoning(s); Mirrors(e.stream, ReadAll(r, e.events))
  {
    if s.reasoning.Some? {
      var e := CloseReasoning(s).events;
      ReadThree(r, e[0], e[1], e[2]);
    }
  }

  lemma MirrorCloseText(s: Stream, r: Reader)
    requires Mirrors(s, r) && s.reasoning.None?
    ensures var e := CloseText(s); Mirrors(e.stream, ReadAll(r, e.events))
  {
    if s.text.Some? {
      var e := CloseText(s).events;
      ReadThree(r, e[0], e[1], e[2]);
    }
  }

  lemma MirrorCloseAll(s: Stream, r: Reader)
    requires Mirrors(s, r)
    ensures var e := CloseAll(s); ReadAll(r, e.events) == Between(e.stream.output)
  {
    var e := CloseReasoning(s);
    MirrorCloseReasoning(s, r);
    MirrorCloseText(e.stream, ReadAll(r, e.events));
    ReadConcat(r, e.events, CloseText(e.stream).events);
  }

  lemma MirrorPushReasoning(s: Stream, r: Reader, delta: string, id: ItemId)
    requires Mirrors(s, r) && (delta != "" ==> s.text.None?)
    ensures var e := PushReasoning(s, delta, id); Mirrors(e.stream, ReadAll(r, e.events))
  {
    hide ReadAll;
    NothingRead(r);
    var e := PushReasoning(s, delta, id).events;
    if |e| == 3 { ReadThree(r, e[0], e[1], e[2]); } else if |e| == 1 { ReadOne(r, e[0]); }
  }

  lemma MirrorPushText(s: Stream, r: Reader, delta: string, id: ItemId)
    requires Mirrors(s, r) && s.reasoning.None?
    ensures var e := PushText(s, delta, id); Mirrors(e.stream, ReadAll(r, e.events))
  {
    hide ReadAll;
    NothingRead(r);
    var e := PushText(s, delta, id).events;
    if |e| == 3 { ReadThree(r, e[0], e[1], e[2]); } else if |e| == 1 { ReadOne(r, e[0]); }
  }

  lemma MirrorAddCall(codec: Codec, s: Stream, r: Reader, call: ToolCall, id: ItemId)
    requires Mirrors(s, r) && s.reasoning.None? && s.text.None?
    ensures var e := AddCall(codec, s, call, id); Mirrors(e.stream, ReadAll(r, e.events))
  {
    hide ReadAll;
    var e := AddCall(codec, s, call, id).events;
    ReadThree(r, e[0], e[1], e[2]);
    ReadLast(r, [e[0], e[1], e[2]], e[3]);
    assert [e[0], e[1], e[2]] + [e[3]] == e;
  }

  lemma ReasoningIsClosed(s: Stream)
    ensures CloseReasoning(s).stream.reasoning.None?
  {
  }

  lemma AllIsClosed(s: Stream)
    ensures var t := CloseAll(s).stream; t.reasoning.None? && t.text.None?
  {
  }

  lemma MirrorPushOutput(codec: Codec, s: Stream, r: Reader, out: OutputEvent, ticket: Ticket)
    requires Mirrors(s, r) && !(out.Reasoning? && out.delta != "" && s.text.Some?)
    ensures var e := PushOutput(codec, s, out, ticket); Mirrors(e.stream, ReadAll(r, e.events))
  {
    hide ReadAll, PushReasoning, PushText, CloseReasoning, AddCall;
    match out
    case Reasoning(delta) => MirrorPushReasoning(s, r, delta, ItemId("rs", ticket));
    case Text(delta) =>
      var e := CloseReasoning(s);
      ReasoningIsClosed(s);
      MirrorCloseReasoning(s, r);
      MirrorPushText(e.stream, ReadAll(r, e.events), delta, ItemId("msg", ticket));
      ReadConcat(r, e.events, PushText(e.stream, delta, ItemId("msg", ticket)).events);
    case Call(call) =>
      var e := CloseAll(s);
      AllIsClosed(s);
      MirrorCloseAll(s, r);
      MirrorAddCall(codec, e.stream, ReadAll(r, e.events), call, ItemId("fc", ticket));
      ReadConcat(r, e.events, AddCall(codec, e.stream, call, ItemId("fc", ticket)).events);
  }

  lemma TextOpenStep(codec: Codec, s: Stream, out: OutputEvent, ticket: Ticket)
    ensures PushOutput(codec, s, out, ticket).stream.text.Some? <==>
            if out.Text? then out.delta != "" || s.text.Some? else out.Reasoning? && s.text.Some?
  {
  }

  lemma {:induction false} TextOpenWhenPending(codec: Codec, run: seq<Step>)
    ensures Run(codec, run).stream.text.Some? <==> TextPending(Outs(run))
  {
    if run != [] {
      var front, last := run[..|run| - 1], run[|run| - 1];
      TextOpenWhenPending(codec, front);
      TextOpenStep(codec, Run(codec, front).stream, last.out, last.ticket);
      assert Outs(run)[..|run| - 1] == Outs(front);
    }
  }

  /** A reasoning delta that arrives while text is open announces a second item inside the first. */
  lemma InterruptionBreaks(s: Stream, r: Reader, delta: string, id: ItemId)
    requires Mirrors(s, r) && s.text.Some? && delta != ""
    ensures ReadAll(r, PushReasoning(s, delta, id).events) == Broken
  {
    var more := PushReasoning(s, delta, id).events;
    ReadThree(r, more[0], more[1], more[2]);
  }

  predicate Follows(s: Stream, r: Reader, ordered: bool) {
    if ordered then Mirrors(s, r) else r == Broken
  }

  lemma FollowsStep(codec: Codec, s: Stream, r: Reader, ordered: bool, out: OutputEvent, ticket: Ticket)
    requires Follows(s, r, ordered)
    ensures
      var e := PushOutput(codec, s, out, ticket);
      var interrupts := out.Reasoning? && out.delta != "" && s.text.Some?;
      Follows(e.stream, ReadAll(r, e.events), ordered && !interrupts)
  {
    if !ordered {
      BrokenStays(PushOutput(codec, s, out, ticket).events);
    } else if out.Reasoning? && out.delta != "" && s.text.Some? {
      InterruptionBreaks(s, r, out.delta, ItemId("rs", ticket));
    } else {
      MirrorPushOutput(codec, s, r, out, ticket);
    }
  }

  lemma FollowsNothing(codec: Codec)
    ensures Follows(Run(codec, []).stream, ReadAll(Between([]), Run(codec, []).events), Ordered(Outs([])))
  {
  }

  lemma OrderedNext(run: seq<Step>)
    requires run != []
    ensures
      var front, out := Outs(run[..|run| - 1]), run[|run| - 1].out;
      Ordered(Outs(run)) <==> Ordered(front) && !(out.Reasoning? && out.delta != "" && TextPending(front))
  {
    assert Outs(run)[..|run| - 1] == Outs(run[..|run| - 1]);
  }

  /** Reading a whole run: the reader mirrors the builder while the input is ordered,
      and is broken for good from the first reasoning delta that interrupts a text item. */
  lemma {:induction false} ReaderFollows(codec: Codec, run: seq<Step>)
    ensures Follows(Run(codec, run).stream, ReadAll(Between([]), Run(codec, run).events), Ordered(Outs(run)))
  {
    hide PushOutput, ReadAll, Follows, Ordered, TextPending;
    if run == [] {
      FollowsNothing(codec);
    } else {
      var front, last := run[..|run| - 1], run[|run| - 1];
      var before := Run(codec, front);
      OrderedNext(run);
      ReaderFollows(codec, front);
      TextOpenWhenPending(codec, front);
      FollowsStep(codec, before.stream, ReadAll(Between([]), before.events), Ordered(Outs(front)), last.out,
          last.ticket);
      ReadConcat(Between([]), before.events, PushOutput(codec, before.stream, last.out, last.ticket).events);
    }
  }

  lemma EndReads(s: Stream, r: Reader, header: Header, reason: FinishReason, usage: Usage)
    requires Mirrors(s, r)
    ensures
      var close := CloseAll(s);
      ReadAll(ReadAll(r, close.events), [EndEvent(header, close.stream.output, reason, usage)])
          == Closed(close.stream.output)
  {
    var close := CloseAll(s).stream;
    MirrorCloseAll(s, r);
    ReadOne(Between(close.output), EndEvent(header, close.output, reason, usage));
  }

  /** The item grammar holds exactly on ordered input: the finished stream reads as complete,
      non-overlapping blocks, the k-th block numbered k throughout, and the blocks are the final output,
      if and only if no non-empty reasoning delta arrives while text is pending. */
  lemma GrammarIffOrdered(codec: Codec, header: Header, run: seq<Step>, reason: FinishReason, usage: Usage)
    ensures
      var e := RunToEnd(codec, header, run, reason, usage);
      ReadAll(Between([]), e.events) == (if Ordered(Outs(run)) then Closed(e.stream.output) else Broken)
  {
    var before := Run(codec, run);
    var close := CloseAll(before.stream);
    var end := EndEvent(header, close.stream.output, reason, usage);
    ReaderFollows(codec, run);
    FinishEvents(codec, header, run, reason, usage);
    ReadConcat(Between([]), before.events, close.events);
    ReadConcat(Between([]), before.events + close.events, [end]);
    if Ordered(Outs(run)) {
      EndReads(before.stream, ReadAll(Between([]), before.events), header, reason, usage);
    } else {
      BrokenStays(close.events);
      BrokenStays([end]);
    }
  }

  /** The smallest input that breaks the grammar: text, then reasoning. Both items claim position 0. */
  lemma ReasoningAfterTextBreaksGrammar(codec: Codec, header: Header, usage: Usage)
    ensures
      var run := [Step(Text("a"), 0), Step(Reasoning("b"), 1)];
      && ReadAll(Between([]), RunToEnd(codec, header, run, Eos, usage).events) == Broken
      && ItemAdded(0, MessageItem(ItemId("msg", 0), InProgress, "")) in Run(codec, run).events
      && ItemAdded(0, ReasoningItem(ItemId("rs", 1), InProgress, "")) in Run(codec, run).events
  {
    var run := [Step(Text("a"), 0), Step(Reasoning("b"), 1)];
    GrammarIffOrdered(codec, header, run, Eos, usage);
    assert run[..1] == [Step(Text("a"), 0)] && run[..1][..0] == [];
    assert Outs(run[..1]) == [Text("a")] && Outs(run) == [Text("a"), Reasoning("b")];
    assert [Text("a"), Reasoning("b")][..1] == [Text("a")];
    assert !Ordered(Outs(run));
    var first := Run(codec, run[..1]);
    var push := PushOutput(codec, FRESH, Text("a"), 0);
    assert Run(codec, run[..1][..0]) == Emit(FRESH, []);
    assert [] + push.events == push.events;
    assert first == push;
    assert first.events[0] == ItemAdded(0, MessageItem(ItemId("msg", 0), InProgress, ""));
    var second := PushReasoning(first.stream, "b", ItemId("rs", 1));
    assert second.events[0] == ItemAdded(0, ReasoningItem(ItemId("rs", 1), InProgress, ""));
    assert Run(codec, run).events == first.events + second.events;
  }
}
