/** Whole Responses streams: what every run of the event builder guarantees, whatever the order of its input. */
module ResponseRuns {
  import opened Wrappers
  import opened Json
  import opened ChatModel
  import opened Responses

  /** One output event together with the counter value the step would draw if it needs an identity. */
  datatype Step = Step(out: OutputEvent, ticket: Ticket)

  function Outs(run: seq<Step>): (outs: seq<OutputEvent>)
    ensures |outs| == |run|
  {
    if run == [] then [] else Outs(run[..|run| - 1]) + [run[|run| - 1].out]
  }

  /** The counter is shared by all streams, so tickets may skip values but never repeat. */
  predicate DistinctTickets(run: seq<Step>) {
    forall i, j :: 0 <= i < j < |run| ==> run[i].ticket != run[j].ticket
  }

  function Run(codec: Codec, run: seq<Step>): Emit {
    if run == [] then Emit(FRESH, [])
    else
      var before := Run(codec, run[..|run| - 1]);
      var last := run[|run| - 1];
      before.Then(PushOutput(codec, before.stream, last.out, last.ticket))
  }

  function RunToEnd(codec: Codec, header: Header, run: seq<Step>, reason: FinishReason, usage: Usage): Emit {
    var before := Run(codec, run);
    before.Then(Finish(header, before.stream, reason, usage))
  }

  // ---------------------------------------------------------------- done items are the output

  function DoneItems(events: seq<StreamEvent>): seq<Item> {
    if events == [] then []
    else
      var last := events[|events| - 1];
      DoneItems(events[..|events| - 1]) + (if last.ItemDone? then [last.item] else [])
  }

  lemma {:induction false} DoneItemsConcat(a: seq<StreamEvent>, b: seq<StreamEvent>)
    ensures DoneItems(a + b) == DoneItems(a) + DoneItems(b)
  {
    if b == [] {
      assert a + b == a;
    } else {
      DoneItemsConcat(a, b[..|b| - 1]);
      assert (a + b)[..|a + b| - 1] == a + b[..|b| - 1];
    }
  }

  lemma NoneDone()
    ensures DoneItems([]) == []
  {
  }

  lemma DoneItemsSnoc(front: seq<StreamEvent>, last: StreamEvent)
    ensures DoneItems(front + [last]) == DoneItems(front) + (if last.ItemDone? then [last.item] else [])
  {
    assert (front + [last])[..|front|] == front;
  }

  lemma DoneItemsThree(a: StreamEvent, b: StreamEvent, c: StreamEvent)
    requires !a.ItemDone? && !b.ItemDone?
    ensures DoneItems([a, b, c]) == if c.ItemDone? then [c.item] else []
  {
    hide DoneItems;
    NoneDone();
    DoneItemsSnoc([], a);
    assert [] + [a] == [a];
    assert DoneItems([a]) == [];
    DoneItemsSnoc([a], b);
    assert [a] + [b] == [a, b];
    assert DoneItems([a, b]) == [];
    DoneItemsSnoc([a, b], c);
    assert [a, b] + [c] == [a, b, c];
  }

  lemma CloseReasoningDone(s: Stream)
    ensures CloseReasoning(s).stream.output == s.output + DoneItems(CloseReasoning(s).events)
  {
    if s.reasoning.Some? {
      var e := CloseReasoning(s).events;
      DoneItemsThree(e[0], e[1], e[2]);
    }
  }

  lemma CloseTextDone(s: Stream)
    ensures CloseText(s).stream.output == s.output + DoneItems(CloseText(s).events)
  {
    if s.text.Some? {
      var e := CloseText(s).events;
      DoneItemsThree(e[0], e[1], e[2]);
    }
  }

  lemma CloseAllDone(s: Stream)
    ensures CloseAll(s).stream.output == s.output + DoneItems(CloseAll(s).events)
  {
    var e := CloseReasoning(s);
    CloseReasoningDone(s);
    CloseTextDone(e.stream);
    DoneItemsConcat(e.events, CloseText(e.stream).events);
  }

  lemma PushTextDone(s: Stream, delta: string, id: ItemId)
    ensures PushText(s, delta, id).stream.output == s.output
    ensures DoneItems(PushText(s, delta, id).events) == []
  {
    var e := PushText(s, delta, id).events;
    if |e| == 3 {
      DoneItemsThree(e[0], e[1], e[2]);
    } else if |e| == 1 {
      assert e[..0] == [];
    }
  }

  lemma PushReasoningDone(s: Stream, delta: string, id: ItemId)
    ensures PushReasoning(s, delta, id).stream.output == s.output
    ensures DoneItems(PushReasoning(s, delta, id).events) == []
  {
    var e := PushReasoning(s, delta, id).events;
    if |e| == 3 {
      DoneItemsThree(e[0], e[1], e[2]);
    } else if |e| == 1 {
      assert e[..0] == [];
    }
  }

  lemma AddCallDone(codec: Codec, s: Stream, call: ToolCall, id: ItemId)
    ensures AddCall(codec, s, call, id).stream.output == s.output + DoneItems(AddCall(codec, s, call, id).events)
  {
    var e := AddCall(codec, s, call, id).events;
    DoneItemsThree(e[0], e[1], e[2]);
    assert e[..3] == [e[0], e[1], e[2]];
  }

  lemma PushOutputDone(codec: Codec, s: Stream, out: OutputEvent, ticket: Ticket)
    ensures var e := PushOutput(codec, s, out, ticket); e.stream.output == s.output + DoneItems(e.events)
  {
    match out
    case Reasoning(delta) => PushReasoningDone(s, delta, ItemId("rs", ticket));
    case Text(delta) =>
      var e := CloseReasoning(s);
      CloseReasoningDone(s);
      PushTextDone(e.stream, delta, ItemId("msg", ticket));
      DoneItemsConcat(e.events, PushText(e.stream, delta, ItemId("msg", ticket)).events);
    case Call(call) =>
      var e := CloseAll(s);
      CloseAllDone(s);
      AddCallDone(codec, e.stream, call, ItemId("fc", ticket));
      DoneItemsConcat(e.events, AddCall(codec, e.stream, call, ItemId("fc", ticket)).events);
  }

  /** At every point of every run the items announced as done are exactly the output list. */
  lemma {:induction false} DoneItemsAreOutput(codec: Codec, run: seq<Step>)
    ensures DoneItems(Run(codec, run).events) == Run(codec, run).stream.output
  {
    if run != [] {
      var before, last := Run(codec, run[..|run| - 1]), run[|run| - 1];
      DoneItemsAreOutput(codec, run[..|run| - 1]);
      PushOutputDone(codec, before.stream, last.out, last.ticket);
      DoneItemsConcat(before.events, PushOutput(codec, before.stream, last.out, last.ticket).events);
    }
  }

  lemma FinishEvents(codec: Codec, header: Header, run: seq<Step>, reason: FinishReason, usage: Usage)
    ensures
      var before := Run(codec, run);
      var close := CloseAll(before.stream);
      RunToEnd(codec, header, run, reason, usage).events
      == (before.events + close.events) + [EndEvent(header, close.stream.output, reason, usage)]
  {
  }

  /** A final response, status and reason as clients read them: incomplete exactly when the length limit was hit. */
  predicate Concludes(response: Response, header: Header, reason: FinishReason, usage: Usage) {
    && response.header == header && response.usage == Some(usage)
    && response.status == (if reason.Length? then "incomplete" else "completed")
    && response.incompleteReason == (if reason.Length? then Some("max_output_tokens") else None)
  }

  lemma EndConcludes(header: Header, output: seq<Item>, reason: FinishReason, usage: Usage)
    ensures
      var end := EndEvent(header, output, reason, usage);
      && (if reason.Length? then end.ResponseIncomplete? else end.ResponseCompleted?)
      && Concludes(end.response, header, reason, usage) && end.response.output == output
  {
  }

  /** A finished stream: its terminal event comes last, nothing is left open, and the response it carries has the done
      items in order, the header, the usage, and the status and reason that the finish reason calls for. */
  predicate EndsWith(e: Emit, header: Header, reason: FinishReason, usage: Usage) {
    && e.stream.completed && e.stream.reasoning.None? && e.stream.text.None?
    && e.events != []
    && var last := e.events[|e.events| - 1];
    && (if reason.Length? then last.ResponseIncomplete? else last.ResponseCompleted?)
    && last.response.output == DoneItems(e.events) == e.stream.output
    && Concludes(last.response, header, reason, usage)
  }

  /** Every finished stream ends so, whatever the order of its input. */
  lemma TerminalResponseCarriesDoneItems(
      codec: Codec, header: Header, run: seq<Step>, reason: FinishReason, usage: Usage)
    ensures EndsWith(RunToEnd(codec, header, run, reason, usage), header, reason, usage)
  {
    var before := Run(codec, run);
    var close := CloseAll(before.stream);
    var end := EndEvent(header, close.stream.output, reason, usage);
    FinishLeaves(codec, header, run, reason, usage);
    hide Run, RunToEnd, CloseAll, EndEvent, DoneItems, Concludes;
    DoneItemsAreOutput(codec, run);
    CloseAllDone(before.stream);
    DoneItemsConcat(before.events, close.events);
    DoneItemsSnoc(before.events + close.events, end);
    EndConcludes(header, close.stream.output, reason, usage);
    FinishEvents(codec, header, run, reason, usage);
  }

  lemma FinishLeaves(codec: Codec, header: Header, run: seq<Step>, reason: FinishReason, usage: Usage)
    ensures
      var s := RunToEnd(codec, header, run, reason, usage).stream;
      && s.completed && s.reasoning.None? && s.text.None?
      && s.output == CloseAll(Run(codec, run).stream).stream.output
  {
    hide Run;
  }

  // ---------------------------------------------------------------- deltas agree with what is closed

  function Piece(e: StreamEvent, id: ItemId): string {
    if (e.ReasoningDelta? || e.TextDelta? || e.ArgumentsDelta?) && e.id == id then e.delta else ""
  }

  /** All delta text streamed under one item identity. */
  function DeltasFor(events: seq<StreamEvent>, id: ItemId): string {
    if events == [] then ""
    else DeltasFor(events[..|events| - 1], id) + Piece(events[|events| - 1], id)
  }

  lemma Associative(x: string, y: string, z: string)
    ensures (x + y) + z == x + (y + z)
  {
  }

  lemma {:induction false} DeltasConcat(a: seq<StreamEvent>, b: seq<StreamEvent>, id: ItemId)
    ensures DeltasFor(a + b, id) == DeltasFor(a, id) + DeltasFor(b, id)
  {
    if b == [] {
      assert a + b == a;
    } else {
      var front, last := b[..|b| - 1], b[|b| - 1];
      DeltasConcat(a, front, id);
      assert (a + b)[..|a + b| - 1] == a + front;
      Associative(DeltasFor(a, id), DeltasFor(front, id), Piece(last, id));
    }
  }

  lemma {:induction false} NoDeltas(events: seq<StreamEvent>, id: ItemId)
    requires forall e :: e in events ==> Piece(e, id) == ""
    ensures DeltasFor(events, id) == ""
  {
    if events != [] {
      NoDeltas(events[..|events| - 1], id);
      assert events[|events| - 1] in events;
    }
  }

  lemma NoneSaid(id: ItemId)
    ensures DeltasFor([], id) == ""
  {
  }

  lemma DeltasSnoc(front: seq<StreamEvent>, last: StreamEvent, id: ItemId)
    ensures DeltasFor(front + [last], id) == DeltasFor(front, id) + Piece(last, id)
  {
    assert (front + [last])[..|front|] == front;
  }

  lemma DeltasThree(a: StreamEvent, b: StreamEvent, c: StreamEvent, id: ItemId)
    ensures DeltasFor([a, b, c], id) == Piece(a, id) + Piece(b, id) + Piece(c, id)
  {
    hide DeltasFor, Piece;
    NoneSaid(id);
    DeltasSnoc([], a, id);
    assert [] + [a] == [a];
    assert DeltasFor([a], id) == Piece(a, id);
    DeltasSnoc([a], b, id);
    assert [a] + [b] == [a, b];
    DeltasSnoc([a, b], c, id);
    assert [a, b] + [c] == [a, b, c];
  }

  /** What a closing event says: this item's whole text is that. */
  datatype Claim = NoClaim | Claim(id: ItemId, text: string)

  function ClaimOf(e: StreamEvent): Claim {
    match e
    case ReasoningTextDone(id, _, text) => Claim(id, text)
    case TextDone(id, _, text) => Claim(id, text)
    case ArgumentsDone(id, _, _, arguments) => Claim(id, arguments)
    case ReasoningPartDone(id, _, text) => Claim(id, text)
    case ContentPartDone(id, _, text) => Claim(id, text)
    case ItemDone(_, item) => Claim(item.id, item.Shown())
    case _ => NoClaim
  }

  predicate Open(s: Stream, id: ItemId) {
    (s.reasoning.Some? && s.reasoning.value.id == id) || (s.text.Some? && s.text.value.id == id)
  }

  /** Every claim made so far matches the streamed deltas, and will keep matching:
      deltas only go to open items, and no open item has been claimed. */
  ghost predicate Settled(s: Stream, events: seq<StreamEvent>, used: set<ItemId>) {
    && (forall e :: e in events && (e.ReasoningDelta? || e.TextDelta? || e.ArgumentsDelta?) ==> e.id in used)
    && (forall e :: e in events && ClaimOf(e).Claim? ==>
         var c := ClaimOf(e); c.id in used && !Open(s, c.id) && DeltasFor(events, c.id) == c.text)
    && (s.reasoning.Some? ==>
        s.reasoning.value.id in used && DeltasFor(events, s.reasoning.value.id) == s.reasoning.value.text)
    && (s.text.Some? ==> s.text.value.id in used && DeltasFor(events, s.text.value.id) == s.text.value.text)
    && (s.reasoning.Some? && s.text.Some? ==> s.reasoning.value.id != s.text.value.id)
  }

  lemma UnusedHasNoDeltas(s: Stream, events: seq<StreamEvent>, used: set<ItemId>, id: ItemId)
    requires Settled(s, events, used) && id !in used
    ensures DeltasFor(events, id) == ""
  {
    NoDeltas(events, id);
  }

  lemma UnusedIsNotOpen(s: Stream, events: seq<StreamEvent>, used: set<ItemId>, id: ItemId)
    requires Settled(s, events, used) && id !in used
    ensures !Open(s, id)
  {
  }

  /** Adding three events whose only possible delta goes to `id`. */
  lemma DeltasAfter(events: seq<StreamEvent>, more: seq<StreamEvent>, id: ItemId)
    requires forall e :: e in more ==> Piece(e, id) == ""
    ensures DeltasFor(events + more, id) == DeltasFor(events, id)
  {
    NoDeltas(more, id);
    DeltasConcat(events, more, id);
  }

  /** A step that touches one item: its deltas and claims are all about `target`, whose text becomes `total`. */
  ghost predicate Touches(s: Stream, s': Stream, more: seq<StreamEvent>, target: ItemId, total: string) {
    && (forall e :: e in more && (e.ReasoningDelta? || e.TextDelta? || e.ArgumentsDelta?) ==> e.id == target)
    && (forall e :: e in more && ClaimOf(e).Claim? ==> ClaimOf(e) == Claim(target, total) && !Open(s', target))
    && KeptOrTouched(s.reasoning, s'.reasoning, target, total)
    && KeptOrTouched(s.text, s'.text, target, total)
    && (s'.reasoning.Some? && s'.text.Some? ==> s'.reasoning.value.id != s'.text.value.id)
  }

  predicate KeptOrTouched(was: Option<OpenItem>, now: Option<OpenItem>, target: ItemId, total: string) {
    now.Some? ==> if now.value.id == target then now.value.text == total else now == was
  }

  lemma SettledStep(
      s: Stream, events: seq<StreamEvent>, used: set<ItemId>,
      s': Stream, more: seq<StreamEvent>, target: ItemId, total: string)
    requires Settled(s, events, used)
    requires target in used ==> Open(s, target)
    requires DeltasFor(events + more, target) == total
    requires Touches(s, s', more, target, total)
    ensures Settled(s', events + more, used + {target})
  {
    forall other | other in used && other != target
        ensures DeltasFor(events + more, other) == DeltasFor(events, other) {
      DeltasAfter(events, more, other);
    }
  }

  lemma SettledWiden(s: Stream, events: seq<StreamEvent>, used: set<ItemId>, more: set<ItemId>)
    requires Settled(s, events, used)
    ensures Settled(s, events, used + more)
  {
  }

  lemma OpenReasoningTouches(s: Stream, delta: string, id: ItemId)
    requires delta != "" && s.reasoning.None? && !Open(s, id)
    ensures
      var e := PushReasoning(s, delta, id);
      Touches(s, e.stream, e.events, id, delta) && DeltasFor(e.events, id) == delta
  {
    hide DeltasFor;
    var e := PushReasoning(s, delta, id);
    DeltasThree(e.events[0], e.events[1], e.events[2], id);
  }

  lemma SettledOpenReasoning(s: Stream, events: seq<StreamEvent>, used: set<ItemId>, delta: string, id: ItemId)
    requires Settled(s, events, used) && id !in used && delta != "" && s.reasoning.None?
    ensures var e := PushReasoning(s, delta, id); Settled(e.stream, events + e.events, used + {id})
  {
    var e := PushReasoning(s, delta, id);
    UnusedIsNotOpen(s, events, used, id);
    OpenReasoningTouches(s, delta, id);
    hide Settled, Touches, PushReasoning, DeltasFor;
    DeltasConcat(events, e.events, id);
    UnusedHasNoDeltas(s, events, used, id);
    SettledStep(s, events, used, e.stream, e.events, id, delta);
  }

  lemma SettledMoreReasoning(s: Stream, events: seq<StreamEvent>, used: set<ItemId>, delta: string, id: ItemId)
    requires Settled(s, events, used) && delta != "" && s.reasoning.Some?
    ensures var e := PushReasoning(s, delta, id); Settled(e.stream, events + e.events, used)
  {
    var e, item := PushReasoning(s, delta, id), s.reasoning.value;
    assert e.events == [ReasoningDelta(item.id, item.index, delta)] && e.events[..0] == [];
    DeltasConcat(events, e.events, item.id);
    SettledStep(s, events, used, e.stream, e.events, item.id, item.text + delta);
    assert used + {item.id} == used;
  }

  lemma SettledPushReasoning(s: Stream, events: seq<StreamEvent>, used: set<ItemId>, delta: string, id: ItemId)
    requires Settled(s, events, used) && id !in used
    ensures var e := PushReasoning(s, delta, id); Settled(e.stream, events + e.events, used + {id})
  {
    var e := PushReasoning(s, delta, id);
    if delta == "" {
      assert events + e.events == events;
      SettledWiden(s, events, used, {id});
    } else if s.reasoning.None? {
      SettledOpenReasoning(s, events, used, delta, id);
    } else {
      SettledMoreReasoning(s, events, used, delta, id);
      SettledWiden(e.stream, events + e.events, used, {id});
    }
  }

  lemma OpenTextTouches(s: Stream, delta: string, id: ItemId)
    requires delta != "" && s.text.None? && !Open(s, id)
    ensures
      var e := PushText(s, delta, id);
      Touches(s, e.stream, e.events, id, delta) && DeltasFor(e.events, id) == delta
  {
    hide DeltasFor;
    var e := PushText(s, delta, id);
    DeltasThree(e.events[0], e.events[1], e.events[2], id);
  }

  lemma SettledOpenText(s: Stream, events: seq<StreamEvent>, used: set<ItemId>, delta: string, id: ItemId)
    requires Settled(s, events, used) && id !in used && delta != "" && s.text.None?
    ensures var e := PushText(s, delta, id); Settled(e.stream, events + e.events, used + {id})
  {
    var e := PushText(s, delta, id);
    UnusedIsNotOpen(s, events, used, id);
    OpenTextTouches(s, delta, id);
    hide Settled, Touches, PushText, DeltasFor;
    DeltasConcat(events, e.events, id);
    UnusedHasNoDeltas(s, events, used, id);
    SettledStep(s, events, used, e.stream, e.events, id, delta);
  }

  lemma SettledMoreText(s: Stream, events: seq<StreamEvent>, used: set<ItemId>, delta: string, id: ItemId)
    requires Settled(s, events, used) && delta != "" && s.text.Some?
    ensures var e := PushText(s, delta, id); Settled(e.stream, events + e.events, used)
  {
    var e, item := PushText(s, delta, id), s.text.value;
    assert e.events == [TextDelta(item.id, item.index, delta)] && e.events[..0] == [];
    DeltasConcat(events, e.events, item.id);
    SettledStep(s, events, used, e.stream, e.events, item.id, item.text + delta);
    assert used + {item.id} == used;
  }

  lemma SettledPushText(s: Stream, events: seq<StreamEvent>, used: set<ItemId>, delta: string, id: ItemId)
    requires Settled(s, events, used) && id !in used
    ensures var e := PushText(s, delta, id); Settled(e.stream, events + e.events, used + {id})
  {
    var e := PushText(s, delta, id);
    if delta == "" {
      assert events + e.events == events;
      SettledWiden(s, events, used, {id});
    } else if s.text.None? {
      SettledOpenText(s, events, used, delta, id);
    } else {
      SettledMoreText(s, events, used, delta, id);
      SettledWiden(e.stream, events + e.events, used, {id});
    }
  }

  lemma SettledCloseReasoning(s: Stream, events: seq<StreamEvent>, used: set<ItemId>)
    requires Settled(s, events, used)
    ensures var e := CloseReasoning(s); Settled(e.stream, events + e.events, used)
  {
    var e := CloseReasoning(s);
    if s.reasoning.Some? {
      var item := s.reasoning.value;
      DeltasAfter(events, e.events, item.id);
      SettledStep(s, events, used, e.stream, e.events, item.id, item.text);
      assert used + {item.id} == used;
    } else {
      assert events + e.events == events;
    }
  }

  lemma SettledCloseText(s: Stream, events: seq<StreamEvent>, used: set<ItemId>)
    requires Settled(s, events, used)
    ensures var e := CloseText(s); Settled(e.stream, events + e.events, used)
  {
    var e := CloseText(s);
    if s.text.Some? {
      var item := s.text.value;
      DeltasAfter(events, e.events, item.id);
      SettledStep(s, events, used, e.stream, e.events, item.id, item.text);
      assert used + {item.id} == used;
    } else {
      assert events + e.events == events;
    }
  }

  lemma SettledCloseAll(s: Stream, events: seq<StreamEvent>, used: set<ItemId>)
    requires Settled(s, events, used)
    ensures var e := CloseAll(s); Settled(e.stream, events + e.events, used)
  {
    var e := CloseReasoning(s);
    SettledCloseReasoning(s, events, used);
    SettledCloseText(e.stream, events + e.events, used);
    assert events + CloseAll(s).events == events + e.events + CloseText(e.stream).events;
  }

  lemma CallDeltas(codec: Codec, s: Stream, call: ToolCall, id: ItemId)
    ensures DeltasFor(AddCall(codec, s, call, id).events, id) == codec.write(Obj(call.arguments))
  {
    var e := AddCall(codec, s, call, id).events;
    DeltasThree(e[0], e[1], e[2], id);
    assert e[..3] == [e[0], e[1], e[2]];
  }

  lemma SettledApart(s: Stream, events: seq<StreamEvent>, used: set<ItemId>)
    requires Settled(s, events, used)
    ensures s.reasoning.Some? && s.text.Some? ==> s.reasoning.value.id != s.text.value.id
  {
  }

  lemma CallTouches(codec: Codec, s: Stream, call: ToolCall, id: ItemId)
    requires !Open(s, id) && (s.reasoning.Some? && s.text.Some? ==> s.reasoning.value.id != s.text.value.id)
    ensures var e := AddCall(codec, s, call, id);
      Touches(s, e.stream, e.events, id, codec.write(Obj(call.arguments)))
  {
  }

  lemma SettledAddCall(
      codec: Codec, s: Stream, events: seq<StreamEvent>, used: set<ItemId>, call: ToolCall, id: ItemId)
    requires Settled(s, events, used) && id !in used
    ensures
      var e := AddCall(codec, s, call, id);
      Settled(e.stream, events + e.events, used + {id})
  {
    var e, arguments := AddCall(codec, s, call, id), codec.write(Obj(call.arguments));
    CallDeltas(codec, s, call, id);
    UnusedIsNotOpen(s, events, used, id);
    SettledApart(s, events, used);
    CallTouches(codec, s, call, id);
    hide Settled, Touches, AddCall, DeltasFor;
    UnusedHasNoDeltas(s, events, used, id);
    DeltasConcat(events, e.events, id);
    SettledStep(s, events, used, e.stream, e.events, id, arguments);
  }

  lemma SettledTerminal(s: Stream, events: seq<StreamEvent>, used: set<ItemId>, end: StreamEvent)
    requires Settled(s, events, used) && (end.ResponseCompleted? || end.ResponseIncomplete?)
    ensures Settled(s, events + [end], used)
  {
    forall id ensures DeltasFor(events + [end], id) == DeltasFor(events, id) { DeltasAfter(events, [end], id); }
  }

  lemma SettledPushOutput(
      codec: Codec, s: Stream, events: seq<StreamEvent>, used: set<ItemId>, out: OutputEvent, ticket: Ticket)
    requires Settled(s, events, used) && used !! IdsOf(ticket)
    ensures var e := PushOutput(codec, s, out, ticket); Settled(e.stream, events + e.events, used + IdsOf(ticket))
  {
    var e := PushOutput(codec, s, out, ticket);
    match out {
      case Reasoning(delta) => SettledPushReasoning(s, events, used, delta, ItemId("rs", ticket));
      case Text(delta) =>
        var c := CloseReasoning(s);
        SettledCloseReasoning(s, events, used);
        SettledPushText(c.stream, events + c.events, used, delta, ItemId("msg", ticket));
        assert events + e.events == events + c.events + PushText(c.stream, delta, ItemId("msg", ticket)).events;
      case Call(call) =>
        var c := CloseAll(s);
        SettledCloseAll(s, events, used);
        SettledAddCall(codec, c.stream, events + c.events, used, call, ItemId("fc", ticket));
        assert events + e.events == events + c.events + AddCall(codec, c.stream, call, ItemId("fc", ticket)).events;
    }
  }

  // Identities of distinct tickets differ.

  function IdsOf(ticket: Ticket): set<ItemId> { {ItemId("rs", ticket), ItemId("msg", ticket), ItemId("fc", ticket)} }

  function IdsOfRun(run: seq<Step>): set<ItemId> {
    if run == [] then {} else IdsOfRun(run[..|run| - 1]) + IdsOf(run[|run| - 1].ticket)
  }

  lemma {:induction false} IdsStayFresh(run: seq<Step>, ticket: Ticket)
    requires forall i :: 0 <= i < |run| ==> run[i].ticket != ticket
    ensures IdsOfRun(run) !! IdsOf(ticket)
  {
    if run != [] {
      IdsStayFresh(run[..|run| - 1], ticket);
    }
  }

  lemma {:induction false} RunSettled(codec: Codec, run: seq<Step>)
    requires DistinctTickets(run)
    ensures Settled(Run(codec, run).stream, Run(codec, run).events, IdsOfRun(run))
  {
    if run != [] {
      var front, last := run[..|run| - 1], run[|run| - 1];
      RunSettled(codec, front);
      IdsStayFresh(front, last.ticket);
      SettledPushOutput(codec, Run(codec, front).stream, Run(codec, front).events, IdsOfRun(front), last.out,
          last.ticket);
    }
  }

  /** In a finished stream, whatever the order of the input, every closing event (text done, part done,
      arguments done, item done) states exactly the concatenation of the deltas streamed under its identity. */
  lemma DeltasMatchClosingEvents(
      codec: Codec, header: Header, run: seq<Step>, reason: FinishReason, usage: Usage, e: StreamEvent)
    requires DistinctTickets(run)
    requires e in RunToEnd(codec, header, run, reason, usage).events && ClaimOf(e).Claim?
    ensures DeltasFor(RunToEnd(codec, header, run, reason, usage).events, ClaimOf(e).id) == ClaimOf(e).text
  {
    var before := Run(codec, run);
    var close := CloseAll(before.stream);
    var end := EndEvent(header, close.stream.output, reason, usage);
    RunSettled(codec, run);
    SettledCloseAll(before.stream, before.events, IdsOfRun(run));
    FinishEvents(codec, header, run, reason, usage);
    SettledTerminal(close.stream, before.events + close.events, IdsOfRun(run), end);
  }
}
