/** The shape of a whole streamed answer, on both APIs: how it opens, what may come in between, and how it ends. */
module Streams {
  import opened Wrappers
  import opened Json
  import opened ChatModel
  import opened Handlers
  import opened Responses
  import R = ResponseRuns
  import C = ChatCompletions

  // ---------------------------------------------------------------- the Responses stream

  /** The opening event: a response in progress, with nothing in it yet. */
  predicate Opens(event: StreamEvent, header: Header) {
    && event.Created? && event.response.header == header && event.response.status == "in_progress"
    && event.response.incompleteReason == None && event.response.output == [] && event.response.usage == None
  }

  /** Neither an opening nor a final event. */
  predicate Between(event: StreamEvent) {
    !(event.Created? || event.ResponseCompleted? || event.ResponseIncomplete? || event.Failed?)
  }

  predicate AllBetween(events: seq<StreamEvent>) { forall i :: 0 <= i < |events| ==> Between(events[i]) }

  lemma TextBetween(s: Stream, delta: string, id: ItemId)
    ensures AllBetween(PushText(s, delta, id).events)
  {
  }

  lemma ReasoningBetween(s: Stream, delta: string, id: ItemId)
    ensures AllBetween(PushReasoning(s, delta, id).events)
  {
  }

  lemma ClosingBetween(s: Stream)
    ensures AllBetween(CloseAll(s).events) && AllBetween(CloseReasoning(s).events)
  {
  }

  lemma CallBetween(codec: Codec, s: Stream, call: ToolCall, id: ItemId)
    ensures AllBetween(AddCall(codec, s, call, id).events)
  {
  }

  lemma StepBetween(codec: Codec, s: Stream, out: OutputEvent, ticket: Ticket)
    ensures AllBetween(PushOutput(codec, s, out, ticket).events)
  {
    hide Between, PushText, PushReasoning, CloseAll, CloseReasoning, AddCall;
    ClosingBetween(s);
    match out
    case Reasoning(delta) => ReasoningBetween(s, delta, ItemId("rs", ticket));
    case Text(delta) => TextBetween(CloseReasoning(s).stream, delta, ItemId("msg", ticket));
    case Call(call) => CallBetween(codec, CloseAll(s).stream, call, ItemId("fc", ticket));
  }

  lemma {:induction false} RunBetween(codec: Codec, run: seq<R.Step>)
    ensures AllBetween(R.Run(codec, run).events)
  {
    if run != [] {
      var front, last := run[..|run| - 1], run[|run| - 1];
      RunBetween(codec, front);
      hide PushOutput, Between;
      StepBetween(codec, R.Run(codec, front).stream, last.out, last.ticket);
    }
  }

  /** How a stream that was shown to its end says what the other clients are told. */
  predicate EndsAs(last: StreamEvent, answer: Result<Response, AnswerError>) {
    match answer
    case Ok(response) => !last.Failed? && !Between(last) && last.response == response
    case Err(Reported(message)) => last == Failed(message)
    case Err(ClosedEarly) => Between(last) || last.Created?
  }

  /** The final event of a stream that reached one, and everything before it. */
  lemma Final(codec: Codec, header: Header, events: seq<InferenceEvent>, tickets: seq<Ticket>)
    returns (before: seq<StreamEvent>, last: StreamEvent)
    requires |events| <= |tickets| && FirstTerminal(events) < |events|
    ensures StreamedResponse(codec, header, events, tickets) == [CreatedEvent(header)] + before + [last]
    ensures AllBetween(before) && !Between(last) && !last.Created?
    ensures EndsAs(last, WholeResponse(codec, header, events, tickets))
  {
    hide FirstTerminal, Steps, R.Run, CloseAll, CreatedEvent;
    var n := FirstTerminal(events);
    var run := R.Run(codec, Steps(events, tickets, n));
    RunBetween(codec, Steps(events, tickets, n));
    match events[n]
    case Finished(reason, usage) =>
      var close := CloseAll(run.stream);
      ClosingBetween(run.stream);
      before, last := run.events + close.events, EndEvent(header, close.stream.output, reason, usage);
      assert [CreatedEvent(header)] + run.events + (close.events + [last]) == [CreatedEvent(header)] + before + [last];
    case Error(message) =>
      before, last := run.events, Failed(message);
  }

  /** A streamed answer opens once, in progress and empty, and ends at most once, with its very last event; the event
      it ends with carries exactly what a client that does not stream is told. Without a final event that client is
      told that the request was lost. */
  lemma StreamEndsAsAnswered(codec: Codec, header: Header, events: seq<InferenceEvent>, tickets: seq<Ticket>)
    requires |events| <= |tickets|
    ensures
      var shown := StreamedResponse(codec, header, events, tickets);
      && shown != [] && Opens(shown[0], header)
      && (forall i :: 0 < i < |shown| - 1 ==> Between(shown[i]))
      && EndsAs(shown[|shown| - 1], WholeResponse(codec, header, events, tickets))
  {
    hide FirstTerminal, Steps, R.Run, Push;
    var shown := StreamedResponse(codec, header, events, tickets);
    var n := FirstTerminal(events);
    if n < |events| {
      hide StreamedResponse, WholeResponse;
      var before, last := Final(codec, header, events, tickets);
      forall i | 0 < i < |shown| - 1 ensures Between(shown[i]) { assert shown[i] == before[i - 1]; }
    } else {
      RunBetween(codec, Steps(events, tickets, n));
    }
  }

  // ---------------------------------------------------------------- the chat stream

  /** A chunk that says something: text, reasoning or a call, with no finish reason, and with a null usage member
      exactly when usage was asked for. */
  predicate Talks(chunk: C.Chunk, includeUsage: bool) {
    && chunk.Choice? && chunk.finish == None && chunk.nullUsage == includeUsage
    && match chunk.delta
       case ContentDelta(text) => text != ""
       case ReasoningDelta(text) => text != ""
       case ToolDelta(_, _) => true
       case _ => false
  }

  predicate AllTalk(chunks: seq<C.Chunk>, includeUsage: bool) {
    forall i :: 0 <= i < |chunks| ==> Talks(chunks[i], includeUsage)
  }

  lemma ChunkTalks(codec: Codec, includeUsage: bool, s: C.State, out: OutputEvent)
    ensures AllTalk(C.Push(codec, includeUsage, s, Output(out)).chunks, includeUsage)
  {
  }

  lemma {:induction false} RunTalks(codec: Codec, includeUsage: bool, outs: seq<OutputEvent>)
    returns (talk: seq<C.Chunk>)
    ensures C.Run(codec, includeUsage, outs).chunks == [C.Choice(C.Opening, None, includeUsage)] + talk
    ensures AllTalk(talk, includeUsage)
  {
    if outs == [] {
      talk := [];
    } else {
      var front, last := outs[..|outs| - 1], outs[|outs| - 1];
      talk := RunTalks(codec, includeUsage, front);
      hide C.Push, Talks;
      var next := C.Push(codec, includeUsage, C.Run(codec, includeUsage, front).state, Output(last));
      ChunkTalks(codec, includeUsage, C.Run(codec, includeUsage, front).state, last);
      talk := talk + next.chunks;
    }
  }

  /** How a chat stream closes: one chunk with the finish reason and nothing else, then a usage chunk exactly when it
      was asked for; or the error. */
  predicate ClosesAs(closing: seq<C.Chunk>, includeUsage: bool, end: InferenceEvent) {
    match end
    case Finished(reason, usage) =>
      && |closing| == (if includeUsage then 2 else 1)
      && closing[0].Choice? && closing[0].delta.Nothing? && closing[0].nullUsage == includeUsage
      && closing[0].finish.Some? && C.FinishSays(closing[0].finish.value, reason)
      && (includeUsage ==> closing[1] == C.UsageReport(usage))
    case Error(message) => closing == [C.Failure(message)]
    case Output(_) => false
  }

  /** A chat stream opens with the role, talks, and closes when the request ended, and only then with the marker;
      a stream that was cut short does neither. */
  lemma ChatStreamShape(codec: Codec, includeUsage: bool, events: seq<InferenceEvent>)
    returns (talk: seq<C.Chunk>, closing: seq<C.Chunk>)
    ensures StreamedChat(codec, includeUsage, events)
            == [C.Choice(C.Opening, None, includeUsage)] + talk + closing
    ensures AllTalk(talk, includeUsage)
    ensures var n := FirstTerminal(events);
      if n < |events| then ClosesAs(closing, includeUsage, events[n]) else closing == []
    ensures ChatFrames(codec, includeUsage, events)
            == Frames([C.Choice(C.Opening, None, includeUsage)] + talk + closing)
               + if closing == [] then [] else [DoneMark]
  {
    hide FirstTerminal, OutsOf, C.Run, Frames;
    var n := FirstTerminal(events);
    talk := RunTalks(codec, includeUsage, OutsOf(events, n));
    closing :=
      if n < |events|
      then C.Push(codec, includeUsage, C.Run(codec, includeUsage, OutsOf(events, n)).state, events[n]).chunks
      else [];
    C.ReasonSays(if n < |events| && events[n].Finished? then events[n].reason else Eos);
  }
}
