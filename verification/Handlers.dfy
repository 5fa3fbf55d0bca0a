/** The HTTP handlers' receive loops, each holding a guard that cancels the request unless it was disarmed. */
module Handlers {
  import opened Wrappers
  import opened Json
  import opened ChatModel
  import opened DecisionModel
  import opened Actor
  import opened Responses
  import R = ResponseRuns
  import C = ChatCompletions

  // ---------------------------------------------------------------- the objects a loop works with

  /** The handle through which commands reach the actor. */
  class CommandSender {
    var sent: seq<Command>

    constructor ()
      ensures sent == []
    {
      sent := [];
    }

    method CancelRequest(id: ExternalId)
      modifies this
      ensures sent == old(sent) + [Cancel(id)]
    {
      sent := sent + [Cancel(id)];
    }
  }

  class CancellationGuard {
    var actor: CommandSender?
    const requestId: ExternalId

    constructor (actor: CommandSender, requestId: ExternalId)
      ensures this.actor == actor && this.requestId == requestId
    {
      this.actor, this.requestId := actor, requestId;
    }

    method Disarm()
      modifies this
      ensures actor == null
    {
      actor := null;
    }

    /** Runs when the guard goes out of scope. */
    method Drop()
      modifies actor
      ensures actor == old(actor)
      ensures actor != null ==> actor.sent == old(actor.sent) + [Cancel(requestId)]
    {
      if actor != null { actor.CancelRequest(requestId); }
    }
  }

  /** The receiving end of an event channel: what will arrive before it closes or falls silent. */
  class EventReceiver {
    const events: seq<InferenceEvent>
    var taken: nat

    constructor (events: seq<InferenceEvent>)
      ensures this.events == events && taken == 0
    {
      this.events, taken := events, 0;
    }

    method Recv() returns (event: Option<InferenceEvent>)
      modifies this
      ensures event == if old(taken) < |events| then Some(events[old(taken)]) else None
      ensures taken == if old(taken) < |events| then old(taken) + 1 else old(taken)
    {
      if taken >= |events| { return None; }
      event, taken := Some(events[taken]), taken + 1;
    }
  }

  // ---------------------------------------------------------------- what the loops should do

  /** The position of the first terminal event, or the number of events if there is none. */
  function FirstTerminal(events: seq<InferenceEvent>): (n: nat)
    ensures n <= |events|
    ensures forall i :: 0 <= i < n ==> events[i].Output?
    ensures n < |events| ==> events[n].Terminal()
  {
    FirstTerminalFrom(events, 0)
  }

  function FirstTerminalFrom(events: seq<InferenceEvent>, from: nat): (n: nat)
    requires from <= |events|
    ensures from <= n <= |events|
    ensures forall i :: from <= i < n ==> events[i].Output?
    ensures n < |events| ==> events[n].Terminal()
    decreases |events| - from
  {
    if from == |events| || events[from].Terminal() then from else FirstTerminalFrom(events, from + 1)
  }

  /** The output events before the first terminal one, with the counter values they draw. */
  function Steps(events: seq<InferenceEvent>, tickets: seq<Ticket>, n: nat): (run: seq<R.Step>)
    requires n <= FirstTerminal(events) && |events| <= |tickets|
    ensures |run| == n
  {
    if n == 0 then [] else Steps(events, tickets, n - 1) + [R.Step(events[n - 1].event, tickets[n - 1])]
  }

  function OutsOf(events: seq<InferenceEvent>, n: nat): (outs: seq<OutputEvent>)
    requires n <= FirstTerminal(events)
    ensures |outs| == n
  {
    if n == 0 then [] else OutsOf(events, n - 1) + [events[n - 1].event]
  }

  function CreatedEvent(header: Header): StreamEvent {
    Created(Response(header, "in_progress", None, [], None))
  }

  /** Everything a patient streaming client is shown: the opening event, then the events of each inference event
      up to and including the first terminal one. */
  function StreamedResponse(codec: Codec, header: Header, events: seq<InferenceEvent>,
      tickets: seq<Ticket>): seq<StreamEvent>
    requires |events| <= |tickets|
  {
    var n := FirstTerminal(events);
    var e := R.Run(codec, Steps(events, tickets, n));
    [CreatedEvent(header)] + e.events +
    (if n < |events| then Push(codec, header, e.stream, events[n], tickets[n]).events else [])
  }

  /** Why a non-streaming client gets no answer: the actor reported an error, or its channel closed without an end. */
  datatype AnswerError = Reported(message: string) | ClosedEarly

  /** What a non-streaming client is told: the response built from everything before the end, or the error. */
  function WholeResponse(codec: Codec, header: Header, events: seq<InferenceEvent>, tickets: seq<Ticket>)
    : Result<Response, AnswerError>
    requires |events| <= |tickets|
  {
    var n := FirstTerminal(events);
    if n == |events| then Err(ClosedEarly)
    else match events[n]
      case Finished(reason, usage) =>
        var output := R.RunToEnd(codec, header, Steps(events, tickets, n), reason, usage).stream.output;
        Ok(EndEvent(header, output, reason, usage).response)
      case Error(message) => Err(Reported(message))
      case Output(_) => Err(ClosedEarly)
  }

  function StreamedChat(codec: Codec, includeUsage: bool, events: seq<InferenceEvent>): seq<C.Chunk> {
    var n := FirstTerminal(events);
    var e := C.Run(codec, includeUsage, OutsOf(events, n));
    e.chunks + (if n < |events| then C.Push(codec, includeUsage, e.state, events[n]).chunks else [])
  }

  function WholeChat(codec: Codec, includeUsage: bool, events: seq<InferenceEvent>): Result<C.Completion, AnswerError> {
    var n := FirstTerminal(events);
    if n == |events| then Err(ClosedEarly)
    else match events[n]
      case Finished(reason, usage) =>
        Ok(C.Answer(codec, C.RunToEnd(codec, includeUsage, OutsOf(events, n), reason, usage).state).value)
      case Error(message) => Err(Reported(message))
      case Output(_) => Err(ClosedEarly)
  }

  predicate Ends(event: StreamEvent) { event.ResponseCompleted? || event.ResponseIncomplete? || event.Failed? }

  /** Output events neither complete the stream nor produce a final event. */
  lemma OutputsAreQuiet(codec: Codec, s: Stream, out: OutputEvent, ticket: Ticket)
    ensures
      var e := PushOutput(codec, s, out, ticket);
      e.stream.completed == s.completed && forall i :: 0 <= i < |e.events| ==> !Ends(e.events[i])
  {
  }

  lemma ClosingIsQuiet(s: Stream)
    ensures
      var e := CloseAll(s);
      e.stream.completed == s.completed && forall i :: 0 <= i < |e.events| ==> !Ends(e.events[i])
  {
  }

  /** One more output event extends the run by its step. */
  lemma RunGrows(codec: Codec, events: seq<InferenceEvent>, tickets: seq<Ticket>, n: nat)
    requires n < FirstTerminal(events) && |events| <= |tickets|
    ensures
      var before := R.Run(codec, Steps(events, tickets, n));
      R.Run(codec, Steps(events, tickets, n + 1))
      == before.Then(PushOutput(codec, before.stream, events[n].event, tickets[n]))
  {
    var run := Steps(events, tickets, n + 1);
    assert run[..n] == Steps(events, tickets, n);
  }

  lemma {:induction false} RunIsOpen(codec: Codec, events: seq<InferenceEvent>, tickets: seq<Ticket>, n: nat)
    requires n <= FirstTerminal(events) && |events| <= |tickets|
    ensures !R.Run(codec, Steps(events, tickets, n)).stream.completed
  {
    if n > 0 {
      RunIsOpen(codec, events, tickets, n - 1);
      RunGrows(codec, events, tickets, n - 1);
      OutputsAreQuiet(codec, R.Run(codec, Steps(events, tickets, n - 1)).stream, events[n - 1].event, tickets[n - 1]);
    }
  }

  lemma {:induction false} EarlierRunsArePrefixes(codec: Codec, events: seq<InferenceEvent>, tickets: seq<Ticket>,
      i: nat, n: nat)
    requires i <= n <= FirstTerminal(events) && |events| <= |tickets|
    ensures R.Run(codec, Steps(events, tickets, i)).events <= R.Run(codec, Steps(events, tickets, n)).events
    decreases n
  {
    if i < n {
      EarlierRunsArePrefixes(codec, events, tickets, i, n - 1);
      RunGrows(codec, events, tickets, n - 1);
    }
  }

  lemma ChatGrows(codec: Codec, includeUsage: bool, events: seq<InferenceEvent>, n: nat)
    requires n < FirstTerminal(events)
    ensures
      var before := C.Run(codec, includeUsage, OutsOf(events, n));
      var next := C.Push(codec, includeUsage, before.state, events[n]);
      C.Run(codec, includeUsage, OutsOf(events, n + 1)) == C.Emit(next.state, before.chunks + next.chunks)
  {
    var outs := OutsOf(events, n + 1);
    assert outs[..n] == OutsOf(events, n);
  }

  lemma {:induction false} EarlierChunksArePrefixes(codec: Codec, includeUsage: bool, events: seq<InferenceEvent>,
      i: nat, n: nat)
    requires i <= n <= FirstTerminal(events)
    ensures C.Run(codec, includeUsage, OutsOf(events, i)).chunks <= C.Run(codec, includeUsage, OutsOf(events, n)).chunks
    decreases n
  {
    if i < n {
      EarlierChunksArePrefixes(codec, includeUsage, events, i, n - 1);
      ChatGrows(codec, includeUsage, events, n - 1);
    }
  }

  /** The answer carried by the first final event, if there is one. */
  function FirstEnd(events: seq<StreamEvent>): Option<Result<Response, AnswerError>> {
    if events == [] then None
    else match events[0]
      case ResponseCompleted(response) => Some(Ok(response))
      case ResponseIncomplete(response) => Some(Ok(response))
      case Failed(message) => Some(Err(Reported(message)))
      case _ => FirstEnd(events[1..])
  }

  lemma {:induction false} LastEnd(quiet: seq<StreamEvent>, last: StreamEvent)
    requires forall j :: 0 <= j < |quiet| ==> !Ends(quiet[j])
    ensures FirstEnd(quiet) == None && FirstEnd(quiet + [last]) == FirstEnd([last])
  {
    if quiet == [] {
      assert quiet + [last] == [last];
    } else {
      LastEnd(quiet[1..], last);
      assert (quiet + [last])[1..] == quiet[1..] + [last];
    }
  }

  lemma NoSteps(codec: Codec, events: seq<InferenceEvent>, tickets: seq<Ticket>)
    requires |events| <= |tickets|
    ensures R.Run(codec, Steps(events, tickets, 0)) == Emit(FRESH, [])
  {
  }

  /** Pushing a non-terminal event extends the run and completes nothing; pushing the first terminal one completes the
      stream and produces the answer. */
  lemma StepAnswer(codec: Codec, header: Header, events: seq<InferenceEvent>, tickets: seq<Ticket>, i: nat)
    requires |events| <= |tickets| && i < |events| && i <= FirstTerminal(events)
    ensures
      var run := R.Run(codec, Steps(events, tickets, i));
      var e := Push(codec, header, run.stream, events[i], tickets[i]);
      if i < FirstTerminal(events)
      then run.Then(e) == R.Run(codec, Steps(events, tickets, i + 1)) && !e.stream.completed
          && FirstEnd(e.events) == None
      else e.stream.completed && FirstEnd(e.events) == Some(WholeResponse(codec, header, events, tickets))
  {
    var s := R.Run(codec, Steps(events, tickets, i)).stream;
    if i < FirstTerminal(events) {
      RunGrows(codec, events, tickets, i);
      RunIsOpen(codec, events, tickets, i + 1);
      OutputsAreQuiet(codec, s, events[i].event, tickets[i]);
      LastEnd(PushOutput(codec, s, events[i].event, tickets[i]).events, Failed(""));
    } else {
      EndAnswers(codec, header, s, events[i], tickets[i]);
    }
  }

  lemma EndAnswers(codec: Codec, header: Header, s: Stream, inference: InferenceEvent, ticket: Ticket)
    requires inference.Terminal()
    ensures
      var e := Push(codec, header, s, inference, ticket);
      && e.stream.completed
      && FirstEnd(e.events) == Some(
           if inference.Error? then Err(Reported(inference.message))
           else Ok(EndEvent(header, CloseAll(s).stream.output, inference.reason, inference.usage).response))
  {
    if inference.Finished? {
      ClosingIsQuiet(s);
      LastEnd(CloseAll(s).events, EndEvent(header, CloseAll(s).stream.output, inference.reason, inference.usage));
    }
  }

  // ---------------------------------------------------------------- whole answers

  /** One turn of the loop: pushes the next event and looks among what it produced for the final one. */
  method AnswerOf(inference: InferenceEvent, ticket: Ticket, response: ResponseStream)
    returns (answer: Option<Result<Response, AnswerError>>)
    modifies response
    ensures
      var e := Push(response.codec, response.header, old(response.State()), inference, ticket);
      response.State() == e.stream && answer == FirstEnd(e.events)
  {
    hide Push, FirstEnd;
    var events := response.PushEvent(inference, ticket);
    answer := FinalAmong(events);
  }

  lemma EndsNow(events: seq<StreamEvent>, j: nat)
    requires j < |events| && Ends(events[j])
    ensures FirstEnd(events[j..])
            == Some(if events[j].Failed? then Err(Reported(events[j].message)) else Ok(events[j].response))
  {
  }

  lemma EndsLater(events: seq<StreamEvent>, j: nat)
    requires j < |events| && !Ends(events[j])
    ensures FirstEnd(events[j..]) == FirstEnd(events[j + 1..])
  {
    assert events[j..][1..] == events[j + 1..];
  }

  /** Looks among the events for the final one. */
  method FinalAmong(events: seq<StreamEvent>) returns (answer: Option<Result<Response, AnswerError>>)
    ensures answer == FirstEnd(events)
  {
    assert events[0..] == events;
    NoEnd(events[|events|..]);
    hide FirstEnd;
    var j := 0;
    while j < |events|
      invariant 0 <= j <= |events| && FirstEnd(events) == FirstEnd(events[j..])
    {
      if events[j].ResponseCompleted? || events[j].ResponseIncomplete? {
        EndsNow(events, j);
        return Some(Ok(events[j].response));
      } else if events[j].Failed? {
        EndsNow(events, j);
        return Some(Err(Reported(events[j].message)));
      }
      EndsLater(events, j);
      j := j + 1;
    }
    answer := None;
  }

  lemma NoEnd(events: seq<StreamEvent>)
    requires events == []
    ensures FirstEnd(events) == None
  {
  }

  /** The answering loop has its answer right after the first terminal event; before, it follows the run. */
  predicate Awaiting(
      codec: Codec, header: Header, all: seq<InferenceEvent>, tickets: seq<Ticket>, taken: nat, stream: Stream,
      answer: Option<Result<Response, AnswerError>>)
    requires |all| <= |tickets|
  {
    var n := FirstTerminal(all);
    if answer.Some? then taken == n + 1 <= |all| && answer.value == WholeResponse(codec, header, all, tickets)
    else taken <= n && stream == R.Run(codec, Steps(all, tickets, taken)).stream
  }

  lemma AwaitingStart(codec: Codec, header: Header, all: seq<InferenceEvent>, tickets: seq<Ticket>)
    requires |all| <= |tickets|
    ensures Awaiting(codec, header, all, tickets, 0, FRESH, None)
  {
    NoSteps(codec, all, tickets);
  }

  lemma AwaitingNext(
      codec: Codec, header: Header, all: seq<InferenceEvent>, tickets: seq<Ticket>, taken: nat, stream: Stream)
    requires |all| <= |tickets| && taken < |all| && Awaiting(codec, header, all, tickets, taken, stream, None)
    ensures
      var e := Push(codec, header, stream, all[taken], tickets[taken]);
      Awaiting(codec, header, all, tickets, taken + 1, e.stream, FirstEnd(e.events))
  {
    hide Push, R.Run, Steps, FirstTerminal, FirstEnd, WholeResponse;
    StepAnswer(codec, header, all, tickets, taken);
  }

  lemma AwaitingDone(
      codec: Codec, header: Header, all: seq<InferenceEvent>, tickets: seq<Ticket>, taken: nat, stream: Stream,
      answer: Option<Result<Response, AnswerError>>)
    requires |all| <= |tickets| && Awaiting(codec, header, all, tickets, taken, stream, answer)
    requires answer.Some? || taken >= |all|
    ensures
      var n := FirstTerminal(all);
      && answer.GetOr(Err(ClosedEarly)) == WholeResponse(codec, header, all, tickets)
      && (if n < |all| then answer.Some? && taken == n + 1 else answer.None? && taken == n)
  {
    hide R.Run, Steps, R.RunToEnd, EndEvent;
  }

  /** Answers with the response of the final event. The request is cancelled exactly when its events
      ran out before a terminal one, and nothing after the terminal event is read. */
  method AnswerWhole(
      actor: CommandSender, id: ExternalId, receiver: EventReceiver, tickets: seq<Ticket>, response: ResponseStream)
    returns (result: Result<Response, AnswerError>)
    requires receiver.taken == 0 && |receiver.events| <= |tickets| && response.State() == FRESH
    modifies actor, receiver, response
    ensures result == WholeResponse(response.codec, response.header, receiver.events, tickets)
    ensures
      var n := FirstTerminal(receiver.events);
      if n < |receiver.events| then receiver.taken == n + 1 && actor.sent == old(actor.sent)
      else receiver.taken == n && actor.sent == old(actor.sent) + [Cancel(id)]
  {
    var cancellation := new CancellationGuard(actor, id);
    ghost var codec, header, all := response.codec, response.header, receiver.events;
    AwaitingStart(codec, header, all, tickets);
    hide Push, Awaiting, FirstTerminal, FirstEnd, WholeResponse;
    var answer: Option<Result<Response, AnswerError>> := None;
    while receiver.taken < |receiver.events| && answer.None?
      modifies receiver, response
      invariant Awaiting(codec, header, all, tickets, receiver.taken, response.State(), answer)
      decreases |receiver.events| - receiver.taken
    {
      AwaitingNext(codec, header, all, tickets, receiver.taken, response.State());
      var inference := receiver.Recv();
      answer := AnswerOf(inference.value, tickets[receiver.taken - 1], response);
    }
    AwaitingDone(codec, header, all, tickets, receiver.taken, response.State(), answer);
    if answer.Some? { cancellation.Disarm(); }
    cancellation.Drop();
    result := answer.GetOr(Err(ClosedEarly));
  }

  /** The same for the chat loop. */
  predicate AwaitingChat(codec: Codec, includeUsage: bool, all: seq<InferenceEvent>, taken: nat, state: C.State,
      answer: Option<Result<C.Completion, AnswerError>>)
  {
    var n := FirstTerminal(all);
    if answer.Some? then taken == n + 1 <= |all| && answer.value == WholeChat(codec, includeUsage, all)
    else taken <= n && state == C.Run(codec, includeUsage, OutsOf(all, taken)).state
  }

  lemma AwaitingChatStart(codec: Codec, includeUsage: bool, all: seq<InferenceEvent>)
    ensures AwaitingChat(codec, includeUsage, all, 0, C.FRESH, None)
  {
    hide FirstTerminal, OutsOf, C.Run;
    ChatOpens(codec, includeUsage, all);
  }

  function AnswerIn(codec: Codec, state: C.State): Option<Result<C.Completion, AnswerError>> {
    if state.error.Some? then Some(Err(Reported(state.error.value)))
    else
      var whole := C.Answer(codec, state);
      if whole.Some? then Some(Ok(whole.value)) else None
  }

  lemma AwaitingChatNext(
      codec: Codec, includeUsage: bool, all: seq<InferenceEvent>, taken: nat, state: C.State)
    requires taken < |all| && AwaitingChat(codec, includeUsage, all, taken, state, None)
    ensures
      var e := C.Push(codec, includeUsage, state, all[taken]);
      AwaitingChat(codec, includeUsage, all, taken + 1, e.state, AnswerIn(codec, e.state))
  {
    hide C.Push, C.Run, OutsOf, FirstTerminal, WholeChat, C.MessageJson;
    ChatStep(codec, includeUsage, all, taken);
  }

  lemma AwaitingChatDone(
      codec: Codec, includeUsage: bool, all: seq<InferenceEvent>, taken: nat, state: C.State,
      answer: Option<Result<C.Completion, AnswerError>>)
    requires AwaitingChat(codec, includeUsage, all, taken, state, answer) && (answer.Some? || taken >= |all|)
    ensures
      var n := FirstTerminal(all);
      if n < |all| then taken == n + 1 && answer == Some(WholeChat(codec, includeUsage, all))
      else taken == n && answer == None
  {
    hide C.Run, OutsOf, WholeChat;
  }

  method ReadChat(receiver: EventReceiver, response: C.ChatCompletionStream)
    returns (answer: Option<Result<C.Completion, AnswerError>>)
    requires receiver.taken == 0 && response.Now() == C.FRESH
    modifies receiver, response
    ensures
      var n := FirstTerminal(receiver.events);
      if n < |receiver.events|
      then receiver.taken == n + 1 && answer == Some(WholeChat(response.codec, response.includeUsage, receiver.events))
      else receiver.taken == n && answer == None
  {
    ghost var codec, usage, all := response.codec, response.includeUsage, receiver.events;
    hide C.Push, C.MessageJson, AwaitingChat, FirstTerminal, WholeChat, AnswerIn;
    AwaitingChatStart(codec, usage, all);
    answer := None;
    while receiver.taken < |receiver.events| && answer.None?
      invariant AwaitingChat(codec, usage, all, receiver.taken, response.Now(), answer)
      decreases |receiver.events| - receiver.taken
    {
      AwaitingChatNext(codec, usage, all, receiver.taken, response.Now());
      var inference := receiver.Recv();
      answer := ChatAnswerOf(inference.value, response);
    }
    AwaitingChatDone(codec, usage, all, receiver.taken, response.Now(), answer);
  }

  /** One turn of the loop: pushes the next event and looks for the answer in the accumulator. */
  method ChatAnswerOf(inference: InferenceEvent, response: C.ChatCompletionStream)
    returns (answer: Option<Result<C.Completion, AnswerError>>)
    modifies response
    ensures
      var e := C.Push(response.codec, response.includeUsage, old(response.Now()), inference);
      response.Now() == e.state && answer == AnswerIn(response.codec, e.state)
  {
    hide C.Push, C.MessageJson, C.Answer;
    var chunks := response.PushEvent(inference);
    if response.error.Some? { return Some(Err(Reported(response.error.value))); }
    var whole := C.Answer(response.codec, C.State(response.content, response.reasoning, response.toolCalls,
                                                  response.finished, response.error));
    answer := if whole.Some? then Some(Ok(whole.value)) else None;
  }

  method AnswerWholeChat(actor: CommandSender, id: ExternalId, receiver: EventReceiver,
      response: C.ChatCompletionStream)
    returns (result: Result<C.Completion, AnswerError>)
    requires receiver.taken == 0 && response.Now() == C.FRESH
    modifies actor, receiver, response
    ensures result == WholeChat(response.codec, response.includeUsage, receiver.events)
    ensures
      var n := FirstTerminal(receiver.events);
      if n < |receiver.events| then receiver.taken == n + 1 && actor.sent == old(actor.sent)
      else receiver.taken == n && actor.sent == old(actor.sent) + [Cancel(id)]
  {
    hide FirstTerminal, C.RunToEnd, C.MessageJson, OutsOf;
    var cancellation := new CancellationGuard(actor, id);
    var answer := ReadChat(receiver, response);
    if answer.Some? { cancellation.Disarm(); }
    cancellation.Drop();
    result := answer.GetOr(Err(ClosedEarly));
  }

  // ---------------------------------------------------------------- decisions

  /** How waiting for a decision can end. */
  datatype Wait = TimedOut | SenderGone | Told(outcome: Outcome)

  datatype DecisionFailure = Timeout | Abandoned | Declined(message: string)

  /** Waits for a decision; the guard is disarmed only for a completed one, so even a reported failure sends a
      cancellation, which then finds nothing to cancel. */
  method AwaitDecision(actor: CommandSender, id: ExternalId, wait: Wait)
    returns (result: Result<Completion, DecisionFailure>)
    modifies actor
    ensures result == match wait
                      case TimedOut => Err(Timeout)
                      case SenderGone => Err(Abandoned)
                      case Told(Decided(completion)) => Ok(completion)
                      case Told(Undecided(message)) => Err(Declined(message))
    ensures actor.sent == old(actor.sent) + if result.Ok? then [] else [Cancel(id)]
  {
    var cancellation := new CancellationGuard(actor, id);
    match wait {
      case TimedOut => result := Err(Timeout);
      case SenderGone => result := Err(Abandoned);
      case Told(Undecided(message)) => result := Err(Declined(message));
      case Told(Decided(completion)) =>
        result := Ok(completion);
        cancellation.Disarm();
    }
    cancellation.Drop();
  }

  // ---------------------------------------------------------------- streamed answers

  /** What a client that takes `patience` frames sees of a stream. */
  function Cut<T>(frames: seq<T>, patience: nat): seq<T> {
    if patience < |frames| then frames[..patience] else frames
  }

  lemma CutPrefix<T>(sofar: seq<T>, full: seq<T>, patience: nat)
    requires sofar <= full && |sofar| >= patience
    ensures Cut(sofar, patience) == Cut(full, patience)
  {
  }

  lemma CutShort<T>(frames: seq<T>, patience: nat)
    requires |frames| <= patience
    ensures Cut(frames, patience) == frames
  {
  }

  /** Yields to a client that hangs up once it has taken `patience` frames in all. */
  method Yield<T>(before: seq<T>, frames: seq<T>, patience: nat) returns (shown: seq<T>, hungUp: bool)
    requires |before| < patience
    ensures shown == Cut(before + frames, patience)
    ensures hungUp == (|before + frames| >= patience)
  {
    shown := before;
    var j := 0;
    while j < |frames|
      invariant 0 <= j <= |frames| && shown == before + frames[..j] && |shown| < patience
    {
      shown := shown + [frames[j]];
      assert before + frames[..j + 1] == before + frames[..j] + [frames[j]];
      if |shown| == patience {
        assert before + frames == shown + frames[j + 1..];
        return shown, true;
      }
      j := j + 1;
    }
    hungUp := false;
  }

  predicate Starts(shown: seq<StreamEvent>, full: seq<StreamEvent>) { shown <= full }

  lemma CutStarts(shown: seq<StreamEvent>, full: seq<StreamEvent>, patience: nat)
    requires Starts(shown, full) && |shown| >= patience
    ensures Cut(shown, patience) == Cut(full, patience) && |full| >= patience
  {
    CutPrefix(shown, full, patience);
  }

  /** What has been shown when an event is pushed, extended by that event's own, starts the full stream,
      and completes it exactly when the event is terminal. */
  lemma ShownSoFar(codec: Codec, header: Header, events: seq<InferenceEvent>, tickets: seq<Ticket>, i: nat)
    requires |events| <= |tickets| && i < |events| && i <= FirstTerminal(events)
    ensures
      var run := R.Run(codec, Steps(events, tickets, i));
      var e := Push(codec, header, run.stream, events[i], tickets[i]);
      var shown := [CreatedEvent(header)] + run.events + e.events;
      var full := StreamedResponse(codec, header, events, tickets);
      && Starts(shown, full) && (e.stream.completed <==> i == FirstTerminal(events))
      && (i == FirstTerminal(events) ==> shown == full)
      && (i < FirstTerminal(events) ==>
           var next := R.Run(codec, Steps(events, tickets, i + 1));
           next.stream == e.stream && shown == [CreatedEvent(header)] + next.events)
  {
    hide FirstTerminal, Steps, R.Run, FirstEnd, WholeResponse, Push, CreatedEvent;
    var n := FirstTerminal(events);
    StepAnswer(codec, header, events, tickets, i);
    if i < n {
      EarlierRunsArePrefixes(codec, events, tickets, i + 1, n);
      var e := R.Run(codec, Steps(events, tickets, i));
      assert [CreatedEvent(header)] + e.events + Push(codec, header, e.stream, events[i], tickets[i]).events
          == [CreatedEvent(header)] + R.Run(codec, Steps(events, tickets, i + 1)).events;
    }
  }

  /** Pushes an event and yields what it produced. */
  method ShowOne(
      inference: InferenceEvent, ticket: Ticket, response: ResponseStream, before: seq<StreamEvent>, patience: nat)
    returns (shown: seq<StreamEvent>, hungUp: bool, done: bool)
    requires |before| < patience
    modifies response
    ensures
      var e := Push(response.codec, response.header, old(response.State()), inference, ticket);
      && response.State() == e.stream
      && shown == Cut(before + e.events, patience) && (hungUp <==> |before + e.events| >= patience)
      && (!hungUp ==> shown == before + e.events)
      && (done <==> !hungUp && e.stream.completed)
  {
    var events := response.PushEvent(inference, ticket);
    hide Push;
    shown, hungUp := Yield(before, events, patience);
    done := !hungUp && response.completed;
  }

  /** Without a terminal event the full stream is the run of everything received; it always starts with the opening. */
  lemma NothingLeft(codec: Codec, header: Header, events: seq<InferenceEvent>, tickets: seq<Ticket>)
    requires |events| <= |tickets|
    ensures
      var n, full := FirstTerminal(events), StreamedResponse(codec, header, events, tickets);
      && Starts([CreatedEvent(header)], full)
      && (n == |events| ==> full == [CreatedEvent(header)] + R.Run(codec, Steps(events, tickets, n)).events)
  {
    hide Push, R.Run, Steps, FirstTerminal;
  }

  /** Where the event generator is: the client has hung up, the stream was completed, or it follows the run. */
  predicate Streaming(
      codec: Codec, header: Header, all: seq<InferenceEvent>, tickets: seq<Ticket>, taken: nat, stream: Stream,
      shown: seq<StreamEvent>, hungUp: bool, done: bool, patience: nat)
    requires |all| <= |tickets|
  {
    var n, full := FirstTerminal(all), StreamedResponse(codec, header, all, tickets);
    if hungUp then !done && shown == Cut(full, patience) && |full| >= patience
    else if done then shown == full && |shown| < patience && n < |all|
    else
      && taken <= n && |shown| < patience
      && stream == R.Run(codec, Steps(all, tickets, taken)).stream
      && shown == [CreatedEvent(header)] + R.Run(codec, Steps(all, tickets, taken)).events
  }

  lemma StreamingStart(codec: Codec, header: Header, all: seq<InferenceEvent>, tickets: seq<Ticket>, patience: nat)
    requires |all| <= |tickets| && patience > 0
    ensures Streaming(codec, header, all, tickets, 0, FRESH, [CreatedEvent(header)], patience == 1, false, patience)
  {
    hide Push, R.Run, Steps, FirstTerminal, StreamedResponse, CreatedEvent;
    NoSteps(codec, all, tickets);
    NothingLeft(codec, header, all, tickets);
    if patience == 1 {
      CutStarts([CreatedEvent(header)], StreamedResponse(codec, header, all, tickets), patience);
    }
  }

  lemma StreamingNext(
      codec: Codec, header: Header, all: seq<InferenceEvent>, tickets: seq<Ticket>, taken: nat, stream: Stream,
      shown: seq<StreamEvent>, patience: nat)
    requires |all| <= |tickets| && taken < |all|
    requires Streaming(codec, header, all, tickets, taken, stream, shown, false, false, patience)
    ensures
      var e := Push(codec, header, stream, all[taken], tickets[taken]);
      var hungUp := |shown + e.events| >= patience;
      Streaming(codec, header, all, tickets, taken + 1, e.stream, Cut(shown + e.events, patience), hungUp,
                !hungUp && e.stream.completed, patience)
  {
    hide Push, R.Run, Steps, FirstTerminal, StreamedResponse, CreatedEvent, Starts, Cut;
    ShownSoFar(codec, header, all, tickets, taken);
    var more := shown + Push(codec, header, stream, all[taken], tickets[taken]).events;
    if |more| >= patience {
      CutStarts(more, StreamedResponse(codec, header, all, tickets), patience);
    } else {
      CutShort(more, patience);
    }
  }

  lemma StreamingDone(
      codec: Codec, header: Header, all: seq<InferenceEvent>, tickets: seq<Ticket>, taken: nat, stream: Stream,
      shown: seq<StreamEvent>, hungUp: bool, done: bool, patience: nat)
    requires |all| <= |tickets| && (hungUp || done || taken >= |all|)
    requires Streaming(codec, header, all, tickets, taken, stream, shown, hungUp, done, patience)
    ensures
      var full := StreamedResponse(codec, header, all, tickets);
      shown == Cut(full, patience) && (done <==> patience > |full| && FirstTerminal(all) < |all|)
  {
    hide Push, R.Run, Steps, FirstTerminal, StreamedResponse, CreatedEvent, Cut;
    NothingLeft(codec, header, all, tickets);
    if !hungUp { CutShort(shown, patience); }
  }

  lemma StillListening(
      codec: Codec, header: Header, all: seq<InferenceEvent>, tickets: seq<Ticket>, taken: nat, stream: Stream,
      shown: seq<StreamEvent>, hungUp: bool, done: bool, patience: nat)
    requires |all| <= |tickets|
    requires Streaming(codec, header, all, tickets, taken, stream, shown, hungUp, done, patience)
    ensures !hungUp ==> |shown| < patience
  {
    hide R.Run, Steps, FirstTerminal, StreamedResponse, CreatedEvent, Cut;
  }

  /** One turn of the event generator. */
  method ShowNext(
      receiver: EventReceiver, tickets: seq<Ticket>, response: ResponseStream, before: seq<StreamEvent>, patience: nat)
    returns (shown: seq<StreamEvent>, hungUp: bool, done: bool)
    requires |receiver.events| <= |tickets| && receiver.taken < |receiver.events| && |before| < patience
    requires Streaming(response.codec, response.header, receiver.events, tickets, receiver.taken, response.State(),
                       before, false, false, patience)
    modifies receiver, response
    ensures receiver.taken == old(receiver.taken) + 1 && (!hungUp ==> |shown| < patience)
    ensures Streaming(response.codec, response.header, receiver.events, tickets, receiver.taken, response.State(),
                      shown, hungUp, done, patience)
  {
    hide Push, Streaming, Cut;
    ghost var codec, header, all := response.codec, response.header, receiver.events;
    StreamingNext(codec, header, all, tickets, receiver.taken, response.State(), before, patience);
    var inference := receiver.Recv();
    shown, hungUp, done := ShowOne(inference.value, tickets[receiver.taken - 1], response, before, patience);
    StillListening(codec, header, all, tickets, receiver.taken, response.State(), shown, hungUp, done, patience);
  }

  /** The body of the event generator: `done` says the stream was completed while the client still listened. */
  method ShowEvents(receiver: EventReceiver, tickets: seq<Ticket>, response: ResponseStream, patience: nat)
    returns (shown: seq<StreamEvent>, done: bool)
    requires receiver.taken == 0 && |receiver.events| <= |tickets| && response.State() == FRESH && patience > 0
    modifies receiver, response
    ensures
      var full := StreamedResponse(response.codec, response.header, receiver.events, tickets);
      && shown == Cut(full, patience)
      && (done <==> patience > |full| && FirstTerminal(receiver.events) < |receiver.events|)
  {
    ghost var codec, header, all := response.codec, response.header, receiver.events;
    hide Push, FirstTerminal, StreamedResponse, CreatedEvent, Streaming, Cut;
    StreamingStart(codec, header, all, tickets, patience);
    shown := [CreatedEvent(response.header)];
    var hungUp := patience == 1;
    done := false;
    StillListening(codec, header, all, tickets, 0, FRESH, shown, hungUp, done, patience);
    while receiver.taken < |receiver.events| && !done && !hungUp
      invariant Streaming(codec, header, all, tickets, receiver.taken, response.State(), shown, hungUp, done, patience)
      invariant !done && !hungUp ==> |shown| < patience
      decreases |receiver.events| - receiver.taken
    {
      shown, hungUp, done := ShowNext(receiver, tickets, response, shown, patience);
    }
    StreamingDone(codec, header, all, tickets, receiver.taken, response.State(), shown, hungUp, done, patience);
  }

  /** Streams to a client that takes `patience` events before hanging up. It sees that much of the full stream.
      The request is cancelled unless a terminal event was reached and the client came back after the last event; a
      client that never asks for anything leaves no guard behind. */
  method AnswerStreaming(
      actor: CommandSender, id: ExternalId, receiver: EventReceiver, tickets: seq<Ticket>, response: ResponseStream,
      patience: nat)
    returns (shown: seq<StreamEvent>)
    requires receiver.taken == 0 && |receiver.events| <= |tickets| && response.State() == FRESH
    modifies actor, receiver, response
    ensures
      var full := StreamedResponse(response.codec, response.header, receiver.events, tickets);
      && shown == Cut(full, patience)
      && actor.sent == old(actor.sent) +
         if patience == 0 || (patience > |full| && FirstTerminal(receiver.events) < |receiver.events|)
         then [] else [Cancel(id)]
  {
    hide StreamedResponse, FirstTerminal;
    if patience == 0 { return []; }
    var cancellation := new CancellationGuard(actor, id);
    var done;
    shown, done := ShowEvents(receiver, tickets, response, patience);
    if done { cancellation.Disarm(); }
    cancellation.Drop();
  }

  /** One server-sent event of a chat stream: a chunk, or the closing marker. */
  datatype Frame = Data(chunk: C.Chunk) | DoneMark

  function Frames(chunks: seq<C.Chunk>): (frames: seq<Frame>)
    ensures |frames| == |chunks|
  {
    seq(|chunks|, i requires 0 <= i < |chunks| => Data(chunks[i]))
  }

  function ChatFrames(codec: Codec, includeUsage: bool, events: seq<InferenceEvent>): seq<Frame> {
    Frames(StreamedChat(codec, includeUsage, events)) + (if FirstTerminal(events) < |events| then [DoneMark] else [])
  }

  /** Pushing a non-terminal event extends the run and completes nothing; the first terminal one gives the answer. */
  lemma ChatStep(codec: Codec, includeUsage: bool, events: seq<InferenceEvent>, i: nat)
    requires i < |events| && i <= FirstTerminal(events)
    ensures
      var run := C.Run(codec, includeUsage, OutsOf(events, i));
      var e := C.Push(codec, includeUsage, run.state, events[i]);
      if i < FirstTerminal(events)
      then C.Emit(e.state, run.chunks + e.chunks) == C.Run(codec, includeUsage, OutsOf(events, i + 1))
          && !e.state.Completed()
      else if e.state.error.Some? then WholeChat(codec, includeUsage, events) == Err(Reported(e.state.error.value))
      else e.state.finished.Some? && WholeChat(codec, includeUsage, events) == Ok(C.Answer(codec, e.state).value)
  {
    hide FirstTerminal, OutsOf, C.Run, C.MessageJson;
    C.StateFollows(codec, includeUsage, OutsOf(events, i));
    if i < FirstTerminal(events) {
      ChatGrows(codec, includeUsage, events, i);
      C.StateFollows(codec, includeUsage, OutsOf(events, i + 1));
    }
  }

  /** What has been shown when an event is pushed, extended by that event's own, starts the full stream,
      and completes it exactly when the event is terminal. */
  lemma ChatShownSoFar(codec: Codec, includeUsage: bool, events: seq<InferenceEvent>, i: nat)
    requires i < |events| && i <= FirstTerminal(events)
    ensures
      var run := C.Run(codec, includeUsage, OutsOf(events, i));
      var e := C.Push(codec, includeUsage, run.state, events[i]);
      var shown, full := run.chunks + e.chunks, StreamedChat(codec, includeUsage, events);
      && shown <= full && (e.state.Completed() <==> i == FirstTerminal(events))
      && (i == FirstTerminal(events) ==> shown == full)
      && (i < FirstTerminal(events) ==> C.Emit(e.state, shown) == C.Run(codec, includeUsage, OutsOf(events, i + 1)))
  {
    hide FirstTerminal, OutsOf, C.Run, C.Push;
    var n := FirstTerminal(events);
    ChatStep(codec, includeUsage, events, i);
    if i < n { EarlierChunksArePrefixes(codec, includeUsage, events, i + 1, n); }
  }

  /** Frames of a prefix are a prefix of the frames. */
  lemma FramesOfPrefix(a: seq<C.Chunk>, b: seq<C.Chunk>, all: seq<C.Chunk>)
    requires a + b <= all
    ensures Frames(a) + Frames(b) == Frames(a + b) <= Frames(all)
  {
    assert Frames(a) + Frames(b) == Frames(a + b);
  }

  /** One turn of the chunk generator. */
  method ShowChunk(
      inference: InferenceEvent, response: C.ChatCompletionStream, before: seq<Frame>, ghost sent: seq<C.Chunk>,
          patience: nat)
    returns (shown: seq<Frame>, hungUp: bool, done: bool)
    requires before == Frames(sent) && |before| < patience
    modifies response
    ensures
      var e := C.Push(response.codec, response.includeUsage, old(response.Now()), inference);
      && response.Now() == e.state
      && shown == Cut(Frames(sent + e.chunks), patience) && (hungUp <==> |sent + e.chunks| >= patience)
      && (!hungUp ==> shown == Frames(sent + e.chunks))
      && (done <==> !hungUp && e.state.Completed())
  {
    var chunks := response.PushEvent(inference);
    hide C.Push;
    FramesOfPrefix(sent, chunks, sent + chunks);
    shown, hungUp := Yield(before, Frames(chunks), patience);
    done := !hungUp && (response.finished.Some? || response.error.Some?);
  }

  lemma CutFrames(sent: seq<C.Chunk>, full: seq<C.Chunk>, patience: nat)
    requires sent <= full
    ensures |sent| >= patience ==> Cut(Frames(sent), patience) == Cut(Frames(full), patience)
  {
    FramesOfPrefix(sent, [], full);
    assert sent + [] == sent;
    if |sent| >= patience { CutPrefix(Frames(sent), Frames(full), patience); }
  }

  /** Where the chunk generator is, with the chunks it has produced. */
  predicate StreamingChat(
      codec: Codec, includeUsage: bool, all: seq<InferenceEvent>, taken: nat, state: C.State, sent: seq<C.Chunk>,
      shown: seq<Frame>, hungUp: bool, done: bool, patience: nat)
  {
    var n, full := FirstTerminal(all), StreamedChat(codec, includeUsage, all);
    if hungUp then !done && shown == Cut(Frames(full), patience) && |full| >= patience
    else if done then shown == Frames(full) && |full| < patience && n < |all|
    else
      && taken <= n && |sent| < patience && shown == Frames(sent)
      && C.Emit(state, sent) == C.Run(codec, includeUsage, OutsOf(all, taken))
  }

  lemma StreamingChatStart(codec: Codec, includeUsage: bool, all: seq<InferenceEvent>, patience: nat)
    requires patience > 0
    ensures
      var sent := [C.Choice(C.Opening, None, includeUsage)];
      && Frames(sent) == [Data(sent[0])]
      && StreamingChat(codec, includeUsage, all, 0, C.FRESH, sent, Frames(sent), patience == 1, false, patience)
  {
    var sent := [C.Choice(C.Opening, None, includeUsage)];
    assert Frames(sent) == [Data(sent[0])];
    hide C.Run, OutsOf, FirstTerminal, StreamedChat, Frames;
    ChatOpens(codec, includeUsage, all);
    CutFrames(sent, StreamedChat(codec, includeUsage, all), patience);
  }

  lemma StreamingChatNext(
      codec: Codec, includeUsage: bool, all: seq<InferenceEvent>, taken: nat, state: C.State, sent: seq<C.Chunk>,
      shown: seq<Frame>, patience: nat)
    requires taken < |all|
    requires StreamingChat(codec, includeUsage, all, taken, state, sent, shown, false, false, patience)
    ensures |sent| < patience && shown == Frames(sent)
    ensures
      var e := C.Push(codec, includeUsage, state, all[taken]);
      var hungUp := |sent + e.chunks| >= patience;
      StreamingChat(codec, includeUsage, all, taken + 1, e.state, sent + e.chunks,
                    Cut(Frames(sent + e.chunks), patience), hungUp, !hungUp && e.state.Completed(), patience)
  {
    hide C.Push, C.Run, OutsOf, FirstTerminal, StreamedChat, Frames, Cut;
    ChatShownSoFar(codec, includeUsage, all, taken);
    var more := sent + C.Push(codec, includeUsage, state, all[taken]).chunks;
    CutFrames(more, StreamedChat(codec, includeUsage, all), patience);
    if |more| < patience { CutShort(Frames(more), patience); }
  }

  lemma StreamingChatDone(
      codec: Codec, includeUsage: bool, all: seq<InferenceEvent>, taken: nat, state: C.State, sent: seq<C.Chunk>,
      shown: seq<Frame>, hungUp: bool, done: bool, patience: nat)
    requires hungUp || done || taken >= |all|
    requires StreamingChat(codec, includeUsage, all, taken, state, sent, shown, hungUp, done, patience)
    ensures
      var full := StreamedChat(codec, includeUsage, all);
      shown == Cut(Frames(full), patience) && (done <==> patience > |full| && FirstTerminal(all) < |all|)
  {
    hide C.Push, C.Run, OutsOf, FirstTerminal, StreamedChat, Frames, Cut;
    ChatOpens(codec, includeUsage, all);
    if !hungUp { CutShort(shown, patience); }
  }

  /** The body of the chunk generator. */
  method ShowChunks(receiver: EventReceiver, response: C.ChatCompletionStream, patience: nat)
    returns (shown: seq<Frame>, done: bool)
    requires receiver.taken == 0 && response.Now() == C.FRESH && patience > 0
    modifies receiver, response
    ensures
      var all := Frames(StreamedChat(response.codec, response.includeUsage, receiver.events));
      && shown == Cut(all, patience)
      && (done <==> patience > |all| && FirstTerminal(receiver.events) < |receiver.events|)
  {
    ghost var codec, usage, all := response.codec, response.includeUsage, receiver.events;
    hide C.Push, FirstTerminal, StreamedChat, StreamingChat, Cut, Frames;
    ghost var sent := [C.Choice(C.Opening, None, usage)];
    StreamingChatStart(codec, usage, all, patience);
    shown := [Data(C.Choice(C.Opening, None, response.includeUsage))];
    var hungUp := patience == 1;
    done := false;
    while receiver.taken < |receiver.events| && !done && !hungUp
      invariant StreamingChat(codec, usage, all, receiver.taken, response.Now(), sent, shown, hungUp, done, patience)
      decreases |receiver.events| - receiver.taken
    {
      StreamingChatNext(codec, usage, all, receiver.taken, response.Now(), sent, shown, patience);
      ghost var chunks := C.Push(codec, usage, response.Now(), all[receiver.taken]).chunks;
      var inference := receiver.Recv();
      shown, hungUp, done := ShowChunk(inference.value, response, shown, sent, patience);
      sent := sent + chunks;
    }
    StreamingChatDone(codec, usage, all, receiver.taken, response.Now(), sent, shown, hungUp, done, patience);
  }

  /** As AnswerStreaming, except that the guard is disarmed before the closing marker is sent. */
  method AnswerStreamingChat(
      actor: CommandSender, id: ExternalId, receiver: EventReceiver, response: C.ChatCompletionStream, patience: nat)
    returns (shown: seq<Frame>)
    requires receiver.taken == 0 && response.Now() == C.FRESH
    modifies actor, receiver, response
    ensures
      var full := ChatFrames(response.codec, response.includeUsage, receiver.events);
      && shown == Cut(full, patience)
      && actor.sent == old(actor.sent) +
         if patience == 0 || (patience >= |full| && FirstTerminal(receiver.events) < |receiver.events|)
         then [] else [Cancel(id)]
  {
    hide StreamedChat, FirstTerminal, Frames;
    if patience == 0 { return []; }
    var cancellation := new CancellationGuard(actor, id);
    var done;
    shown, done := ShowChunks(receiver, response, patience);
    if done {
      cancellation.Disarm();
      shown := shown + [DoneMark];
    }
    cancellation.Drop();
  }

  lemma ChatOpens(codec: Codec, includeUsage: bool, events: seq<InferenceEvent>)
    ensures
      var opening := [C.Choice(C.Opening, None, includeUsage)];
      var n, all := FirstTerminal(events), StreamedChat(codec, includeUsage, events);
      && C.Run(codec, includeUsage, OutsOf(events, 0)) == C.Emit(C.FRESH, opening)
      && opening <= all
      && (n == |events| ==> all == C.Run(codec, includeUsage, OutsOf(events, n)).chunks)
  {
    EarlierChunksArePrefixes(codec, includeUsage, events, 0, FirstTerminal(events));
  }
}
