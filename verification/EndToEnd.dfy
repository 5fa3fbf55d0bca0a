/** From the engine to both APIs' clients, through the actor, a channel and a handler. */
module EndToEnd {
  import opened Wrappers
  import opened Json
  import opened ChatModel
  import opened Actor
  import opened ActorDelivery
  import opened Handlers
  import Responses
  import R = ResponseRuns
  import C = ChatCompletions
  import H = History
  import RoundTrip
  import Service

  lemma {:induction false} OutputsAt(outs: seq<OutputEvent>, i: nat)
    requires i < |outs|
    ensures Outputs(outs)[i] == Output(outs[i])
  {
    if i < |outs| - 1 { OutputsAt(outs[..|outs| - 1], i); }
  }

  lemma EndPosition(events: seq<InferenceEvent>, n: nat)
    requires n < |events| && events[n].Terminal() && forall i :: 0 <= i < n ==> events[i].Output?
    ensures FirstTerminal(events) == n
  {
    hide FirstTerminal;
    var m := FirstTerminal(events);
    assert m < |events| ==> events[m].Terminal();
  }

  /** Output events followed by one terminal event: the terminal one is the first, and the rest are read back as they
      were. */
  lemma FirstTerminalIsLast(outs: seq<OutputEvent>, end: InferenceEvent)
    requires end.Terminal()
    ensures FirstTerminal(Outputs(outs) + [end]) == |outs|
    ensures OutsOf(Outputs(outs) + [end], |outs|) == outs
  {
    hide FirstTerminal, Outputs, OutsOf;
    var events := Outputs(outs) + [end];
    forall i | 0 <= i < |outs| ensures events[i] == Output(outs[i]) { OutputsAt(outs, i); }
    EndPosition(events, |outs|);
    OutsOfAll(events, outs, |outs|);
    assert outs[..|outs|] == outs;
  }

  lemma {:induction false} OutsOfAll(events: seq<InferenceEvent>, outs: seq<OutputEvent>, n: nat)
    requires n <= FirstTerminal(events) && n <= |outs| && forall i :: 0 <= i < n ==> events[i] == Output(outs[i])
    ensures OutsOf(events, n) == outs[..n]
  {
    if n > 0 { OutsOfAll(events, outs, n - 1); }
  }

  lemma {:induction false} OutsOfSteps(events: seq<InferenceEvent>, tickets: seq<Responses.Ticket>, n: nat)
    requires n <= FirstTerminal(events) && |events| <= |tickets|
    ensures R.Outs(Steps(events, tickets, n)) == OutsOf(events, n)
  {
    if n > 0 {
      OutsOfSteps(events, tickets, n - 1);
      assert Steps(events, tickets, n)[..n - 1] == Steps(events, tickets, n - 1);
    }
  }

  /** What both non-streaming handlers answer after these outputs and this end: the error, or answers that say exactly
      what was output. The Responses answer reads back as the turn, the Chat answer shows it. */
  ghost predicate AnswersSay(
      codec: Codec, header: Responses.Header, events: seq<InferenceEvent>, tickets: seq<Responses.Ticket>,
      outs: seq<OutputEvent>)
    requires 0 < |events| <= |tickets|
  {
    var viaResponses, viaChat := WholeResponse(codec, header, events, tickets), WholeChat(codec, false, events);
    match events[|events| - 1]
    case Error(message) => viaResponses == Err(Reported(message)) && viaChat == Err(Reported(message))
    case Finished(reason, usage) =>
      && viaResponses.Ok? && viaChat.Ok?
      && H.Parse(codec, Responses.OutputJson(viaResponses.value.output))
         == Ok(RoundTrip.Messages(Turn(TextOf(outs), ReasoningOf(outs), CallsOf(outs))))
      && C.Shows(viaChat.value.message, TextOf(outs), ReasoningOf(outs), WireAll(codec, CallsOf(outs)))
      && R.Concludes(viaResponses.value, header, reason, usage)
      && C.FinishSays(viaChat.value.finish, reason) && viaChat.value.usage == usage
    case Output(_) => false
  }

  lemma EndCarries(header: Responses.Header, output: seq<Responses.Item>, reason: FinishReason, usage: Usage)
    ensures !Responses.EndEvent(header, output, reason, usage).Failed?
    ensures Responses.EndEvent(header, output, reason, usage).response.output == output
    ensures R.Concludes(Responses.EndEvent(header, output, reason, usage).response, header, reason, usage)
  {
    R.EndConcludes(header, output, reason, usage);
  }

  lemma WholeCarries(
      codec: Codec, header: Responses.Header, events: seq<InferenceEvent>, tickets: seq<Responses.Ticket>,
      reason: FinishReason, usage: Usage)
    requires |events| <= |tickets|
    requires FirstTerminal(events) < |events| && events[FirstTerminal(events)] == Finished(reason, usage)
    ensures
      var run := Steps(events, tickets, FirstTerminal(events));
      && WholeResponse(codec, header, events, tickets).Ok?
      && WholeResponse(codec, header, events, tickets).value.output
          == R.RunToEnd(codec, header, run, reason, usage).stream.output
      && R.Concludes(WholeResponse(codec, header, events, tickets).value, header, reason, usage)
  {
    hide FirstTerminal, Steps, R.RunToEnd, Responses.EndEvent, R.Concludes;
    var run := Steps(events, tickets, FirstTerminal(events));
    EndCarries(header, R.RunToEnd(codec, header, run, reason, usage).stream.output, reason, usage);
  }

  lemma ResponsesAnswerAfter(
      codec: Codec, header: Responses.Header, tickets: seq<Responses.Ticket>, outs: seq<OutputEvent>,
          reason: FinishReason, usage: Usage)
    requires |outs| < |tickets| && forall call :: call in CallsOf(outs) ==> codec.RoundTrips(call.arguments)
    ensures
      var viaResponses := WholeResponse(codec, header, Outputs(outs) + [Finished(reason, usage)], tickets);
      && viaResponses.Ok?
      && H.Parse(codec, Responses.OutputJson(viaResponses.value.output))
         == Ok(RoundTrip.Messages(Turn(TextOf(outs), ReasoningOf(outs), CallsOf(outs))))
      && R.Concludes(viaResponses.value, header, reason, usage)
  {
    hide R.Concludes, FirstTerminal, Steps, OutsOf, H.Parse, RoundTrip.Messages, Turn, Outputs, Responses.OutputJson,
         R.RunToEnd, WholeResponse, TextOf, ReasoningOf, CallsOf;
    var events := Outputs(outs) + [Finished(reason, usage)];
    FirstTerminalIsLast(outs, Finished(reason, usage));
    OutsOfSteps(events, tickets, |outs|);
    RoundTrip.RoundTripExact(codec, header, Steps(events, tickets, |outs|), reason, usage);
    WholeCarries(codec, header, events, tickets, reason, usage);
  }

  lemma ChatAnswerAfter(codec: Codec, outs: seq<OutputEvent>, reason: FinishReason, usage: Usage)
    ensures
      var viaChat := WholeChat(codec, false, Outputs(outs) + [Finished(reason, usage)]);
      && viaChat.Ok?
      && C.Shows(viaChat.value.message, TextOf(outs), ReasoningOf(outs), WireAll(codec, CallsOf(outs)))
      && C.FinishSays(viaChat.value.finish, reason) && viaChat.value.usage == usage
  {
    hide C.FinishSays, FirstTerminal, OutsOf, C.Shows, Outputs, C.MessageJson, C.RunToEnd, C.Fold;
    FirstTerminalIsLast(outs, Finished(reason, usage));
    C.StreamedEqualsWhole(codec, false, outs, reason, usage);
  }

  lemma ErrorAfter(
      codec: Codec, header: Responses.Header, tickets: seq<Responses.Ticket>, outs: seq<OutputEvent>, message: string)
    requires |outs| < |tickets|
    ensures
      var events := Outputs(outs) + [Error(message)];
      && WholeResponse(codec, header, events, tickets) == Err(Reported(message))
      && WholeChat(codec, false, events) == Err(Reported(message))
  {
    hide FirstTerminal, Steps, OutsOf, Outputs, R.RunToEnd, C.RunToEnd, C.Answer, Responses.EndEvent;
    FirstTerminalIsLast(outs, Error(message));
  }

  lemma AnswersAfter(
      codec: Codec, header: Responses.Header, tickets: seq<Responses.Ticket>, outs: seq<OutputEvent>,
          end: InferenceEvent)
    requires end.Terminal() && |outs| < |tickets|
    requires forall call :: call in CallsOf(outs) ==> codec.RoundTrips(call.arguments)
    ensures AnswersSay(codec, header, Outputs(outs) + [end], tickets, outs)
  {
    hide Outputs, WholeResponse, WholeChat, H.Parse, RoundTrip.Messages, Turn, C.Shows, C.FinishSays,
         R.Concludes, Responses.OutputJson, TextOf, ReasoningOf, CallsOf, WireAll;
    if end.Finished? {
      ResponsesAnswerAfter(codec, header, tickets, outs, end.reason, end.usage);
      ChatAnswerAfter(codec, outs, end.reason, end.usage);
    } else {
      ErrorAfter(codec, header, tickets, outs, end.message);
    }
  }

  /** End to end, in every run: when a handler has its terminal event and no send was refused on its channel, both
      answers say exactly what the engine produced for the request, or report the error it ended with. */
  lemma EngineToAnswer(
      states: seq<State>, actions: seq<Action>, i: nat, e: ExternalId,
      codec: Codec, header: Responses.Header, tickets: seq<Responses.Ticket>)
    requires IsRun(states, actions) && i < |states| && e in states[i].wires.channels
    requires e in states[i].clients && (states[i].clients[e].Satisfied? || states[i].clients[e] == Over(true))
    requires !states[i].wires.channels[e].lost && e in states[i].wires.emitted
    requires |states[i].wires.emitted[e]| < |tickets|
    requires forall call :: call in CallsOf(states[i].wires.emitted[e]) ==> codec.RoundTrips(call.arguments)
    ensures
      var received := Service.Received(states[i], e);
      && 0 < |received| <= |tickets|
      && AnswersSay(codec, header, received, tickets, states[i].wires.emitted[e])
  {
    hide AnswersSay;
    Service.SatisfiedClientSawEverything(states, actions, i, e);
    var produced, received := states[i].wires.emitted[e], Service.Received(states[i], e);
    AnswersAfter(codec, header, tickets, produced, received[|received| - 1]);
  }
}
