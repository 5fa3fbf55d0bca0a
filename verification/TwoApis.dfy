/** The two HTTP APIs tell a client the same thing about the same inference events. */
module TwoApis {
  import opened Wrappers
  import opened Json
  import opened ChatModel
  import R = ResponseRuns
  import Responses
  import H = History
  import RoundTrip
  import C = ChatCompletions

  /** The message a Chat Completions client would send back after this stream. */
  function ChatTurn(codec: Codec, outs: seq<OutputEvent>, reason: FinishReason, usage: Usage):
    Result<Message, C.ChatInputError>
  {
    C.ParseMessage(codec, C.MessageJson(codec, C.RunToEnd(codec, false, outs, reason, usage).state))
  }

  /** What each API's client reads back, decoded calls included. */
  lemma BothTurns(codec: Codec, header: Responses.Header, run: seq<R.Step>, reason: FinishReason, usage: Usage)
    ensures
      var outs := R.Outs(run);
      var read := ReadCalls(codec, WireAll(codec, CallsOf(outs)));
      && RoundTrip.Reparsed(codec, header, run, reason, usage) ==
         (if read.Ok? then Ok(RoundTrip.Messages(Turn(TextOf(outs), ReasoningOf(outs), read.value)))
          else Err(H.BadArguments(read.error)))
      && ChatTurn(codec, outs, reason, usage) ==
         (if read.Ok? then
            Ok(AssistantMessage(C.ShownContent(TextOf(outs), CallsOf(outs)), NonEmpty(ReasoningOf(outs)), read.value))
          else Err(C.BadArguments(read.error)))
  {
    var outs := R.Outs(run);
    var read := ReadCalls(codec, WireAll(codec, CallsOf(outs)));
    RoundTrip.OutputReadsBack(codec, header, run, reason, usage);
    if read.Ok? { RoundTrip.TurnFlush(TextOf(outs), ReasoningOf(outs), read.value, read.value); }
    C.StateFollows(codec, false, outs);
    C.AnswerReadsBack(codec, C.RunToEnd(codec, false, outs, reason, usage).state);
  }

  /** Content aside, the two turns are the same, and a missing content is an empty one. */
  predicate SameUpToEmptyContent(a: Message, b: Message) {
    a == b.(content := a.content) && a.content.GetOr("") == b.content.GetOr("")
  }

  /** Both APIs read back the same turn: they succeed together, the Responses history is one message or none,
      and that turn equals the Chat one up to none versus empty content.
      They are identical exactly when there was some text or some call. */
  lemma SameTurn(codec: Codec, header: Responses.Header, run: seq<R.Step>, reason: FinishReason, usage: Usage)
    ensures
      var outs := R.Outs(run);
      var viaResponses := RoundTrip.Reparsed(codec, header, run, reason, usage);
      var viaChat := ChatTurn(codec, outs, reason, usage);
      && (viaResponses.Ok? <==> viaChat.Ok?)
      && (viaResponses.Ok? ==>
           && |viaResponses.value| <= 1
           && SameUpToEmptyContent(
                if viaResponses.value == [] then H.NO_ANSWER else viaResponses.value[0], viaChat.value)
           && (viaResponses.value == [viaChat.value] <==> TextOf(outs) != "" || CallsOf(outs) != []))
  {
    var outs := R.Outs(run);
    BothTurns(codec, header, run, reason, usage);
    var wires := WireAll(codec, CallsOf(outs));
    if ReadCalls(codec, wires).Ok? { ReadLength(codec, wires); }
  }

  /** Both streams say how they ended, and say the same: the chat chunks finish with `length` exactly when the Responses
      stream ends incomplete, and both report the same usage. */
  lemma SameEnd(
      codec: Codec, header: Responses.Header, includeUsage: bool, run: seq<R.Step>, reason: FinishReason, usage: Usage)
    ensures
      var viaResponses := R.RunToEnd(codec, header, run, reason, usage).events;
      var viaChat := C.Fold(C.RunToEnd(codec, includeUsage, R.Outs(run), reason, usage).chunks);
      && viaResponses != [] && viaChat.finish.Some?
      && var last := viaResponses[|viaResponses| - 1];
      && (viaChat.finish == Some("length") <==> last.ResponseIncomplete?)
      && (viaChat.finish != Some("length") <==> last.ResponseCompleted?)
      && last.response.usage == Some(usage) && viaChat.usage == (if includeUsage then Some(usage) else None)
  {
    hide R.RunToEnd, C.RunToEnd, C.Fold, R.Outs, R.DoneItems, C.Answer, C.Shows;
    R.TerminalResponseCarriesDoneItems(codec, header, run, reason, usage);
    C.StreamedEqualsWhole(codec, includeUsage, R.Outs(run), reason, usage);
  }
}
