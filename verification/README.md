# Eider: verified model of the inference server's protocols and algorithms

Eider serves language models over two HTTP APIs. This project models the parts of it that carry the hardest promises and
proves them in Dafny.

- **The Responses event stream** (`Responses.dfy`, `ResponseRuns.dfy`, `ItemGrammar.dfy`, `ItemWire.dfy`): inference events become an
  item-lifecycle event stream and a final `output` list. Proved over every event sequence: the done items are the output, deltas
  add up to what closes them, and the exact condition under which the events form numbered, non-overlapping blocks.
- **History parsing** (`History.dfy`, `RoundTrip.dfy`, `HistoryPrinting.dfy`): `output` items sent back as input are merged into
  assistant turns. Proved: the round trip of a stream's own output, the round trip of any history however it is written,
  compositionality, nothing lost.
- **Chat Completions** (`ChatCompletions.dfy`, `ChatPrinting.dfy`, `TwoApis.dfy`): the second rendering of the same events, streamed
  and whole, its own history reader, and its agreement with the first.
- **The inference actor** (`Actor.dfy`, `ActorTables.dfy`, `ActorDelivery.dfy`, `ActorDecisions.dfy`,
  `ActorRoom.dfy`, `ActorPromises.dfy`, `ActorTicks.dfy`, `ActorReasons.dfy`, `ActorClients.dfy`,
  `Service.dfy`): a step system of one actor thread, its command queue, one bounded channel or one-shot per request, the clients, and an engine that may do
  anything except reuse a request id. Every send and every removal is a step, so clients can act between any two of them.
  Invariants and safety are proved over all runs.
- **The actor thread as code** (`ActorThread.dfy`): a class with the thread's maps and its loops, each proved to be a path of the
  step system. **The HTTP receive loops** (`Handlers.dfy`) with their drop guard, the shape of whole
  streams (`Streams.dfy`), and the way from engine to answer (`EndToEnd.dfy`).
- **Algorithms**: the tiled scale layout and the warp butterfly (`Kernels.dfy`), the bounded top-k and greedy path
  (`Selector.dfy`), the decision join and temperature calibration (`Decisions.dfy`), the balanced dataset (`Dataset.dfy`), ternary
  search (`Calibration.dfy`), interval accounting (`Metrics.dfy`).

`Wrappers.dfy`, `Json.dfy`, `ChatModel.dfy`, `DecisionModel.dfy` and `Arithmetic.dfy` hold what the others share.

## Assumptions

- The engine (`add_request`, `add_decision`, `tick`) is nondeterministic. Its one promise is that request ids are never reused,
  across both kinds. What a tick contains, and whether it fails, is arbitrary.
- JSON text of tool arguments is written and read by an arbitrary pair of functions; theorems say exactly where their being
  inverse matters.
- The counter behind item ids yields distinct values, which are parameters. Clocks are parameters.
- Floating-point logits and scores are totally ordered values; probabilities and temperatures are real numbers; `exp` is any
  positive, strictly increasing function; where its turning sums into products matters (the softmax law, and fitting, which also needs
  its inverse `log`), that is a stated hypothesis;
  concentration is any function of the distribution.
- A streaming client is modelled by the number of events it takes before it hangs up. A client that hangs up while the server waits
  for the actor is a receiver whose events run out.

## Model

| member | source | states |
|---|---|---|
| `Responses.ResponseStream.constructor` | crates/eider-api/src/protocol.rs:551-565 | a new stream has no items, nothing open and is not completed |
| `Responses.ResponseStream.ReasoningStep` | crates/eider-api/src/protocol.rs:609-651 | the new state and the emitted events are those of the value-level step: an empty delta does nothing, the first delta opens an item at the current output length, later ones extend it |
| `Responses.ResponseStream.EndReasoning` | crates/eider-api/src/protocol.rs:653-683 | closing moves the open reasoning item to the output with its whole text and announces it, or does nothing |
| `Responses.ResponseStream.TextStep` | crates/eider-api/src/protocol.rs:685-727 | the text counterpart of ReasoningStep |
| `Responses.ResponseStream.EndText` | crates/eider-api/src/protocol.rs:729-759 | the text counterpart of EndReasoning |
| `Responses.ResponseStream.ToolStep` | crates/eider-api/src/protocol.rs:761-799 | closes reasoning, then text, then adds one complete function call item |
| `Responses.ResponseStream.FinishStep` | crates/eider-api/src/protocol.rs:801-822 | closes everything and emits the terminal event of the value-level step; what that event says is TerminalResponseCarriesDoneItems |
| `Responses.ResponseStream.PushEvent` | crates/eider-api/src/protocol.rs:578-603 | one inference event changes state and emits events exactly as the specification function Push, on which the theorems below are proved; a reasoning delta leaves an open text item open |
| `ResponseRuns.DoneItemsAreOutput` | crates/eider-api/src/protocol.rs:609-822 | at every point of every run, the items announced as done, in order, are the output list |
| `ResponseRuns.TerminalResponseCarriesDoneItems` | crates/eider-api/src/protocol.rs:801-863 | in every finished stream, in any input order, nothing is left open and the last event carries exactly the done items, in order, with the header, the usage, the status incomplete and the reason max_output_tokens exactly for the length limit, and otherwise the status completed and no reason |
| `ResponseRuns.DeltasMatchClosingEvents` | crates/eider-api/src/protocol.rs:609-822 | in every finished stream, in any input order, every closing event states exactly the concatenation of the deltas streamed under its item id |
| `ResponseRuns.RunSettled` | crates/eider-api/src/protocol.rs:578-799 | the invariant behind it, over every prefix of every run: what an open item holds is what was streamed for it, and ids not yet drawn have no deltas |
| `ItemWire.HexReadsBack` | crates/eider-api/src/protocol.rs:925-928 | the digits of a counter value, read as a hexadecimal number, are that value |
| `ItemWire.IdReadsBack` | crates/eider-api/src/protocol.rs:925-928 | prefix and counter value are recovered from an id text |
| `ItemWire.IdTextInjective` | crates/eider-api/src/protocol.rs:925-928 | items with different prefixes or counter values have different id texts |
| `ItemWire.ItemReadsBack` | crates/eider-api/src/protocol.rs:872-923 | an independent reader gets every item back from its JSON: id, type, status, role, text, call id, name and arguments; only an item in progress is announced without its text |
| `ItemWire.OutputReadsBack` | crates/eider-api/src/protocol.rs:801-863 | the output list of a response reads back place by place |
| `Streams.StreamEndsAsAnswered` | crates/eider-api/src/server.rs:455-481 | a streamed answer opens once, in progress and empty, has a final event at most once, as its very last, and that event carries exactly what a client that does not stream is told |
| `ItemGrammar.GrammarIffOrdered` | crates/eider-api/src/protocol.rs:578-822 | the event stream reads as complete, non-overlapping item blocks, the k-th numbered k throughout and equal to the k-th output item, if and only if no non-empty reasoning delta arrives while text is open |
| `ItemGrammar.ReaderFollows` | crates/eider-api/src/protocol.rs:578-799 | an independent reader of the events mirrors the builder on every ordered prefix and is broken for good from the first interruption |
| `ItemGrammar.ReasoningAfterTextBreaksGrammar` | crates/eider-api/src/protocol.rs:580 | the smallest interruption: text then reasoning makes two items claim position 0 |
| `History.ParseInputItems` | crates/eider-api/src/protocol.rs:314-392 | the loop over mutable accumulators computes the specification parse, first error included |
| `History.ParseStep` | crates/eider-api/src/protocol.rs:314-364 | one item extends what was accumulated, or ends the whole parse with its error |
| `History.FeedConcat` | crates/eider-api/src/protocol.rs:314-364 | parsing a concatenation is parsing the second part from where the first ended |
| `History.ParseSplitsAtBoundary` | crates/eider-api/src/protocol.rs:314-392 | a non-assistant message or function output cuts the history: both sides parse on their own, errors included |
| `History.ParsedTurnsAlternate` | crates/eider-api/src/protocol.rs:314-392 | a parsed history never has two assistant messages in a row |
| `History.ParseLosesNothing` | crates/eider-api/src/protocol.rs:314-392 | all assistant text, reasoning and calls and every other message survive in order, and failures fail with the same error |
| `History.CoalesceSystemMessages` | crates/eider-api/src/protocol.rs:241-260 | the loop gathers the texts of system messages into one message in front and keeps the rest in order |
| `History.CoalescedIsNormal` | crates/eider-api/src/protocol.rs:241-260 | no system message remains behind the first position and the conversation is unchanged |
| `History.CoalescingTwice` | crates/eider-api/src/protocol.rs:241-260 | coalescing is idempotent |
| `History.JoinConcat` | crates/eider-api/src/protocol.rs:241-260 | joining is the one function that leaves a single text alone and puts a blank line between two lists of texts |
| `History.JoinKeepsTexts` | crates/eider-api/src/protocol.rs:241-260 | every joined text is found in full, in order, with a blank line before the next |
| `History.MessageGoes` | crates/eider-api/src/protocol.rs:241-260 | a system message in the middle of a history adds its text after the texts before it, any other message stays in its place of the conversation |
| `History.CoalescedKeepsTexts` | crates/eider-api/src/protocol.rs:241-260 | every system text survives coalescing, in full and in order, in one message in front |
| `HistoryPrinting.EntryReadsBack` | crates/eider-api/src/protocol.rs:314-470 | however an item is written (any role, a string, text parts or no content, reasoning, a call, a function output), it contributes its role, whole text, call id and call |
| `HistoryPrinting.HistoryReadsBack` | crates/eider-api/src/protocol.rs:314-470 | any list of messages of all five roles in which no two assistant turns are adjacent, written in any style, parses back to that list if and only if the arguments of its calls survive the JSON text |
| `HistoryPrinting.ParsedIsPrintable` | crates/eider-api/src/protocol.rs:314-392 | every successful parse is a list that theorem is about |
| `HistoryPrinting.ParsedReadsBack` | crates/eider-api/src/protocol.rs:314-470 | reading, writing in any style and reading again changes nothing, if the arguments survive |
| `RoundTrip.ParseOutput` | crates/eider-api/src/protocol.rs:314-392 | an output list of whole items parses to one pending turn with their text, reasoning and calls, or fails on a call whose arguments are not an object |
| `RoundTrip.RunWritten` | crates/eider-api/src/protocol.rs:578-799 | over every run, output plus open items hold exactly the text, reasoning and calls pushed so far |
| `RoundTrip.OutputReadsBack` | crates/eider-api/src/protocol.rs:314-392 | for every event sequence ending in Finished, in any order, the output parses to no message if nothing non-empty was emitted and otherwise to one assistant message with the concatenations in order |
| `RoundTrip.RoundTripExact` | crates/eider-api/src/protocol.rs:314-392 | the parsed turn is exactly the emitted one if and only if the JSON text of every call's arguments round-trips |
| `ChatModel.CallsSurvive` | crates/eider-api/src/protocol.rs:471-486 | tool calls survive being written as JSON text and read back if and only if each argument map round-trips |
| `ChatCompletions.ChatCompletionStream.constructor` | crates/eider-api/src/chat_completions.rs:375-393 | a new stream holds nothing and is not completed |
| `ChatCompletions.ChatCompletionStream.PushEvent` | crates/eider-api/src/chat_completions.rs:403-460 | one inference event changes state and emits chunks exactly as the specification function Push |
| `ChatCompletions.StateFollows` | crates/eider-api/src/chat_completions.rs:403-460 | the accumulator holds the text, reasoning and calls of all events so far, in order |
| `ChatCompletions.FoldFollows` | crates/eider-api/src/chat_completions.rs:403-460 | a client folding the chunks, placing calls by index, holds what the server accumulated |
| `ChatCompletions.StreamedEqualsWhole` | crates/eider-api/src/chat_completions.rs:403-546 | for every finished stream the folded chunks are the non-streaming answer: same text, reasoning, calls, finish reason and usage, null content exactly for no text beside calls; and the finish reason is length exactly for the length limit, tool_calls exactly for tool calls and stop otherwise |
| `ChatCompletions.ReasonSays` | crates/eider-api/src/chat_completions.rs:560-566 | each finish reason has the name clients expect |
| `Streams.ChatStreamShape` | crates/eider-api/src/server.rs:483-510 | a chat stream opens with the role, then has only chunks that say something, then one chunk with the finish reason, then a usage chunk exactly when it was asked for, or ends with the error; the closing marker follows exactly then, and a stream cut short has neither |
| `ChatCompletions.AnswerReadsBack` | crates/eider-api/src/chat_completions.rs:187-305 | the answer's message parses back as an assistant message with its text, reasoning and decoded calls, or fails on the first undecodable call |
| `ChatPrinting.MessageReadsBack` | crates/eider-api/src/chat_completions.rs:187-305 | however a chat message is written, its role, text, call id, reasoning and decoded calls are read back, or the first undecodable call is the error |
| `ChatPrinting.MessagesReadBack` | crates/eider-api/src/chat_completions.rs:187-305 | any list of chat messages, written in any style, parses back to that list if and only if the arguments of its calls survive the JSON text |
| `TwoApis.BothTurns` | crates/eider-api/src/chat_completions.rs:187-305 | what each API's client reads back after the same events, for every event sequence |
| `TwoApis.SameTurn` | crates/eider-api/src/chat_completions.rs:470-510 | both APIs read back the same turn up to none versus empty content, succeed together, and are identical exactly when there was text or a call |
| `TwoApis.SameEnd` | crates/eider-api/src/chat_completions.rs:470-510 | the chat stream finishes with length exactly when the Responses stream ends incomplete, and both report the same usage |
| `Actor.RemovalAgrees` | crates/eider-api/src/actor.rs:738-828 | cancelling or failing one engine id removes that request, and no other, from all three maps and keeps them in agreement |
| `Actor.RemovalConserves` | crates/eider-api/src/actor.rs:738-828 | removal keeps accepted = completed + failed + cancelled + active |
| `Actor.RemovalHitsOnce` | crates/eider-api/src/actor.rs:738-828 | with disjoint maps only one of the two look-ups hits, and neither for an unknown id |
| `ActorTables.SoundStep` | crates/eider-api/src/actor.rs:305-636 | every step of the system (commands, ticks, sends, removals, client moves) keeps the combined invariant |
| `ActorTables.EveryStateSound` | crates/eider-api/src/actor.rs:330-332 | in every state of every run the external map is the inverse of two disjoint engine maps, conservation holds, no command precedes its submission in the queue, and the service is shut down at most once |
| `ActorTables.SoundCommand` | crates/eider-api/src/actor.rs:644-736 | handling any command keeps the invariant |
| `ActorTables.SoundFan` | crates/eider-api/src/actor.rs:537-618 | every send of a successful tick keeps the invariant |
| `ActorTables.SoundPurge` | crates/eider-api/src/actor.rs:786-844 | every removal and notification keeps the invariant |
| `ActorTables.StoppedMeansEmpty` | crates/eider-api/src/actor.rs:333-366 | a stopped actor has three empty maps and has shut its service down exactly once, however it was stopped; one that has not stopped has not |
| `ActorTables.CancelFrame` | crates/eider-api/src/actor.rs:722-732 | a Cancel leaves every other request's entries and fate, all channels, slots, clients and the queue untouched, and does nothing for an unknown id |
| `ActorTables.NeverStuck` | crates/eider-api/src/actor.rs:333-636 | in every reachable state the thread has a step of its own unless it has stopped or waits for a command |
| `ActorDelivery.EveryStateDelivered` | crates/eider-api/src/actor.rs:537-576 | the delivery invariant holds in every state of every run |
| `ActorDelivery.ExactDelivery` | crates/eider-api/src/actor.rs:421-441 | in every state of every run a channel has been sent exactly the engine's outputs for its request that are no longer waiting in the current tick, in order, then the one terminal event it is owed, if and only if none of its sends was refused; with losses what was sent is still free of repetition and reordering; no channel ever holds more than its capacity |
| `ActorDelivery.StepAt` | crates/eider-api/src/actor.rs:537-576 | whatever the step, a chat request sees one of five kinds of move: nothing, output produced, an output sent, its terminal event sent, or its receiver taking one or leaving; in particular a send is lost exactly when the receiver is gone or the channel is full |
| `ActorRoom.TickLosesIff` | crates/eider-api/src/actor.rs:536-576 | when a tick loses an event of a request, over every interleaving with the clients: never if the room left in its channel before the sends covers its deltas and its end and the receiver stays; and with a receiver that does nothing meanwhile, exactly if something is due and the receiver had left or the room is too small |
| `ActorRoom.TickRun` | crates/eider-api/src/actor.rs:536-576 | over any part of a tick, what was due and is no longer was sent if it fitted, nothing is sent to a receiver that had left, and what is not sent is marked lost |
| `ActorRoom.DueAtTick` | crates/eider-api/src/actor.rs:536-576 | what is due when a tick is done: the request's deltas, and one more if the tick finishes it |
| `ActorDecisions.SlotStep` | crates/eider-api/src/actor.rs:577-608 | every step of the system keeps each decision's one-shot in line with the decision's fate, and never changes an answer |
| `ActorDecisions.EveryDecisionTold` | crates/eider-api/src/actor.rs:577-608 | in every state of every run a decision's one-shot holds exactly what became of the decision: its completion, the error of a failure, a failed tick or a refused submission, or nothing while it is waiting, active or cancelled; a settled decision without an answer had lost its receiver |
| `ActorDecisions.AnswerStays` | crates/eider-api/src/actor.rs:577-608 | once given, a decision's answer never changes |
| `ActorDelivery.NothingWaitsBetweenTicks` | crates/eider-api/src/actor.rs:537-576 | between ticks no output is waiting |
| `ActorDelivery.NothingAfterTerminal` | crates/eider-api/src/actor.rs:652-685 | once a terminal event was sent, whether by finishing, a tick error or a rejected submission, the channel's log never changes again |
| `ActorPromises.FateStep` | crates/eider-api/src/actor.rs:644-828 | a submission's fate moves only from waiting to active or refused, and from active to one final fate, and an ended fate never changes |
| `ActorReasons.EveryEndHasACause` | crates/eider-api/src/actor.rs:421-618 | in every run, behind every end that is reported to a submission there is a step that called for it: a tick that says so about its own engine id, with that reason, completion or message, a failed tick with that message while the request was active, or the refusal of that very submission with that message |
| `ActorReasons.CountersAreTrue` | crates/eider-api/src/actor.rs:738-828 | in every state of every run the counters are the numbers of submissions that completed, failed and were cancelled, and the accepted ones are those and the ones still in the tables |
| `ActorClients.EveryoneListens` | crates/eider-api/src/server.rs:404-564 | in every state of every run a receiver is open exactly while its handler has not ended, an outcome was taken exactly by a satisfied handler, and commands are closed only after every handler ended |
| `ActorClients.WaitingDecisionsStay` | crates/eider-api/src/actor.rs:609-614 | so no decision is withdrawn, before the thread stops, while its handler waits |
| `ActorClients.AnyoneCanLeave` | crates/eider-api/src/server.rs:606-630 | a handler that has not ended can leave in any state, which closes its receiver and leaves a Cancel behind |
| `ActorClients.LastOneOut` | crates/eider-api/src/actor.rs:333-366 | once every handler has ended and nothing is left to do, three steps lead to the stopped state with one more shutdown |
| `ActorTicks.WithdrawnForAReason` | crates/eider-api/src/actor.rs:609-627 | in every run a request is withdrawn only if its receiver is gone, a send to it was refused, or the thread is stopping or has stopped |
| `ActorTicks.EveryJustified` | crates/eider-api/src/actor.rs:609-627 | the invariant behind it: a Cancel is queued only for a receiver that is gone, and a request is on the list to be cancelled only for one of these reasons |
| `ActorTicks.TickKeeps` | crates/eider-api/src/actor.rs:536-627 | over every interleaving, from any point of a tick on, a request the rest of the tick does not name keeps its entry unless a send to it was refused or its handler has left |
| `ActorTicks.TickLeavesAlone` | crates/eider-api/src/actor.rs:536-627 | a whole tick removes only the requests it finishes, decides or fails, those a send was refused for, and decisions whose handler has left |
| `ActorPromises.CancelFollowsSubmit` | crates/eider-api/src/actor.rs:230-273 | no Cancel is handled before the submission it is about |
| `ActorPromises.EveryGuard` | crates/eider-api/src/server.rs:606-630 | over every run, a client loop that ended without a terminal event has its cancellation queued or its request gone |
| `ActorPromises.NoAbandonedRequests` | crates/eider-api/src/server.rs:455-564 | once the queue is drained, or the actor has stopped, no request whose started client loop ended without a terminal event is in any of the maps |
| `ActorPromises.EveryCaught` | crates/eider-api/src/actor.rs:537-547 | an active request whose channel refused a send is on the list of requests to be removed before the tick ends |
| `ActorPromises.ActiveRequestsMissNothing` | crates/eider-api/src/actor.rs:537-636 | with no hypothesis on channels: whenever the actor takes commands, every active request has been sent everything the engine produced for it |
| `Service.EveryClient` | crates/eider-api/src/server.rs:455-564 | a handler that holds a terminal event received it last |
| `Service.SatisfiedClientSawEverything` | crates/eider-api/src/server.rs:455-564 | a handler with its terminal event has received the whole log, and that is every engine output, in order, and the one terminal event, if and only if no send was refused on its channel |
| `Service.FinishedCanFollowALoss` | crates/eider-api/src/actor.rs:537-547 | a concrete run in which a delta is lost and the end still arrives, so a finished client has not always seen everything |
| `ActorThread.Thread.constructor` | crates/eider-api/src/actor.rs:330-332 | the thread starts in the machine's initial state |
| `ActorThread.Thread.TrySendTo` | crates/eider-api/src/actor.rs:537-547 | a send succeeds exactly when the receiver is open and has room, and is recorded either way |
| `ActorThread.Thread.CancelSchedulerRequest` | crates/eider-api/src/actor.rs:738-784 | the maps and counters become those of the specification removal |
| `ActorThread.Thread.FailSchedulerRequest` | crates/eider-api/src/actor.rs:798-826 | as above for failures, and a decision is told the error |
| `ActorThread.Thread.HandleCommand` | crates/eider-api/src/actor.rs:644-736 | the whole new state is the machine's, and only Shutdown stops the loop |
| `ActorThread.Thread.CancelAll` | crates/eider-api/src/actor.rs:830-844 | the loop is a path of machine steps that ends with three empty maps, having counted exactly the active requests as cancelled |
| `ActorThread.Thread.Stop` | crates/eider-api/src/actor.rs:628-642 | stopping is a path to the stopped state with empty maps and exactly one shutdown |
| `ActorThread.Thread.NotifyAll` | crates/eider-api/src/actor.rs:430-434 | every active chat request, and no other, is offered the error once, and nothing else is sent |
| `ActorThread.Thread.FailAll` | crates/eider-api/src/actor.rs:786-828 | the loop is a path of machine steps that ends with three empty maps, having counted exactly the active requests as failed |
| `ActorThread.Thread.FailTick` | crates/eider-api/src/actor.rs:421-443 | a failed tick is a path of machine steps: every active chat request, and no other, told once, everything removed and counted as failed, back at the top |
| `ActorThread.Thread.SendOutputs` | crates/eider-api/src/actor.rs:537-547 | the loop over outputs is a path of machine steps and returns exactly the ids whose send was refused |
| `ActorThread.Thread.SendEndings` | crates/eider-api/src/actor.rs:549-576 | the loop over finished requests is a path of machine steps |
| `ActorThread.Thread.SendVerdicts` | crates/eider-api/src/actor.rs:577-592 | the loop over decided decisions is a path of machine steps |
| `ActorThread.Thread.SendRefusals` | crates/eider-api/src/actor.rs:593-608 | the loop over failed decisions is a path of machine steps |
| `ActorThread.Thread.CancelDisconnected` | crates/eider-api/src/actor.rs:609-625 | afterwards no refused id is active and every decision still in the table has an open receiver |
| `ActorThread.Thread.FanOut` | crates/eider-api/src/actor.rs:536-627 | a whole successful tick is a path of machine steps back to the top; afterwards every decision in the table has an open receiver, no request whose first refused send came during the tick is active, and every request that the tick does not end, that was refused nothing and whose receiver is open has kept its entry |
| `ActorThread.Thread.DrainCommands` | crates/eider-api/src/actor.rs:333-365 | the loop over waiting commands is a path of machine steps that ends with an empty queue, or with a Shutdown taken |
| `ActorThread.Thread.Turn` | crates/eider-api/src/actor.rs:333-636 | one whole turn of the loop (commands, then a successful or failing tick if anything is active; or the exit by a closed command channel when nothing is active and nothing waits) is a path of machine steps back to the top with an empty queue, or to the stopped state with empty tables and exactly one shutdown; a failing tick leaves nothing active, no request that is still active was first refused a send on the way, and after a turn that ran on every decision in the table has an open receiver |
| `ActorThread.Thread.StopWhenClosed` | crates/eider-api/src/actor.rs:333-337 | with nothing active, an empty queue and a closed command channel the loop ends and the service is shut down once |
| `ActorThread.PathRefusesNothing` | crates/eider-api/src/actor.rs:537-636 | on any path of the machine, back at the top no active request has had its first refused send on the way |
| `ActorThread.PathTakesNoOther` | crates/eider-api/src/actor.rs:536-627 | on any path through one tick, without client moves, the requests it does not end keep their entries unless a send to them was refused or their handler has left |
| `ActorThread.PathSound` | crates/eider-api/src/actor.rs:305-636 | so every invariant of the machine holds after any of these loops |
| `Handlers.CancellationGuard.constructor` | crates/eider-api/src/server.rs:611-617 | a guard starts armed |
| `Handlers.CancellationGuard.Disarm` | crates/eider-api/src/server.rs:619-621 | a disarmed guard holds no actor |
| `Handlers.CancellationGuard.Drop` | crates/eider-api/src/server.rs:624-630 | dropping sends Cancel for its request exactly when armed |
| `Handlers.AnswerWhole` | crates/eider-api/src/server.rs:512-540 | returns the response of the first terminal event, the error it reports, or the early-close error; reads nothing after it; sends Cancel exactly when there was none |
| `Handlers.AnswerWholeChat` | crates/eider-api/src/server.rs:542-564 | the same for Chat Completions |
| `Handlers.AnswerStreaming` | crates/eider-api/src/server.rs:455-481 | a client that takes n events sees the first n of the full stream; Cancel is sent unless a terminal event was reached and the client came back after the last event, or never asked for anything |
| `Handlers.AnswerStreamingChat` | crates/eider-api/src/server.rs:483-510 | the same for chat chunks, with the guard disarmed before the closing marker |
| `Handlers.AwaitDecision` | crates/eider-api/src/server.rs:404-418 | Cancel is sent exactly when no completed decision is returned: on timeout, early close and reported failure |
| `Handlers.StepAnswer` | crates/eider-api/src/protocol.rs:578-607 | pushing a non-terminal event completes nothing and carries no answer; the first terminal one completes the stream and carries it |
| `Handlers.ChatStep` | crates/eider-api/src/chat_completions.rs:403-510 | the same for the chat stream |
| `EndToEnd.AnswersAfter` | crates/eider-api/src/server.rs:512-564 | after any outputs and an end, the Responses answer reads back as the turn and the Chat answer shows it, each with the status, reason and usage that the end calls for, or both report the same error |
| `EndToEnd.EngineToAnswer` | crates/eider-api/src/server.rs:512-564 | in every run of the system, on a channel without losses, both answers a finished handler gives say exactly what the engine produced for the request and how it ended |
| `Kernels.ScaleInnerCoversRow` | backends/cuda-oxide/src/common.rs:252-253 | the rounded-up block count covers a row and exceeds its blocks by less than a tile |
| `Kernels.OffsetReadsBack` | backends/cuda-oxide/src/common.rs:251-260 | row and block are recovered from the offset by the explicit inverse, so no two share one |
| `Kernels.OffsetInRange` | backends/cuda-oxide/src/common.rs:251-260 | T row tiles stay below 128 T ScaleInner |
| `Kernels.OffsetCovers` | backends/cuda-oxide/src/common.rs:251-260 | every place below 128 T ScaleInner is used, by the row and block the inverse gives |
| `Kernels.WrapsOnce` | backends/cuda-oxide/src/common.rs:251-260 | the 32-bit wrapping computation is the exact one reduced modulo 2^32 |
| `Kernels.NoOverflowIff` | backends/cuda-oxide/src/common.rs:251-260 | the 32-bit offsets are exact on the whole range if and only if 128 T ScaleInner is at most 2^32 |
| `Kernels.PartnerIsXor` | backends/cuda-oxide/src/common.rs:233-248 | the partner lane is the exclusive or of lane number and mask |
| `Kernels.EveryLaneHalves` | backends/cuda-oxide/src/common.rs:233-248 | for any power of two of lanes and any commutative operation, every lane ends with the same value, that of halving |
| `Kernels.HalveIsFold` | backends/cuda-oxide/src/common.rs:233-248 | for an associative and commutative operation halving combines all inputs |
| `Kernels.WarpReduce` | backends/cuda-oxide/src/common.rs:233-248 | after the steps 16, 8, 4, 2, 1 all 32 lanes agree (commutativity alone) and hold the combination of all 32 inputs (associativity too) |
| `Selector.FullSortSorts` | crates/eider-cuda/benches/dflash2_selector.rs:203-229 | inserting the tokens one by one sorts the row by logit descending, then token ascending, each token once |
| `Selector.FullSortUnique` | crates/eider-cuda/benches/dflash2_selector.rs:203-229 | a row has only one such order |
| `Selector.InsertIntoTop` | crates/eider-cuda/benches/dflash2_selector.rs:207-226 | inserting into the first k and cutting is the first k of inserting into everything |
| `Selector.BinarySearch` | crates/eider-cuda/benches/dflash2_selector.rs:208-216 | the search finds the rank of the token among the current candidates |
| `Selector.CpuTopKRows` | crates/eider-cuda/benches/dflash2_selector.rs:203-229 | for every vocabulary, k and row count the output is, row by row, the first k of the full sort |
| `Selector.RowsAreBest` | crates/eider-cuda/benches/dflash2_selector.rs:203-229 | in numbers: each row's part of the output has as many tokens as asked for, or all, in falling order, and no token left out has a larger logit than one of them, nor an equal one and a smaller id |
| `Selector.SortIsTop` | crates/eider-cuda/benches/dflash2_selector.rs:203-229 | the first k of the full sort are such a choice |
| `Selector.InsertToken` | crates/eider-cuda/benches/dflash2_selector.rs:207-226 | one token leaves everything found for earlier rows untouched |
| `Selector.SelectPath` | crates/eider-cuda/benches/dflash2_selector.rs:231-267 | each step takes the candidate with the highest score, lowest token on ties, after the token taken before |
| `Selector.BestIsUnique` | crates/eider-cuda/benches/dflash2_selector.rs:250-262 | the best candidate depends only on the multiset of candidates |
| `Selector.PathIgnoresOrder` | crates/eider-cuda/benches/dflash2_selector.rs:231-267 | reordering the candidates of each step does not change the path |
| `Selector.StepSeesTopOfRow` | crates/eider-cuda/benches/dflash2_selector.rs:203-249 | the candidates of step i are the first k of the full sort of row i |
| `Decisions.CalibratedProbabilities` | crates/eider-api/src/decisions.rs:511-540 | computes the calibrated distribution in place, and fails exactly on fewer than two options, a non-finite logit or an invalid temperature; for an exponential that turns sums into products the result is the softmax of the logits divided by the temperature: p[i] exp(x[j]/t) = p[j] exp(x[i]/t), summing to one |
| `Decisions.CalibrationKeepsOrder` | crates/eider-api/src/decisions.rs:511-540 | at every temperature the probabilities are positive, sum to one and are ordered as the logits |
| `Decisions.CalibratedIsSoftmax` | crates/eider-api/src/decisions.rs:511-540 | the proportions and the sum, with the division written out |
| `Decisions.SoftmaxIsUnique` | crates/eider-api/src/decisions.rs:511-540 | proportions and sum determine the distribution |
| `Decisions.ArgMax` | crates/eider-api/src/decisions.rs:542-548 | the last index of a largest value |
| `Decisions.ChoiceIgnoresTemperature` | crates/eider-api/src/decisions.rs:511-548 | the selected option is the last one with the largest logit, at every temperature |
| `Decisions.ScoreOnScale` | crates/eider-api/src/decisions.rs:436-446 | a calibrated score lies between the first and the last position of its scale |
| `Decisions.MeanIsTailSums` | crates/eider-api/src/decisions.rs:436-446 | the mean position is the sum of the probabilities of being at each position or beyond |
| `Decisions.Convert` | crates/eider-api/src/decisions.rs:371-464 | one answer converts exactly when its logits fit, and fails with the error of exactly the check that failed; the calibrated choice, score and probabilities are those of the distribution |
| `Decisions.CalibratedAnswer` | crates/eider-api/src/decisions.rs:371-464 | every calibrated answer is read off the softmax of its logits at the temperature of its own kind: the last largest probability, the mean position and every option's probability |
| `Decisions.ResponseIsCalibrated` | crates/eider-api/src/decisions.rs:340-487 | so is every answer of a calibrated response |
| `Decisions.CollectedDistinct` | crates/eider-api/src/decisions.rs:415-419 | collecting pairs with distinct keys keeps them all, in order |
| `Decisions.CollectedIsMap` | crates/eider-api/src/decisions.rs:415-419 | whatever the keys, each appears once, where it first came, with the value that came last |
| `Decisions.IndexLogits` | crates/eider-api/src/decisions.rs:352-363 | succeeds exactly on distinct question ids |
| `Decisions.FromCompletion` | crates/eider-api/src/decisions.rs:340-487 | a response is built if and only if answer ids are distinct, logit ids are distinct and match them one to one, and every vector fits; order and raw logits are kept; every error names its cause, and the duplicate-question and normalisation errors are never returned although their branches are there |
| `Decisions.MissingIsUnacceptable` | crates/eider-api/src/decisions.rs:367-371 | an answer that finds no logits has none, or repeats an earlier answer, and the completion is unacceptable |
| `Decisions.FoundIsNew` | crates/eider-api/src/decisions.rs:465-470 | an answer that still finds its logits is not among the answers collected so far, so the duplicate-question check never fires |
| `Decisions.LeftoverIsUnacceptable` | crates/eider-api/src/decisions.rs:472-476 | logits without an answer make the completion unacceptable |
| `Dataset.Shuffle` | scripts/build-decision-eval-dataset.py:127-128 | any draws give a permutation |
| `Dataset.BalancedSchedule` | scripts/build-decision-eval-dataset.py:120-133 | fails exactly when the count is not divisible by twice the labels; otherwise, whatever the shuffles, every label occurs count/(2 labels) times at even and at odd positions |
| `Dataset.ShuffledBalance` | scripts/build-decision-eval-dataset.py:120-133 | the balance for any two permutations |
| `Dataset.BalancedRows` | scripts/build-decision-eval-dataset.py:78-117 | succeeds if and only if every label has its share of usable rows among all reachable entries, and then gives each label its first ones in order; otherwise reports exactly the labels that are short, each with exactly what it lacks |
| `Dataset.ReachesTwoThousand` | scripts/build-decision-eval-dataset.py:78-117 | with pages cut from one list of rows, exactly the first two thousand rows from a starting offset are reached, or all that there are |
| `Dataset.TakeRows` | scripts/build-decision-eval-dataset.py:154-159 | no position leaves the fetched rows, the rows chosen for each label are exactly its fetched rows in order, and no two examples share a row |
| `Dataset.BuildSource` | scripts/build-decision-eval-dataset.py:140-159 | built if and only if the count divides and every label has enough usable rows; then each example has a row of its own label with a text that is not blank, each label uses its first usable rows in order, and no two examples share a row |
| `Calibration.FitTemperature` | scripts/decision-eval.py:567-581 | the fitted temperature lies between 0.05 and 20 and its loss is returned; whenever the loss has a single valley over that range, the temperature is within the factor exp(half of the last logarithmic width) of its bottom, wherever that is |
| `Calibration.UnimodalInLog` | scripts/decision-eval.py:570-579 | a single valley over the temperatures is one over their logarithms, where the search runs |
| `Calibration.SearchKeepsMinimum` | scripts/decision-eval.py:567-579 | for every strictly unimodal objective the minimum stays inside, and the intervals nest |
| `Calibration.SearchWidth` | scripts/decision-eval.py:570-579 | after n rounds the width is exactly (2/3)^n of the start |
| `Calibration.MiddleNear` | scripts/decision-eval.py:567-581 | the result is within half of the last width of the minimum |
| `Calibration.FactorFromLog` | scripts/decision-eval.py:580 | closeness of logarithms is closeness of temperatures up to a factor |
| `Calibration.TwoValleysMislead` | scripts/decision-eval.py:570-579 | without unimodality the first step can drop the minimum |
| `Metrics.SessionMetrics.constructor` | crates/eider-api/src/actor.rs:860-880 | a session starts with nothing counted or reported, every counter zero and no time but that of its submission |
| `Metrics.SessionMetrics.RecordAdmission` | crates/eider-api/src/actor.rs:882-896 | the cached prefix becomes the baseline of prefill |
| `Metrics.SessionMetrics.RecordPrefillStart` | crates/eider-api/src/actor.rs:898-905 | only the first start is stored, with its time, and moves the report time |
| `Metrics.SessionMetrics.RecordPrefill` | crates/eider-api/src/actor.rs:907-927 | a report is made exactly when ten seconds have passed since the last one, and covers what was counted since, never less than nothing; the mark moves with it |
| `Metrics.SessionMetrics.RecordToken` | crates/eider-api/src/actor.rs:929-954 | the first token only sets the mark; later ones are reported exactly when ten seconds have passed, for what was counted since the last report |
| `Metrics.SessionMetrics.RecordDraftProgress` | crates/eider-api/src/actor.rs:961-985 | the first progress only starts the clock; each report, ten seconds or more after the last, is the gain since the last with the current positions |
| `Metrics.ReportsTelescope` | crates/eider-api/src/actor.rs:907-985 | for every run the reports add up to last reported minus baseline exactly when the counter never falls between reports, and to more otherwise |
| `Metrics.NothingLost` | crates/eider-api/src/actor.rs:907-985 | with a nondecreasing counter, reported plus outstanding is the whole gain |
| `Metrics.ReportsAreSpaced` | crates/eider-api/src/actor.rs:907-985 | over any run n reports take at least n intervals, and after any sample the last report is less than an interval old |
| `Metrics.PrefillTelescopes` | crates/eider-api/src/actor.rs:898-927 | over any starts and positions in any order the reports add up to the last reported position minus the baseline exactly when no report falls back, and to more otherwise |
| `Metrics.PrefillRun` | crates/eider-api/src/actor.rs:882-927 | starts before the admission, the admission, then any starts and positions: if the positions start at the cached prefix and never go back, the reports add up to the last reported position minus the cached prefix, and the start time is that of the very first start |
| `Metrics.DecodeRun` | crates/eider-api/src/actor.rs:929-954 | decode reports add up to the last reported count minus the first token |
| `Metrics.DraftReportsTelescope` | crates/eider-api/src/actor.rs:1170-1188 | draft interval statistics add up to the last reported statistics, field by field, from zero |
| `Metrics.DraftRun` | crates/eider-api/src/actor.rs:961-985 | the same for the running session |
| `Metrics.TokenRateSampler.constructor` | crates/eider-api/src/metrics.rs:204-210 | the sampler starts at the given counters |
| `Metrics.TokenRateSampler.Sample` | crates/eider-api/src/metrics.rs:212-238 | a sample at the same instant changes nothing; any other moves all three fields and reports the saturated, non-negative differences |
| `Metrics.SampleRun` | crates/eider-api/src/metrics.rs:203-239 | over any readings with nondecreasing counters every token is attributed once, even when samples share an instant |

## Left out

- HTTP routing, server-sent-event framing, bearer checks, body limits, timing headers, health and model listings (`server.rs`): no
  state beyond one request.
- Translating request options (sampling, reasoning effort, tool choice, tool definitions): single branches over runtime types that
  are not part of this model.
- The engine, scheduler, prefix cache and speculative verifier: only their interface is used, as a nondeterministic environment.
- `deployment.rs`, GPU kernels other than the two index and lane functions, CUDA wrappers and the other benches.
- The text of error envelopes, log lines, timestamps and the ids of whole responses; errors are values with the data that
  distinguishes them.
- The constant members of a response body, the JSON of streamed events around their data, the input given as one bare string, and the
  token rates computed from reported counts and intervals: only easy members.
- Raw decision logits are kept as vectors in option order; the option names they are keyed by in the response are those of the answer.
- Concurrency inside `ActorThread.Thread`: its methods run without client moves in between. The step system in `Actor.dfy` covers
  every interleaving, and each method is a path of it.
- The order in which a set of requests is removed: the source goes by ascending engine id, the model allows any order, so what is
  proved holds for the source's order too.
- The sweep for deserted decisions: in the step system it may miss clients that hang up while it runs; in the thread it finds all.
- Submissions accepted between the end of the actor's loop and the closing of its command channel are dropped by the source unseen;
  the step system stops accepting when the loop has ended.
- Calibration weights that do not normalise can occur only in floating point; in real arithmetic that error branch is kept and
  proved never taken.
- Three sources are built by the same steps in `build_dataset`; `Dataset.BuildSource` states them for one source with any labels.
- Whether the calibration losses have a single valley is not claimed; without it the search can lose the minimum
  (`Calibration.TwoValleysMislead`).
- Kernels.WarpReduce: 32-bit floating-point addition is not associative, so for the sum only the agreement of all lanes carries over
  bit for bit.
- Durations that overflow, and counters beyond the machine's word size, except where `Metrics.SampledDelta` and
  `Kernels.TiledOffset32` make the width explicit.
