/** From the engine to the client: what a handler that received a terminal event has seen. */
module Service {
  import opened Wrappers
  import opened ChatModel
  import opened Actor
  import opened ActorTables
  import opened ActorDelivery
  import ActorPromises

  /** A handler that holds, or has finished with, a terminal event received it last. */
  predicate ClientAt(s: State, e: ExternalId) {
    && e in s.wires.channels && e in s.clients
    && s.wires.channels[e].taken <= |s.wires.channels[e].sent|
    && (s.clients[e].Satisfied? || s.clients[e] == Over(true) ==>
         var c := s.wires.channels[e]; c.taken > 0 && c.sent[c.taken - 1].Terminal())
  }

  lemma ClientServed(s: State, t: State, e: ExternalId)
    requires ClientAt(s, e) && t.clients == s.clients && Chatting(s, e) && Chatting(t, e)
    requires Serves(ViewOf(s, e), ViewOf(t, e))
    ensures ClientAt(t, e)
  {
  }

  lemma ClientOutside(s: State, o: Outside, e: ExternalId)
    requires CanAct(s, o) && ClientAt(s, e) && (o.NewChat? || o.NewDecision? ==> e != s.book.next)
    requires e !in s.wires.slots
    ensures ClientAt(Acted(s, o), e)
  {
  }

  /** The actor thread only serves. */
  lemma InsideServes(s: State, a: Action, e: ExternalId)
    requires Sound(s) && Enabled(s, a) && !a.ByOutside? && PlaceAt(s, e) && e in s.wires.channels
    ensures Chatting(Apply(s, a), e) && Serves(ViewOf(s, e), ViewOf(Apply(s, a), e))
  {
    if a.ByControl? {
      if a.control.FailedAll? { FailedAllLeavesNone(s); }
      ControlAt(s, a.control, e);
    } else if a.ByCommand? {
      CommandAt(s, a.admission, e);
    } else if a.ByFan? {
      FanAt(s, a.fan, e);
    } else {
      PurgeAt(s, a.purge, e);
    }
  }

  lemma ClientStep(s: State, a: Action, e: ExternalId)
    requires Sound(s) && Enabled(s, a) && ClientAt(s, e)
    ensures ClientAt(Apply(s, a), e)
  {
    SoundPlaceAt(s, e);
    if a.ByOutside? {
      ActorPromises.NextIsNew(s);
      ChatHasNoSlot(s, e);
      ClientOutside(s, a.outside, e);
    } else {
      InsideServes(s, a, e);
      ActorPromises.NewGuardInside(s, a);
      ClientServed(s, Apply(s, a), e);
    }
  }

  lemma ChatHasNoSlot(s: State, e: ExternalId)
    requires Sound(s) && e in s.wires.channels
    ensures e !in s.wires.slots
  {
  }

  lemma ClientNew(s: State, a: Action, e: ExternalId)
    requires Enabled(s, a) && e in Apply(s, a).wires.channels && e !in s.wires.channels
    ensures ClientAt(Apply(s, a), e)
  {
    NewChannels(s, a, e);
  }

  lemma ClientKept(s: State, a: Action, t: State, e: ExternalId)
    requires Sound(s) && StepOf(s, a, t) && e in t.wires.channels && (e in s.wires.channels ==> ClientAt(s, e))
    ensures ClientAt(t, e)
  {
    if e in s.wires.channels {
      ClientStep(s, a, e);
    } else {
      ClientNew(s, a, e);
    }
  }

  lemma ClientNext(states: seq<State>, actions: seq<Action>, i: nat, e: ExternalId)
    requires IsRun(states, actions) && i < |actions| && e in states[i + 1].wires.channels
    requires e in states[i].wires.channels ==> ClientAt(states[i], e)
    ensures ClientAt(states[i + 1], e)
  {
    EveryStateSound(states, actions, i);
    ClientKept(states[i], actions[i], states[i + 1], e);
  }

  lemma {:induction false} EveryClient(states: seq<State>, actions: seq<Action>, i: nat, e: ExternalId)
    requires IsRun(states, actions) && i < |states| && e in states[i].wires.channels
    ensures ClientAt(states[i], e)
  {
    if i > 0 {
      if e in states[i - 1].wires.channels { EveryClient(states, actions, i - 1, e); }
      ClientNext(states, actions, i - 1, e);
    }
  }

  function Received(s: State, e: ExternalId): seq<InferenceEvent>
    requires e in s.wires.channels
  {
    var c := s.wires.channels[e];
    if c.taken <= |c.sent| then c.sent[..c.taken] else []
  }

  /** Only the last event sent is terminal, so a handler holding one has taken everything. */
  lemma TakenAll(c: Channel, tail: Option<InferenceEvent>)
    requires LogShape(c, tail) && 0 < c.taken <= |c.sent| && c.sent[c.taken - 1].Terminal()
    ensures c.taken == |c.sent| && c.sent[..c.taken] == c.sent && tail == Some(c.sent[|c.sent| - 1])
    ensures !c.lost <==> c.sent == Outputs(c.offered) + [c.sent[|c.sent| - 1]]
  {
    assert c.taken == |c.sent|;
  }

  lemma OwedMeansNothingPending(s: State, e: ExternalId)
    requires PlaceAt(s, e) && ViewOf(s, e).tail.Some?
    ensures ViewOf(s, e).pending == []
  {
  }

  /** What a handler at its terminal event has seen, in one state. */
  lemma EverythingSeen(s: State, e: ExternalId)
    requires PlaceAt(s, e) && ViewOk(ViewOf(s, e)) && ClientAt(s, e)
    requires e in s.clients && (s.clients[e].Satisfied? || s.clients[e] == Over(true))
    ensures
      var r := Received(s, e);
      && r == s.wires.channels[e].sent && r != [] && r[|r| - 1].Terminal()
      && ViewOf(s, e).tail == Some(r[|r| - 1])
      && (!s.wires.channels[e].lost <==> r == Outputs(s.wires.emitted[e]) + [r[|r| - 1]])
  {
    hide Outputs, For;
    var v := ViewOf(s, e);
    TakenAll(v.channel, v.tail);
    OwedMeansNothingPending(s, e);
    assert v.emitted == v.channel.offered;
  }

  /** A handler that has its terminal event has received the whole log. That is every output event the engine produced
      for the request, in order, then the one terminal event, if and only if no send was refused on its channel. */
  lemma SatisfiedClientSawEverything(states: seq<State>, actions: seq<Action>, i: nat, e: ExternalId)
    requires IsRun(states, actions) && i < |states| && e in states[i].wires.channels
    requires e in states[i].clients && (states[i].clients[e].Satisfied? || states[i].clients[e] == Over(true))
    ensures
      var s := states[i];
      && Chatting(s, e)
      && var r := Received(s, e);
      && r == s.wires.channels[e].sent && r != [] && r[|r| - 1].Terminal()
      && ViewOf(s, e).tail == Some(r[|r| - 1])
      && (!s.wires.channels[e].lost <==> r == Outputs(s.wires.emitted[e]) + [r[|r| - 1]])
  {
    hide IsRun, Sound, Delivered, ClientAt, PlaceAt, ViewOk, ViewOf, Outputs;
    EveryClient(states, actions, i, e);
    EveryStateDelivered(states, actions, i);
    EveryStateSound(states, actions, i);
    SoundPlaceAt(states[i], e);
    DeliveredAt(states[i], e);
    EverythingSeen(states[i], e);
  }

  // ---------------------------------------------------------------- what a refused send can do

  // One chat request, with room for one event, whose only tick produces two deltas and the end.

  const TWO_LETTERS := [Delta(0, Text("a")), Delta(0, Text("b"))]

  function LossyState(phase: Phase, served: bool, fate: Fate, channel: Channel, client: Client,
      emitted: seq<OutputEvent>): State
  {
    State(1, phase,
          Core(if served then map[0 := 1] else map[], map[], if served then map[1 := 0] else map[],
               Tally(1, if served then 0 else 1, 0, 0)),
          Book(2, map[1 := Chat], map[1 := fate], {0}), [], false,
          Wires(map[1 := channel], map[], map[1 := emitted]), map[1 := client], 0)
  }

  function LossyRun(usage: Usage): seq<State> {
    var end := [Ending(0, Eos, usage)];
    var a, ab := [Text("a")], [Text("a"), Text("b")];
    var submitted := Submitted(Init(1), Chat);
    var begun := submitted.(clients := map[1 := Running]);
    var sent := [Output(Text("a"))];
    [ Init(1), submitted, begun,
      LossyState(Drain, true, Active, Channel([], [], 0, true, false), Running, []),
      LossyState(Tick(Work(TWO_LETTERS, end, [], []), {}), true, Active, Channel([], [], 0, true, false), Running, ab),
      LossyState(Tick(Work(TWO_LETTERS[1..], end, [], []), {}), true, Active, Channel(sent, a, 0, true, false),
                 Running, ab),
      LossyState(Tick(Work([], end, [], []), {0}), true, Active, Channel(sent, ab, 0, true, true), Running, ab),
      LossyState(Tick(Work([], end, [], []), {0}), true, Active, Channel(sent, ab, 1, true, true), Running, ab),
      LossyState(Tick(Work([], [], [], []), {0}), false, Ended(Eos, usage),
                 Channel(sent + [Finished(Eos, usage)], ab, 1, true, true), Running, ab),
      LossyState(Tick(Work([], [], [], []), {0}), false, Ended(Eos, usage),
                 Channel(sent + [Finished(Eos, usage)], ab, 2, true, true), Satisfied, ab) ]
  }

  function LossySteps(usage: Usage): seq<Action> {
    [ ByOutside(NewChat), ByOutside(Begin(1)), ByCommand(Admitted(0)),
      ByControl(TickDone(Work(TWO_LETTERS, [Ending(0, Eos, usage)], [], []))), ByFan(SendDelta), ByFan(SendDelta),
      ByOutside(Receive(1)), ByFan(SendFinished), ByOutside(Receive(1)) ]
  }

  lemma FirstAdmission(s: State, t: State)
    requires s.phase.Top? && s.core == NO_REQUESTS && s.queue == [Submit(1)] && 1 in s.wires.channels
        && s.book.issued == {}
    requires t == State(s.capacity, Drain, Core(map[0 := 1], map[], map[1 := 0], Tally(1, 0, 0, 0)),
                        Book(s.book.next, s.book.kinds, s.book.fates[1 := Active], {0}), [], s.closed,
                        s.wires, s.clients, s.shutdowns)
    ensures StepOf(s, ByCommand(Admitted(0)), t)
  {
    assert s.queue[1..] == [];
    assert map[][0 := 1] == map[0 := 1] && map[][1 := 0] == map[1 := 0] && {} + {0} == {0};
  }

  lemma LossyAdmission(usage: Usage)
    ensures StepOf(LossyRun(usage)[2], ByCommand(Admitted(0)), LossyRun(usage)[3])
  {
    var s, t := LossyRun(usage)[2], LossyRun(usage)[3];
    assert s.queue == [] + [Submit(1)] == [Submit(1)];
    FirstAdmission(s, t);
  }

  lemma LossyOpening(usage: Usage)
    ensures StepOf(LossyRun(usage)[0], ByOutside(NewChat), LossyRun(usage)[1])
    ensures StepOf(LossyRun(usage)[1], ByOutside(Begin(1)), LossyRun(usage)[2])
  {
  }

  lemma LettersFor()
    ensures For(TWO_LETTERS, 0) == [Text("a"), Text("b")]
    ensures TWO_LETTERS[1..] == [Delta(0, Text("b"))] && TWO_LETTERS[1..][1..] == []
  {
    var rest := [Delta(0, Text("b"))];
    assert TWO_LETTERS[1..] == rest && rest[1..] == [];
    assert For(rest[1..], 0) == [];
    assert For(rest, 0) == [Text("b")] + For(rest[1..], 0);
    assert For(TWO_LETTERS, 0) == [Text("a")] + For(rest, 0);
  }

  lemma EmittedAt(w: Wires, core: Core, output: seq<Delta>, e: ExternalId)
    requires e in w.emitted && w.emitted[e] == [] && e in core.byExternal
    ensures EngineEmits(w, core, output).emitted[e] == For(output, core.byExternal[e])
  {
    assert [] + For(output, core.byExternal[e]) == For(output, core.byExternal[e]);
  }

  lemma OnlyEntry(m: map<ExternalId, seq<OutputEvent>>, outs: seq<OutputEvent>)
    requires m.Keys == {1} && m[1] == outs
    ensures m == map[1 := outs]
  {
  }

  lemma OneEmits(w: Wires, core: Core, output: seq<Delta>)
    requires w.emitted == map[1 := []] && core.byExternal == map[1 := 0]
    ensures EngineEmits(w, core, output) == w.(emitted := map[1 := For(output, 0)])
  {
    EmittedAt(w, core, output, 1);
    assert EngineEmits(w, core, output).emitted.Keys == w.emitted.Keys;
    OnlyEntry(EngineEmits(w, core, output).emitted, For(output, 0));
  }

  lemma LossyTick(usage: Usage)
    ensures StepOf(LossyRun(usage)[3], LossySteps(usage)[3], LossyRun(usage)[4])
  {
    var work := Work(TWO_LETTERS, [Ending(0, Eos, usage)], [], []);
    var s := LossyState(Drain, true, Active, Channel([], [], 0, true, false), Running, []);
    LettersFor();
    OneEmits(s.wires, s.core, TWO_LETTERS);
    assert 0 in s.core.active;
    assert StepOf(s, ByControl(TickDone(work)),
        s.(phase := Tick(work, {}), wires := EngineEmits(s.wires, s.core, TWO_LETTERS)));
  }

  lemma LossyDelta(served: Work, channel: Channel, emitted: seq<OutputEvent>, seen: set<EngineId>)
    requires served.output != [] && served.output[0].id == 0
    ensures
      var s := LossyState(Tick(served, seen), true, Active, channel, Running, emitted);
      var full := !channel.open || channel.Full(1);
      StepOf(s, ByFan(SendDelta),
             LossyState(Tick(served.(output := served.output[1..]), seen + (if full then {0} else {})), true, Active,
                        channel.Offer(Output(served.output[0].event), !full), Running, emitted))
  {
    var s := LossyState(Tick(served, seen), true, Active, channel, Running, emitted);
    var c := channel.Offer(Output(served.output[0].event), !Refuses(s.wires, 1, 1));
    assert map[1 := channel][1 := c] == map[1 := c];
  }

  lemma LossyDeltas(usage: Usage)
    ensures StepOf(LossyRun(usage)[4], ByFan(SendDelta), LossyRun(usage)[5])
    ensures StepOf(LossyRun(usage)[5], ByFan(SendDelta), LossyRun(usage)[6])
  {
    hide StepOf, LossyState, Submitted, For;
    LettersFor();
    var end, ab := [Ending(0, Eos, usage)], [Text("a"), Text("b")];
    var empty := Channel([], [], 0, true, false);
    var one := Channel([Output(Text("a"))], [Text("a")], 0, true, false);
    assert empty.Offer(Output(Text("a")), true) == one;
    assert one.Offer(Output(Text("b")), false) == Channel([Output(Text("a"))], ab, 0, true, true);
    LossyDelta(Work(TWO_LETTERS, end, [], []), empty, ab, {});
    LossyDelta(Work(TWO_LETTERS[1..], end, [], []), one, ab, {});
    var none: set<EngineId> := {};
    assert none + none == none && none + {0} == {0};
  }

  lemma LossyReceive(phase: Phase, served: bool, fate: Fate, channel: Channel, emitted: seq<OutputEvent>)
    requires channel.taken < |channel.sent|
    ensures StepOf(LossyState(phase, served, fate, channel, Running, emitted), ByOutside(Receive(1)),
                   LossyState(phase, served, fate, channel.(taken := channel.taken + 1),
                              if channel.sent[channel.taken].Terminal() then Satisfied else Running, emitted))
  {
    var c := channel.(taken := channel.taken + 1);
    assert map[1 := channel][1 := c] == map[1 := c];
    assert map[1 := Running][1 := Satisfied] == map[1 := Satisfied];
  }

  lemma LossyFinish(usage: Usage, channel: Channel, emitted: seq<OutputEvent>)
    requires channel.open && !channel.Full(1)
    ensures StepOf(LossyState(Tick(Work([], [Ending(0, Eos, usage)], [], []), {0}), true, Active, channel,
                              Running, emitted),
                   ByFan(SendFinished),
                   LossyState(Tick(Work([], [], [], []), {0}), false, Ended(Eos, usage),
                              channel.Offer(Finished(Eos, usage), true), Running, emitted))
  {
    var s := LossyState(Tick(Work([], [Ending(0, Eos, usage)], [], []), {0}), true, Active, channel, Running, emitted);
    assert s.phase.work.finished[1..] == [];
    assert s.core.active[0] == 1;
    assert map[0 := 1] - {0} == map[] && map[1 := 0] - {1} == map[];
    assert map[1 := channel][1 := channel.Offer(Finished(Eos, usage), true)]
        == map[1 := channel.Offer(Finished(Eos, usage), true)];
    assert map[1 := Active][1 := Ended(Eos, usage)] == map[1 := Ended(Eos, usage)];
    assert s.book.fates == map[1 := Active];
  }

  lemma LossyEnd(usage: Usage)
    ensures StepOf(LossyRun(usage)[6], ByOutside(Receive(1)), LossyRun(usage)[7])
    ensures StepOf(LossyRun(usage)[7], ByFan(SendFinished), LossyRun(usage)[8])
    ensures StepOf(LossyRun(usage)[8], ByOutside(Receive(1)), LossyRun(usage)[9])
  {
    hide StepOf, LossyState, Submitted, For;
    var end, ab := [Ending(0, Eos, usage)], [Text("a"), Text("b")];
    var full := Channel([Output(Text("a"))], ab, 0, true, true);
    LossyReceive(Tick(Work([], end, [], []), {0}), true, Active, full, ab);
    LossyFinish(usage, full.(taken := 1), ab);
    var last := Channel([Output(Text("a"))] + [Finished(Eos, usage)], ab, 1, true, true);
    assert full.(taken := 1).Offer(Finished(Eos, usage), true) == last;
    assert last.sent[1] == Finished(Eos, usage);
    LossyReceive(Tick(Work([], [], [], []), {0}), false, Ended(Eos, usage), last, ab);
  }

  lemma LossyIsRun(usage: Usage)
    ensures IsRun(LossyRun(usage), LossySteps(usage))
  {
    hide StepOf, LossyState, Submitted;
    LossyOpening(usage);
    LossyAdmission(usage);
    LossyTick(usage);
    LossyDeltas(usage);
    LossyEnd(usage);
    var states, actions := LossyRun(usage), LossySteps(usage);
    forall i | 0 <= i < |actions| ensures StepOf(states[i], actions[i], states[i + 1]) {
      assert i == 0 || i == 1 || i == 2 || i == 3 || i == 4 || i == 5 || i == 6 || i == 7 || i == 8;
    }
  }

  /** The loss-free hypothesis is needed. With room for one event, a tick that produces two deltas and the end can
      lose the second delta and, if the handler reads in between, still deliver the end: the client sees a
      complete-looking, truncated answer. */
  lemma FinishedCanFollowALoss(usage: Usage)
    ensures
      var s := LossyRun(usage)[9];
      && IsRun(LossyRun(usage), LossySteps(usage))
      && s.clients[1].Satisfied? && s.wires.emitted[1] == [Text("a"), Text("b")]
      && Received(s, 1) == [Output(Text("a")), Finished(Eos, usage)]
  {
    hide IsRun;
    LossyIsRun(usage);
    var sent := [Output(Text("a"))] + [Finished(Eos, usage)];
    assert sent[..2] == [Output(Text("a")), Finished(Eos, usage)];
  }
}
