/** What the actor delivers: every channel's log against what the engine produced, whatever the interleaving. */
module ActorDelivery {
  import opened Wrappers
  import opened ChatModel
  import opened DecisionModel
  import opened Actor
  import opened ActorTables

  // ---------------------------------------------------------------- logs

  function Outputs(outs: seq<OutputEvent>): (events: seq<InferenceEvent>)
    ensures |events| == |outs|
  {
    if outs == [] then [] else Outputs(outs[..|outs| - 1]) + [Output(outs[|outs| - 1])]
  }

  /** `a` is what is left of `b` after leaving some elements out. */
  ghost predicate Subsequence(a: seq<InferenceEvent>, b: seq<InferenceEvent>) {
    if b == [] then a == []
    else
      || Subsequence(a, b[..|b| - 1])
      || (a != [] && a[|a| - 1] == b[|b| - 1] && Subsequence(a[..|a| - 1], b[..|b| - 1]))
  }

  function Body(sent: seq<InferenceEvent>): seq<InferenceEvent> {
    if sent != [] && sent[|sent| - 1].Terminal() then sent[..|sent| - 1] else sent
  }

  function Tailed(body: seq<InferenceEvent>, tail: Option<InferenceEvent>): seq<InferenceEvent> {
    body + if tail.Some? then [tail.value] else []
  }

  /** Only the last event sent may be terminal, and it is the request's own; output events are never reordered or
      repeated; and the log is exactly the offered outputs followed by the terminal event unless a send was refused,
      in which case it is shorter. */
  ghost predicate LogOk(c: Channel, tail: Option<InferenceEvent>) {
    && LogShape(c, tail)
    && Subsequence(Body(c.sent), Outputs(c.offered))
  }

  predicate LogShape(c: Channel, tail: Option<InferenceEvent>) {
    && c.taken <= |c.sent|
    && (forall i :: 0 <= i < |c.sent| - 1 ==> c.sent[i].Output?)
    && (c.sent != [] && c.sent[|c.sent| - 1].Terminal() ==> tail == Some(c.sent[|c.sent| - 1]))
    && (!c.lost ==> c.sent == Tailed(Outputs(c.offered), tail))
    && (c.lost ==> |c.sent| < |c.offered| + TailLength(tail))
  }

  function TailLength(tail: Option<InferenceEvent>): nat { if tail.Some? then 1 else 0 }

  lemma OutputsSnoc(outs: seq<OutputEvent>, o: OutputEvent)
    ensures Outputs(outs + [o]) == Outputs(outs) + [Output(o)]
  {
    assert (outs + [o])[..|outs|] == outs;
  }

  lemma SubsequenceSnoc(a: seq<InferenceEvent>, b: seq<InferenceEvent>, x: InferenceEvent)
    requires Subsequence(a, b)
    ensures Subsequence(a, b + [x]) && Subsequence(a + [x], b + [x])
  {
    assert (b + [x])[..|b|] == b && (a + [x])[..|a|] == a;
  }

  /** Offering an output event before any terminal one. */
  lemma OutputShape(c: Channel, o: OutputEvent, accepted: bool)
    requires LogShape(c, None)
    ensures LogShape(c.Offer(Output(o), accepted), None)
  {
    OutputsSnoc(c.offered, o);
    assert Tailed(Outputs(c.offered), None) == Outputs(c.offered);
    assert Tailed(Outputs(c.offered + [o]), None) == Outputs(c.offered) + [Output(o)];
  }

  lemma OfferOutput(c: Channel, o: OutputEvent, accepted: bool)
    requires LogOk(c, None)
    ensures LogOk(c.Offer(Output(o), accepted), None)
  {
    OutputShape(c, o, accepted);
    OutputsSnoc(c.offered, o);
    SubsequenceSnoc(c.sent, Outputs(c.offered), Output(o));
    NoTerminalYet(c);
    assert Body(c.sent + [Output(o)]) == c.sent + [Output(o)];
  }

  /** Offering the terminal event. */
  lemma TerminalShape(c: Channel, event: InferenceEvent, accepted: bool)
    requires LogShape(c, None) && event.Terminal()
    ensures LogShape(c.Offer(event, accepted), Some(event))
  {
    assert Tailed(Outputs(c.offered), None) == Outputs(c.offered);
  }

  lemma OfferTerminal(c: Channel, event: InferenceEvent, accepted: bool)
    requires LogOk(c, None) && event.Terminal()
    ensures LogOk(c.Offer(event, accepted), Some(event))
  {
    TerminalShape(c, event, accepted);
    NoTerminalYet(c);
    hide LogShape, Subsequence, Outputs;
    assert (c.sent + [event])[..|c.sent|] == c.sent;
    assert Body(c.sent + [event]) == c.sent;
  }

  lemma NoTerminalYet(c: Channel)
    requires LogShape(c, None)
    ensures Body(c.sent) == c.sent
  {
  }

  // ---------------------------------------------------------------- a chat request seen on its own

  /** A request's channel with its room, what the engine produced for it, what of that is still to be offered,
      and the terminal event it is owed so far. */
  datatype View = View(
    capacity: nat, channel: Channel, emitted: seq<OutputEvent>, pending: seq<OutputEvent>, tail: Option<InferenceEvent>)

  /** The channel holds no more than it has room for, and its log is what it should be. */
  ghost predicate ViewOk(v: View) {
    && |v.channel.sent| <= v.channel.taken + v.capacity
    && v.emitted == v.channel.offered + v.pending && LogOk(v.channel, v.tail)
  }

  predicate Accepts(v: View) { v.channel.open && !v.channel.Full(v.capacity) }

  /** An event is lost exactly when the receiver is gone or the channel is full. */
  predicate Offers(v: View, v': View, event: InferenceEvent) {
    v'.channel == v.channel.Offer(event, Accepts(v)) && v'.capacity == v.capacity
  }

  /** The engine produces more for a request that has nothing outstanding. */
  predicate Emits(v: View, v': View) {
    v'.capacity == v.capacity && v'.channel == v.channel && v.pending == [] && v'.emitted == v.emitted + v'.pending
        && v'.tail == v.tail
  }

  /** The next outstanding output event is offered. */
  predicate SendsOutput(v: View, v': View) {
    && v.tail == v'.tail == None && v'.emitted == v.emitted
    && v.pending != [] && v'.pending == v.pending[1..] && Offers(v, v', Output(v.pending[0]))
  }

  /** The terminal event is offered, after everything else. */
  predicate SendsTerminal(v: View, v': View) {
    && v.tail == None && v'.tail.Some? && v'.tail.value.Terminal() && v'.emitted == v.emitted
    && v.pending == v'.pending == [] && Offers(v, v', v'.tail.value)
  }

  /** The receiver takes the next event or leaves. */
  predicate Receives(v: View, v': View) {
    && v'.capacity == v.capacity && v'.emitted == v.emitted && v'.pending == v.pending && v'.tail == v.tail
    && v'.channel == v.channel.(taken := v'.channel.taken, open := v'.channel.open)
    && v.channel.taken <= v'.channel.taken <= |v.channel.sent| && (v'.channel.open ==> v.channel.open)
  }

  /** What the actor thread may do to a request. */
  predicate Serves(v: View, v': View) {
    v' == v || Emits(v, v') || SendsOutput(v, v') || SendsTerminal(v, v')
  }

  predicate Moves(v: View, v': View) {
    Serves(v, v') || Receives(v, v')
  }

  lemma SendsOutputOk(v: View, v': View)
    requires ViewOk(v) && SendsOutput(v, v')
    ensures ViewOk(v')
  {
    OfferOutput(v.channel, v.pending[0], Accepts(v));
    MoveFirst(v.channel.offered, v.pending);
  }

  lemma MoveFirst(a: seq<OutputEvent>, b: seq<OutputEvent>)
    requires b != []
    ensures a + b == (a + [b[0]]) + b[1..]
  {
  }

  lemma SendsTerminalOk(v: View, v': View)
    requires ViewOk(v) && SendsTerminal(v, v')
    ensures ViewOk(v')
  {
    OfferTerminal(v.channel, v'.tail.value, Accepts(v));
  }

  lemma MovesOk(v: View, v': View)
    requires ViewOk(v) && Moves(v, v')
    ensures ViewOk(v')
  {
    if SendsOutput(v, v') {
      SendsOutputOk(v, v');
    } else if SendsTerminal(v, v') {
      SendsTerminalOk(v, v');
    } else if Emits(v, v') {
      assert v.channel.offered + v.pending == v.channel.offered;
    }
  }

  /** What was sent stays sent, and nothing follows a terminal event. */
  predicate Continues(sent: seq<InferenceEvent>, sent': seq<InferenceEvent>) {
    sent <= sent' && (sent != [] && sent[|sent| - 1].Terminal() ==> sent' == sent)
  }

  lemma MovesGrow(v: View, v': View)
    requires ViewOk(v) && Moves(v, v')
    ensures Continues(v.channel.sent, v'.channel.sent)
  {
  }

  // ---------------------------------------------------------------- views of a state

  function Pending(phase: Phase, core: Core, e: ExternalId): seq<OutputEvent> {
    if phase.Tick? && e in core.byExternal then For(phase.work.output, core.byExternal[e]) else []
  }

  function Tail(phase: Phase, core: Core, fate: Fate, e: ExternalId): Option<InferenceEvent> {
    match fate
    case Ended(reason, usage) => Some(Finished(reason, usage))
    case Broken(message) => Some(Error(message))
    case Refused(message) => Some(Error(message))
    case Active =>
      if e in core.byExternal && ((phase.Notifying? && core.byExternal[e] !in phase.left) || phase.Failing?)
      then Some(Error(phase.message)) else None
    case _ => None
  }

  predicate Chatting(s: State, e: ExternalId) {
    e in s.wires.channels && e in s.wires.emitted && e in s.book.fates
  }

  function ViewOf(s: State, e: ExternalId): View
    requires Chatting(s, e)
  {
    View(s.capacity, s.wires.channels[e], s.wires.emitted[e],
         Pending(s.phase, s.core, e), Tail(s.phase, s.core, s.book.fates[e], e))
  }

  /** A chat request is active exactly when the tables hold it, and then both maps point at each other. */
  predicate PlaceAt(s: State, e: ExternalId) {
    && Chatting(s, e)
    && (e in s.core.byExternal <==> s.book.fates[e].Active?)
    && (e in s.core.byExternal ==> var k := s.core.byExternal[e]; k in s.core.active && s.core.active[k] == e)
  }

  predicate KeyAt(s: State, k: EngineId) {
    && (k in s.core.active ==>
         k !in s.core.decisions && s.core.active[k] in s.core.byExternal && s.core.byExternal[s.core.active[k]] == k)
    && (k in s.core.decisions ==> s.core.decisions[k] !in s.wires.channels)
  }

  lemma SoundPlaceAt(s: State, e: ExternalId)
    requires Sound(s) && e in s.wires.channels
    ensures PlaceAt(s, e)
  {
    assert e in s.book.kinds.Keys;
    if e in s.core.byExternal { assert s.core.byExternal[e] !in s.core.decisions; }
  }

  lemma SoundKeyAt(s: State, k: EngineId)
    requires Sound(s)
    ensures KeyAt(s, k)
  {
  }

  // ---------------------------------------------------------------- one step, seen by one chat request

  lemma ControlAt(s: State, c: Control, e: ExternalId)
    requires CanControl(s, c) && PlaceAt(s, e)
    requires c.FailedAll? ==> e !in s.core.byExternal
    ensures Chatting(Controlled(s, c), e) && Serves(ViewOf(s, e), ViewOf(Controlled(s, c), e))
  {
    hide EngineEmits, Serves, For;
    if c.TickDone? {
      TickDoneAt(s, c.work, e);
    } else {
      QuietControlAt(s, c, e);
    }
  }

  /** The engine's output is only recorded when a tick is done; nothing is sent yet. */
  lemma TickDoneAt(s: State, work: Work, e: ExternalId)
    requires CanControl(s, TickDone(work)) && PlaceAt(s, e)
    ensures var t := Controlled(s, TickDone(work)); Chatting(t, e) && Emits(ViewOf(s, e), ViewOf(t, e))
    ensures Serves(ViewOf(s, e), ViewOf(Controlled(s, TickDone(work)), e))
  {
    hide For;
  }

  lemma QuietControlAt(s: State, c: Control, e: ExternalId)
    requires CanControl(s, c) && PlaceAt(s, e) && !c.TickDone?
    requires c.FailedAll? ==> e !in s.core.byExternal
    ensures Chatting(Controlled(s, c), e) && Serves(ViewOf(s, e), ViewOf(Controlled(s, c), e))
  {
    hide EngineEmits;
  }

  lemma DeltaAt(s: State, e: ExternalId)
    requires CanFan(s, SendDelta) && PlaceAt(s, e) && KeyAt(s, s.phase.work.output[0].id)
    ensures Chatting(DeltaSent(s), e) && Serves(ViewOf(s, e), ViewOf(DeltaSent(s), e))
  {
  }

  lemma FinishedAt(s: State, e: ExternalId)
    requires CanFan(s, SendFinished) && PlaceAt(s, e) && KeyAt(s, s.phase.work.finished[0].id)
    ensures Chatting(FinishedSent(s), e) && Serves(ViewOf(s, e), ViewOf(FinishedSent(s), e))
  {
  }

  lemma VerdictAt(s: State, e: ExternalId)
    requires CanFan(s, SendVerdict) && PlaceAt(s, e) && KeyAt(s, s.phase.work.decided[0].id)
    ensures Chatting(VerdictSent(s), e) && Serves(ViewOf(s, e), ViewOf(VerdictSent(s), e))
  {
  }

  lemma RefusalAt(s: State, e: ExternalId)
    requires CanFan(s, SendRefusal) && PlaceAt(s, e) && KeyAt(s, s.phase.work.undecided[0].id)
    ensures Chatting(RefusalSent(s), e) && Serves(ViewOf(s, e), ViewOf(RefusalSent(s), e))
  {
  }

  /** Cancelling a request sends nothing, and is only done when nothing is pending for it. */
  lemma CancelAt(s: State, k: EngineId, phase: Phase, queue: seq<Command>, e: ExternalId)
    requires PlaceAt(s, e) && KeyAt(s, k)
    requires !s.phase.Tick? && !s.phase.Notifying? && !s.phase.Failing?
    requires !phase.Tick? && !phase.Notifying? && !phase.Failing?
    ensures
      var t := CancelRequest(s, k).(phase := phase, queue := queue);
      Chatting(t, e) && Serves(ViewOf(s, e), ViewOf(t, e))
  {
  }

  lemma NotifyAt(s: State, k: EngineId, e: ExternalId)
    requires CanPurge(s, NotifyOne(k)) && PlaceAt(s, e) && KeyAt(s, k)
    ensures Chatting(Purged(s, NotifyOne(k)), e) && Serves(ViewOf(s, e), ViewOf(Purged(s, NotifyOne(k)), e))
  {
  }

  lemma FailAt(s: State, k: EngineId, e: ExternalId)
    requires CanPurge(s, FailOne(k)) && PlaceAt(s, e) && KeyAt(s, k)
    ensures Chatting(Purged(s, FailOne(k)), e) && Serves(ViewOf(s, e), ViewOf(Purged(s, FailOne(k)), e))
  {
  }

  lemma SubmitAt(s: State, admission: Admission, e: ExternalId)
    requires CanHandle(s, admission) && (s.queue[0].Submit? || s.queue[0].SubmitDecision?) && PlaceAt(s, e)
    requires s.queue[0].id == e ==> s.queue[0].Submit? && s.book.fates[e].Waiting?
    ensures Chatting(Handled(s, admission), e) && Serves(ViewOf(s, e), ViewOf(Handled(s, admission), e))
  {
  }

  /** Receivers take events and leave; they never change what was sent. */
  lemma OutsideAt(s: State, o: Outside, e: ExternalId)
    requires CanAct(s, o) && PlaceAt(s, e) && s.wires.channels[e].taken <= |s.wires.channels[e].sent|
    requires o.NewChat? || o.NewDecision? ==> e != s.book.next
    ensures Chatting(Acted(s, o), e) && Receives(ViewOf(s, e), ViewOf(Acted(s, o), e))
  {
    hide For;
    match o
    case NewChat =>
    case NewDecision =>
    case Begin(_) =>
    case GiveUpEarly(_) =>
    case Receive(_) =>
    case ReceiveOutcome(_) =>
    case Disarm(_) =>
    case DropGuard(_) =>
    case AskShutdown =>
    case CloseCommands =>
  }

  // ---------------------------------------------------------------- every step, every request

  ghost predicate Delivered(s: State) {
    forall e :: e in s.wires.channels ==> Chatting(s, e) && ViewOk(ViewOf(s, e))
  }

  lemma FanAt(s: State, f: Fan, e: ExternalId)
    requires Sound(s) && CanFan(s, f) && PlaceAt(s, e)
    ensures Chatting(Fanned(s, f), e) && Serves(ViewOf(s, e), ViewOf(Fanned(s, f), e))
  {
    match f
    case SendDelta => SoundKeyAt(s, s.phase.work.output[0].id); DeltaAt(s, e);
    case SendFinished => SoundKeyAt(s, s.phase.work.finished[0].id); FinishedAt(s, e);
    case SendVerdict => SoundKeyAt(s, s.phase.work.decided[0].id); VerdictAt(s, e);
    case SendRefusal => SoundKeyAt(s, s.phase.work.undecided[0].id); RefusalAt(s, e);
  }

  lemma PurgeAt(s: State, p: Purge, e: ExternalId)
    requires Sound(s) && CanPurge(s, p) && PlaceAt(s, e)
    ensures Chatting(Purged(s, p), e) && Serves(ViewOf(s, e), ViewOf(Purged(s, p), e))
  {
    SoundKeyAt(s, p.k);
    match p
    case CancelOne(k) => CancelAt(s, k, Cancelling(s.phase.left - {k}), s.queue, e);
    case StopOne(k) => CancelAt(s, k, Stopping(s.phase.left - {k}), s.queue, e);
    case NotifyOne(k) => NotifyAt(s, k, e);
    case FailOne(k) => FailAt(s, k, e);
  }

  lemma QuietCommandAt(s: State, admission: Admission, e: ExternalId)
    requires Sound(s) && CanHandle(s, admission) && PlaceAt(s, e) && (s.queue[0].Cancel? || s.queue[0].Shutdown?)
    ensures Chatting(Handled(s, admission), e) && Serves(ViewOf(s, e), ViewOf(Handled(s, admission), e))
  {
    if s.queue[0].Cancel? && s.queue[0].id in s.core.byExternal {
      var k := s.core.byExternal[s.queue[0].id];
      SoundKeyAt(s, k);
      CancelAt(s, k, Drain, s.queue[1..], e);
    } else {
      NoCancelAt(s, admission, e);
    }
  }

  lemma NoCancelAt(s: State, admission: Admission, e: ExternalId)
    requires CanHandle(s, admission) && PlaceAt(s, e)
    requires s.queue[0].Shutdown? || (s.queue[0].Cancel? && s.queue[0].id !in s.core.byExternal)
    ensures Chatting(Handled(s, admission), e) && Serves(ViewOf(s, e), ViewOf(Handled(s, admission), e))
  {
  }

  lemma CommandAt(s: State, admission: Admission, e: ExternalId)
    requires Sound(s) && CanHandle(s, admission) && PlaceAt(s, e)
    ensures Chatting(Handled(s, admission), e) && Serves(ViewOf(s, e), ViewOf(Handled(s, admission), e))
  {
    if s.queue[0].Submit? || s.queue[0].SubmitDecision? {
      assert Fits(s.queue[0], s.book);
      SubmitAt(s, admission, e);
    } else {
      QuietCommandAt(s, admission, e);
    }
  }

  lemma FailedAllLeavesNone(s: State)
    requires Sound(s) && CanControl(s, FailedAll)
    ensures s.core.byExternal == map[]
  {
    NoneKnown(s.core);
  }

  /** Whatever the step, a chat request sees one of the five kinds of move: nothing changes for it, the engine
      produces output for it, it is sent an output, it is sent its terminal event, or its receiver acts. */
  lemma StepAt(s: State, a: Action, e: ExternalId)
    requires Sound(s) && Enabled(s, a) && e in s.wires.channels && Chatting(s, e) && ViewOk(ViewOf(s, e))
    ensures Chatting(Apply(s, a), e) && Moves(ViewOf(s, e), ViewOf(Apply(s, a), e))
  {
    SoundPlaceAt(s, e);
    match a
    case ByControl(c) =>
      if c.FailedAll? { FailedAllLeavesNone(s); }
      ControlAt(s, c, e);
    case ByCommand(admission) => CommandAt(s, admission, e);
    case ByFan(f) => FanAt(s, f, e);
    case ByPurge(p) => PurgeAt(s, p, e);
    case ByOutside(o) =>
      assert e in s.book.kinds;
      OutsideAt(s, o, e);
  }

  /** A channel appears only with a new submission. */
  lemma NewChannelsOutside(s: State, o: Outside, e: ExternalId)
    requires CanAct(s, o) && e in Acted(s, o).wires.channels && e !in s.wires.channels
    ensures o.NewChat? && e == s.book.next
  {
  }

  // The actor thread opens no channel.

  lemma ControlKeepsChannels(s: State, c: Control)
    requires CanControl(s, c)
    ensures Controlled(s, c).wires.channels.Keys == s.wires.channels.Keys
  {
  }

  lemma CommandKeepsChannels(s: State, admission: Admission)
    requires CanHandle(s, admission)
    ensures Handled(s, admission).wires.channels.Keys == s.wires.channels.Keys
  {
  }

  lemma FanKeepsChannels(s: State, f: Fan)
    requires CanFan(s, f)
    ensures Fanned(s, f).wires.channels.Keys == s.wires.channels.Keys
  {
  }

  lemma PurgeKeepsChannels(s: State, p: Purge)
    requires CanPurge(s, p)
    ensures Purged(s, p).wires.channels.Keys == s.wires.channels.Keys
  {
  }

  lemma NewChannels(s: State, a: Action, e: ExternalId)
    requires Enabled(s, a) && e in Apply(s, a).wires.channels && e !in s.wires.channels
    ensures e == s.book.next && Apply(s, a) == Submitted(s, Chat)
  {
    assert e !in s.wires.channels.Keys && e in Apply(s, a).wires.channels.Keys;
    match a
    case ByControl(c) => ControlKeepsChannels(s, c);
    case ByCommand(admission) => CommandKeepsChannels(s, admission);
    case ByFan(f) => FanKeepsChannels(s, f);
    case ByPurge(p) => PurgeKeepsChannels(s, p);
    case ByOutside(o) => NewChannelsOutside(s, o, e);
  }

  lemma NewView(s: State)
    requires s.book.next !in s.core.byExternal
    ensures
      var t, e := Submitted(s, Chat), s.book.next;
      Chatting(t, e) && ViewOk(ViewOf(t, e))
  {
  }

  lemma SoundNextIsNew(s: State)
    requires Sound(s)
    ensures s.book.next !in s.core.byExternal
  {
    assert s.book.next !in s.book.fates.Keys;
  }

  lemma DeliveredOld(s: State, a: Action, e: ExternalId)
    requires Sound(s) && Enabled(s, a) && e in s.wires.channels && Chatting(s, e) && ViewOk(ViewOf(s, e))
    ensures Chatting(Apply(s, a), e) && ViewOk(ViewOf(Apply(s, a), e))
  {
    StepAt(s, a, e);
    MovesOk(ViewOf(s, e), ViewOf(Apply(s, a), e));
  }

  lemma DeliveredNew(s: State, a: Action, e: ExternalId)
    requires Sound(s) && Enabled(s, a) && e in Apply(s, a).wires.channels && e !in s.wires.channels
    ensures Chatting(Apply(s, a), e) && ViewOk(ViewOf(Apply(s, a), e))
  {
    NewChannels(s, a, e);
    SoundNextIsNew(s);
    NewView(s);
  }

  lemma ChannelsStay(s: State, a: Action, e: ExternalId)
    requires Sound(s) && Enabled(s, a) && e in s.wires.channels && Chatting(s, e) && ViewOk(ViewOf(s, e))
    ensures
      var t := Apply(s, a);
      e in t.wires.channels && Continues(s.wires.channels[e].sent, t.wires.channels[e].sent)
  {
    StepAt(s, a, e);
    MovesGrow(ViewOf(s, e), ViewOf(Apply(s, a), e));
  }

  lemma DeliveredStep(s: State, a: Action, t: State)
    requires Sound(s) && StepOf(s, a, t) && Delivered(s)
    ensures Delivered(t)
  {
    forall e | e in t.wires.channels ensures Chatting(t, e) && ViewOk(ViewOf(t, e)) {
      if e in s.wires.channels {
        DeliveredOld(s, a, e);
      } else {
        DeliveredNew(s, a, e);
      }
    }
  }

  lemma InitDelivered(capacity: nat)
    ensures Delivered(Init(capacity))
  {
  }

  lemma {:induction false} EveryStateDelivered(states: seq<State>, actions: seq<Action>, i: nat)
    requires IsRun(states, actions) && i < |states|
    ensures Delivered(states[i])
  {
    hide Delivered, StepOf, Init, IsRun, Sound;
    InRun(states, actions, i);
    if i == 0 {
      InitDelivered(states[0].capacity);
    } else {
      EveryStateDelivered(states, actions, i - 1);
      EveryStateSound(states, actions, i - 1);
      DeliveredStep(states[i - 1], actions[i - 1], states[i]);
    }
  }

  /** In every state of every run, a chat request has been sent exactly the outputs the engine produced for it and
      that are no longer waiting in the current tick, in order, then the terminal event it is owed, if any, if and
      only if none of its sends was refused. Its channel never holds more than its capacity. On a lossy channel what
      was sent is still free of repetition and reordering, and the only terminal event that can appear is that one, at
      the end. */
  lemma ExactDelivery(states: seq<State>, actions: seq<Action>, i: nat, e: ExternalId)
    requires IsRun(states, actions) && i < |states| && e in states[i].wires.channels
    ensures
      var s := states[i];
      && Chatting(s, e)
      && var v := ViewOf(s, e);
      && v.channel.taken <= |v.channel.sent| <= v.channel.taken + s.capacity
      && v.emitted == v.channel.offered + v.pending
      && (!v.channel.lost <==> v.channel.sent == Tailed(Outputs(v.channel.offered), v.tail))
      && Subsequence(Body(v.channel.sent), Outputs(v.channel.offered))
      && (forall j :: 0 <= j < |v.channel.sent| && v.channel.sent[j].Terminal() ==>
           j == |v.channel.sent| - 1 && v.tail == Some(v.channel.sent[j]))
  {
    hide IsRun, Delivered, ViewOk, Tailed, Outputs, Subsequence, Body;
    EveryStateDelivered(states, actions, i);
    DeliveredAt(states[i], e);
    ViewFacts(ViewOf(states[i], e));
  }

  lemma DeliveredAt(s: State, e: ExternalId)
    requires Delivered(s) && e in s.wires.channels
    ensures Chatting(s, e) && ViewOk(ViewOf(s, e))
  {
  }

  lemma ViewFacts(v: View)
    requires ViewOk(v)
    ensures v.channel.taken <= |v.channel.sent| <= v.channel.taken + v.capacity
    ensures v.emitted == v.channel.offered + v.pending
    ensures !v.channel.lost <==> v.channel.sent == Tailed(Outputs(v.channel.offered), v.tail)
    ensures Subsequence(Body(v.channel.sent), Outputs(v.channel.offered))
    ensures forall j :: 0 <= j < |v.channel.sent| && v.channel.sent[j].Terminal() ==>
              j == |v.channel.sent| - 1 && v.tail == Some(v.channel.sent[j])
  {
  }

  /** Between ticks nothing is waiting, so the channel holds everything the engine produced. */
  lemma NothingWaitsBetweenTicks(s: State, e: ExternalId)
    requires Chatting(s, e) && !s.phase.Tick?
    ensures ViewOf(s, e).pending == []
  {
  }

  lemma RunStep(states: seq<State>, actions: seq<Action>, j: nat, e: ExternalId)
    requires IsRun(states, actions) && j < |actions| && e in states[j].wires.channels
    ensures
      && e in states[j + 1].wires.channels
      && Continues(states[j].wires.channels[e].sent, states[j + 1].wires.channels[e].sent)
  {
    EveryStateSound(states, actions, j);
    EveryStateDelivered(states, actions, j);
    ChannelsStay(states[j], actions[j], e);
  }

  /** Once a terminal event has been sent on a channel, that channel's log never changes again. */
  lemma {:induction false} NothingAfterTerminal(states: seq<State>, actions: seq<Action>, i: nat, j: nat, e: ExternalId)
    requires IsRun(states, actions) && i <= j < |states| && e in states[i].wires.channels
    ensures e in states[j].wires.channels
        && Continues(states[i].wires.channels[e].sent, states[j].wires.channels[e].sent)
    decreases j
  {
    if i < j {
      NothingAfterTerminal(states, actions, i, j - 1, e);
      RunStep(states, actions, j - 1, e);
      ContinuesOn(states[i].wires.channels[e].sent, states[j - 1].wires.channels[e].sent,
          states[j].wires.channels[e].sent);
    }
  }

  lemma ContinuesOn(a: seq<InferenceEvent>, b: seq<InferenceEvent>, c: seq<InferenceEvent>)
    requires Continues(a, b) && Continues(b, c)
    ensures Continues(a, c)
  {
  }
}
