/** The receiving side over whole runs: who still listens, and that anyone can leave at any time. */
module ActorClients {
  import opened Wrappers
  import opened ChatModel
  import opened DecisionModel
  import opened Actor
  import opened ActorTables
  import ActorPromises
  import ActorTicks

  /** The handler has not ended: it may still receive. */
  predicate Listens(c: Client) { c.Queued? || c.Running? || c.Satisfied? }

  /** A receiver is open exactly while its handler listens; an outcome was taken exactly by a handler that is or was
      satisfied; and the command channel closes only after every handler has ended. */
  predicate ListeningAt(s: State, e: ExternalId) {
    e in s.clients ==>
      var c := s.clients[e];
      && (e in s.wires.channels ==> (s.wires.channels[e].open <==> Listens(c)))
      && (e in s.wires.slots ==>
           && (s.wires.slots[e].open <==> Listens(c))
           && (s.wires.slots[e].taken <==> c.Satisfied? || c == Over(true)))
      && (s.closed ==> !Listens(c))
  }

  /** The thread neither opens nor closes a receiver, and moves no client. */
  predicate SameReceivers(s: State, t: State, e: ExternalId) {
    && t.clients == s.clients && t.closed == s.closed
    && (e in t.wires.channels ==> e in s.wires.channels && t.wires.channels[e].open == s.wires.channels[e].open)
    && (e in t.wires.slots ==>
         && e in s.wires.slots && t.wires.slots[e].open == s.wires.slots[e].open
         && t.wires.slots[e].taken == s.wires.slots[e].taken)
  }

  lemma ControlSame(s: State, c: Control, e: ExternalId)
    requires CanControl(s, c)
    ensures SameReceivers(s, Controlled(s, c), e)
  {
  }

  lemma CommandSame(s: State, admission: Admission, e: ExternalId)
    requires CanHandle(s, admission)
    ensures SameReceivers(s, Handled(s, admission), e)
  {
    hide Core.Cancelled, FateAfter, SetFate, Refuses, Core.AddChat, Core.AddDecision;
  }

  lemma FanSame(s: State, f: Fan, e: ExternalId)
    requires CanFan(s, f)
    ensures SameReceivers(s, Fanned(s, f), e)
  {
    hide SetFate, Refuses, Core.DropChat, Core.DropDecision, Core.Bump;
    match f
    case SendDelta =>
    case SendFinished =>
    case SendVerdict =>
    case SendRefusal =>
  }

  lemma PurgeSame(s: State, p: Purge, e: ExternalId)
    requires CanPurge(s, p)
    ensures SameReceivers(s, Purged(s, p), e)
  {
    hide Core.Cancelled, Core.FailedOne, FateAfter, Refuses;
  }

  lemma InsideSame(s: State, a: Action, e: ExternalId)
    requires Enabled(s, a) && !a.ByOutside?
    ensures SameReceivers(s, Apply(s, a), e)
  {
    hide SameReceivers, CanControl, CanHandle, CanFan, CanPurge, Controlled, Handled, Fanned, Purged;
    match a
    case ByControl(c) => ControlSame(s, c, e);
    case ByCommand(admission) => CommandSame(s, admission, e);
    case ByFan(f) => FanSame(s, f, e);
    case ByPurge(p) => PurgeSame(s, p, e);
  }

  lemma SameListening(s: State, t: State, e: ExternalId)
    requires ListeningAt(s, e) && SameReceivers(s, t, e)
    ensures ListeningAt(t, e)
  {
  }

  lemma OutsideListening(s: State, o: Outside, e: ExternalId)
    requires CanAct(s, o) && ListeningAt(s, e) && (e in s.wires.channels ==> e !in s.wires.slots)
    requires s.book.next !in s.clients && s.book.next !in s.wires.channels && s.book.next !in s.wires.slots
    ensures ListeningAt(Acted(s, o), e)
  {
    hide Enqueue, BookNew;
    match o
    case NewChat =>
    case NewDecision =>
    case Begin(_) =>
    case GiveUpEarly(_) =>
    case Receive(_) =>
    case ReceiveOutcome(_) =>
    case Disarm(_) =>
    case DropGuard(_) =>
    case AskShutdown =>
    case CloseCommands =>
  }

  lemma NextIsUnknown(s: State)
    requires Sound(s)
    ensures s.book.next !in s.clients && s.book.next !in s.wires.channels && s.book.next !in s.wires.slots
  {
    hide QueueOk, PhaseOk, Core.Agree, Core.Conserved;
    assert s.book.next !in s.book.kinds.Keys;
  }

  lemma OneKind(s: State, e: ExternalId)
    requires Sound(s) && e in s.wires.channels
    ensures e !in s.wires.slots
  {
    hide QueueOk, PhaseOk, Core.Agree, Core.Conserved, Registered;
  }

  lemma ListeningStep(s: State, a: Action, e: ExternalId)
    requires Sound(s) && Enabled(s, a) && ListeningAt(s, e)
    ensures ListeningAt(Apply(s, a), e)
  {
    hide Sound, ListeningAt, SameReceivers, CanAct, Acted;
    if a.ByOutside? {
      NextIsUnknown(s);
      if e in s.wires.channels { OneKind(s, e); }
      OutsideListening(s, a.outside, e);
    } else {
      InsideSame(s, a, e);
      SameListening(s, Apply(s, a), e);
    }
  }

  /** In every state of every run, a receiver is open exactly while its handler listens. */
  lemma {:induction false} EveryoneListens(states: seq<State>, actions: seq<Action>, i: nat, e: ExternalId)
    requires IsRun(states, actions) && i < |states|
    ensures ListeningAt(states[i], e)
  {
    hide IsRun, Sound, Enabled, Apply, ListeningAt, Init;
    InRun(states, actions, i);
    if i == 0 {
      NobodyYet(states[0].capacity, e);
    } else {
      EveryStateSound(states, actions, i - 1);
      EveryoneListens(states, actions, i - 1, e);
      ListeningStep(states[i - 1], actions[i - 1], e);
    }
  }

  lemma NobodyYet(capacity: nat, e: ExternalId)
    ensures ListeningAt(Init(capacity), e)
  {
  }

  /** A decision is withdrawn before the thread stops only after its handler has ended. */
  lemma WaitingDecisionsStay(states: seq<State>, actions: seq<Action>, i: nat, e: ExternalId)
    requires IsRun(states, actions) && i < |states| && e in states[i].wires.slots && e in states[i].clients
    requires e in states[i].book.fates && states[i].book.fates[e].Withdrawn?
    requires !states[i].phase.Stopping? && !states[i].phase.Stopped?
    ensures !Listens(states[i].clients[e])
  {
    hide IsRun, Sound, ActorTicks.JustifiedAt;
    ActorTicks.WithdrawnForAReason(states, actions, i, e);
    EveryStateSound(states, actions, i);
    if e in states[i].wires.channels { OneKind(states[i], e); }
    EveryoneListens(states, actions, i, e);
  }

  // ---------------------------------------------------------------- anyone can leave

  /** A handler that has not ended can leave in any state whatever, which closes its receiver; and a running one leaves
      a Cancel behind for as long as anybody reads commands. */
  lemma AnyoneCanLeave(s: State, e: ExternalId) returns (o: Outside)
    requires e in s.clients && Listens(s.clients[e]) && (e in s.wires.channels || e in s.wires.slots)
    ensures CanAct(s, o)
    ensures
      var t := Acted(s, o);
      && e in t.clients && !Listens(t.clients[e]) && ActorTicks.Gone(t.wires, e)
      && (!s.clients[e].Queued? && !s.phase.Stopped? ==> t.queue == s.queue + [Cancel(e)])
  {
    o := if s.clients[e].Queued? then GiveUpEarly(e) else DropGuard(e);
  }

  /** Once every handler has ended and nothing is left to do, the command channel can close, the thread ends and the
      service is shut down. */
  lemma LastOneOut(s: State) returns (closed: State, leaving: State, stopped: State)
    requires s.phase.Top? && s.core.Idle() && s.queue == [] && !s.closed
    requires forall e :: e in s.clients ==> !Listens(s.clients[e])
    ensures StepOf(s, ByOutside(CloseCommands), closed)
    ensures StepOf(closed, ByControl(ChannelClosed), leaving)
    ensures StepOf(leaving, ByControl(ShutDownService), stopped)
    ensures stopped.phase.Stopped? && stopped.shutdowns == s.shutdowns + 1
  {
    closed := Acted(s, CloseCommands);
    leaving := Controlled(closed, ChannelClosed);
    stopped := Controlled(leaving, ShutDownService);
  }
}
