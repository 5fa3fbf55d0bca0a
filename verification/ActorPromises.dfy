/** Promises kept over whole runs: submissions settle once, output is never lost silently,
    and a client that walks away leaves nothing behind. */
module ActorPromises {
  import opened Wrappers
  import opened ChatModel
  import opened DecisionModel
  import opened Actor
  import opened ActorTables
  import opened ActorDelivery

  predicate Settled(f: Fate) { !f.Waiting? && !f.Active? }

  /** A submission waits, may become active, and settles for good. */
  predicate FateMoves(f: Fate, f': Fate) {
    f' == f || (f.Waiting? && (f'.Active? || f'.Refused?)) || (f.Active? && Settled(f') && !f'.Refused?)
  }

  /** The request behind an engine id in the tables is active. */
  predicate ActiveAt(s: State, k: EngineId) {
    && (k in s.core.active ==> s.core.active[k] in s.book.fates && s.book.fates[s.core.active[k]].Active?)
    && (k in s.core.decisions ==> s.core.decisions[k] in s.book.fates && s.book.fates[s.core.decisions[k]].Active?)
  }

  lemma SoundActiveAt(s: State, k: EngineId)
    requires Sound(s)
    ensures ActiveAt(s, k)
  {
  }

  predicate FatesMove(b: Book, b': Book, e: ExternalId) {
    e in b.fates ==> e in b'.fates && FateMoves(b.fates[e], b'.fates[e])
  }

  lemma FanFate(s: State, f: Fan, e: ExternalId)
    requires CanFan(s, f)
    requires f.SendFinished? ==> ActiveAt(s, s.phase.work.finished[0].id)
    requires f.SendVerdict? ==> ActiveAt(s, s.phase.work.decided[0].id)
    requires f.SendRefusal? ==> ActiveAt(s, s.phase.work.undecided[0].id)
    ensures FatesMove(s.book, Fanned(s, f).book, e)
  {
  }

  lemma PurgeFate(s: State, p: Purge, e: ExternalId)
    requires CanPurge(s, p) && ActiveAt(s, p.k)
    ensures FatesMove(s.book, Purged(s, p).book, e)
  {
  }

  lemma CommandFate(s: State, admission: Admission, e: ExternalId)
    requires CanHandle(s, admission)
    requires s.queue[0].Submit? || s.queue[0].SubmitDecision? ==>
               s.queue[0].id in s.book.fates && s.book.fates[s.queue[0].id].Waiting?
    requires s.queue[0].Cancel? && s.queue[0].id in s.core.byExternal ==> ActiveAt(s, s.core.byExternal[s.queue[0].id])
    ensures FatesMove(s.book, Handled(s, admission).book, e)
  {
  }

  lemma OutsideFate(s: State, o: Outside, e: ExternalId)
    requires CanAct(s, o) && s.book.next !in s.book.fates
    ensures FatesMove(s.book, Acted(s, o).book, e)
  {
  }

  lemma FanStep(s: State, f: Fan, e: ExternalId)
    requires Sound(s) && CanFan(s, f)
    ensures FatesMove(s.book, Fanned(s, f).book, e)
  {
    if f.SendFinished? { SoundActiveAt(s, s.phase.work.finished[0].id); }
    if f.SendVerdict? { SoundActiveAt(s, s.phase.work.decided[0].id); }
    if f.SendRefusal? { SoundActiveAt(s, s.phase.work.undecided[0].id); }
    FanFate(s, f, e);
  }

  lemma CommandStep(s: State, admission: Admission, e: ExternalId)
    requires Sound(s) && CanHandle(s, admission)
    ensures FatesMove(s.book, Handled(s, admission).book, e)
  {
    assert Fits(s.queue[0], s.book);
    if s.queue[0].Cancel? && s.queue[0].id in s.core.byExternal { SoundActiveAt(s, s.core.byExternal[s.queue[0].id]); }
    CommandFate(s, admission, e);
  }

  lemma NextIsNew(s: State)
    requires Sound(s)
    ensures s.book.next !in s.book.fates && s.book.next !in s.clients
  {
    assert s.book.next !in s.book.fates.Keys && s.book.next !in s.clients.Keys;
  }

  lemma PurgeStep(s: State, p: Purge, e: ExternalId)
    requires Sound(s) && CanPurge(s, p)
    ensures FatesMove(s.book, Purged(s, p).book, e)
  {
    SoundActiveAt(s, p.k);
    PurgeFate(s, p, e);
  }

  lemma OutsideStep(s: State, o: Outside, e: ExternalId)
    requires Sound(s) && CanAct(s, o)
    ensures FatesMove(s.book, Acted(s, o).book, e)
  {
    NextIsNew(s);
    OutsideFate(s, o, e);
  }

  lemma ControlFate(s: State, c: Control)
    requires CanControl(s, c)
    ensures Controlled(s, c).book == s.book
  {
  }

  /** Each submission settles at most once: its fate moves forward and never back. */
  lemma FateStep(s: State, a: Action, e: ExternalId)
    requires Sound(s) && Enabled(s, a)
    ensures FatesMove(s.book, Apply(s, a).book, e)
  {
    if a.ByControl? {
      ControlFate(s, a.control);
    } else if a.ByCommand? {
      CommandStep(s, a.admission, e);
    } else if a.ByFan? {
      FanStep(s, a.fan, e);
    } else if a.ByPurge? {
      PurgeStep(s, a.purge, e);
    } else {
      OutsideStep(s, a.outside, e);
    }
  }

  // ---------------------------------------------------------------- walking away

  /** A client whose loop ended without a terminal event has a cancellation queued, or its request is settled. */
  predicate GuardAt(s: State, e: ExternalId) {
    && e in s.clients && e in s.book.fates
    && (s.clients[e] == Over(false) && !s.phase.Stopped? ==> Cancel(e) in s.queue || Settled(s.book.fates[e]))
  }

  lemma GuardInside(s: State, a: Action, e: ExternalId)
    requires GuardAt(s, e) && Enabled(s, a) && (a.ByControl? || a.ByFan? || a.ByPurge?)
    requires FatesMove(s.book, Apply(s, a).book, e)
    ensures GuardAt(Apply(s, a), e)
  {
    hide FatesMove, Apply, CanControl, CanFan, CanPurge;
    InsideLeavesClients(s, a);
    FatesStaySettled(s.book, Apply(s, a).book, e);
  }

  /** The thread's own steps, commands aside, touch neither the queue nor the clients, and a stopped thread has none. */
  lemma InsideLeavesClients(s: State, a: Action)
    requires Enabled(s, a) && (a.ByControl? || a.ByFan? || a.ByPurge?)
    ensures Apply(s, a).clients == s.clients && Apply(s, a).queue == s.queue && !s.phase.Stopped?
  {
    hide EngineEmits, TrySend, Resolve, FateAfter, SetFate, Core.Cancelled, Core.FailedOne, Core.DropChat,
      Core.DropDecision, Core.Bump;
    match a
    case ByControl(c) =>
    case ByFan(f) =>
    case ByPurge(p) =>
  }

  lemma FatesStaySettled(b: Book, b': Book, e: ExternalId)
    requires FatesMove(b, b', e) && e in b.fates
    ensures e in b'.fates && (Settled(b.fates[e]) ==> Settled(b'.fates[e]))
  {
  }

  lemma GuardCommand(s: State, admission: Admission, e: ExternalId)
    requires GuardAt(s, e) && CanHandle(s, admission) && FatesMove(s.book, Handled(s, admission).book, e)
    requires s.queue[0] == Cancel(e) ==> !s.book.fates[e].Waiting?
    requires s.book.fates[e].Active? ==>
               e in s.core.byExternal && s.core.byExternal[e] in s.core.Ids()
               && (s.core.byExternal[e] in s.core.active ==> s.core.active[s.core.byExternal[e]] == e)
               && (s.core.byExternal[e] in s.core.decisions ==> s.core.decisions[s.core.byExternal[e]] == e)
    ensures GuardAt(Handled(s, admission), e)
  {
    assert s.queue == [s.queue[0]] + s.queue[1..];
  }

  lemma GuardOutside(s: State, o: Outside, e: ExternalId)
    requires CanAct(s, o) && GuardAt(s, e) && (o.NewChat? || o.NewDecision? ==> e != s.book.next)
    ensures GuardAt(Acted(s, o), e)
  {
    if o.DropGuard? && o.e == e && !s.phase.Stopped? {
      assert (s.queue + [Cancel(e)])[|s.queue|] == Cancel(e);
    }
  }

  /** A cancellation is never handled before the submission it is about. */
  lemma CancelFollowsSubmit(s: State, e: ExternalId)
    requires Sound(s) && s.queue != [] && s.queue[0] == Cancel(e)
    ensures e in s.book.fates && !s.book.fates[e].Waiting?
  {
    hide Registered, Wired, PhaseOk, Core.Agree, Core.Conserved, QueueOk;
    CancelIsLate(s.queue, s.book, e);
  }

  lemma CancelIsLate(queue: seq<Command>, b: Book, e: ExternalId)
    requires QueueOk(queue, b) && queue != [] && queue[0] == Cancel(e)
    ensures e in b.fates && !b.fates[e].Waiting?
  {
    assert Fits(queue[0], b);
    forall j | 0 <= j < |queue| ensures !Submits(queue[j], e) {
      if j > 0 { assert MayPrecede(queue[0], queue[j]); }
    }
    assert Submit(e) !in queue && SubmitDecision(e) !in queue;
  }

  lemma ActivePlace(s: State, e: ExternalId)
    requires Sound(s) && e in s.book.fates && s.book.fates[e].Active?
    ensures e in s.core.byExternal && s.core.byExternal[e] in s.core.Ids()
    ensures s.core.byExternal[e] in s.core.active ==> s.core.active[s.core.byExternal[e]] == e
    ensures s.core.byExternal[e] in s.core.decisions ==> s.core.decisions[s.core.byExternal[e]] == e
  {
  }

  lemma GuardStep(s: State, a: Action, e: ExternalId)
    requires Sound(s) && Enabled(s, a) && GuardAt(s, e)
    ensures GuardAt(Apply(s, a), e)
  {
    FateStep(s, a, e);
    match a
    case ByCommand(admission) =>
      if s.queue[0] == Cancel(e) { CancelFollowsSubmit(s, e); }
      if s.book.fates[e].Active? { ActivePlace(s, e); }
      GuardCommand(s, admission, e);
    case ByOutside(o) =>
      assert e in s.book.kinds.Keys;
      GuardOutside(s, o, e);
    case _ => GuardInside(s, a, e);
  }

  lemma NewGuardInside(s: State, a: Action)
    requires Enabled(s, a) && !a.ByOutside?
    ensures Apply(s, a).clients == s.clients
  {
    match a
    case ByControl(c) =>
    case ByCommand(admission) =>
    case ByFan(f) =>
    case ByPurge(p) =>
  }

  lemma NewGuard(s: State, a: Action, e: ExternalId)
    requires Sound(s) && Enabled(s, a) && e !in s.clients && e in Apply(s, a).clients
    ensures e == s.book.next && Apply(s, a).clients[e] == Queued && e in Apply(s, a).book.fates
  {
    if a.ByOutside? { NewGuardOutside(s, a.outside, e); } else { NewGuardInside(s, a); }
  }

  lemma NewGuardOutside(s: State, o: Outside, e: ExternalId)
    requires CanAct(s, o) && e !in s.clients && e in Acted(s, o).clients
    ensures e == s.book.next && Acted(s, o).clients[e] == Queued && e in Acted(s, o).book.fates
  {
  }

  lemma GuardKept(s: State, a: Action, t: State, e: ExternalId)
    requires Sound(s) && StepOf(s, a, t) && e in t.clients && (e in s.clients ==> GuardAt(s, e))
    ensures GuardAt(t, e)
  {
    if e in s.clients {
      GuardStep(s, a, e);
    } else {
      NewGuard(s, a, e);
    }
  }

  lemma GuardNext(states: seq<State>, actions: seq<Action>, i: nat, e: ExternalId)
    requires IsRun(states, actions) && i < |actions| && e in states[i + 1].clients
    requires e in states[i].clients ==> GuardAt(states[i], e)
    ensures GuardAt(states[i + 1], e)
  {
    EveryStateSound(states, actions, i);
    GuardKept(states[i], actions[i], states[i + 1], e);
  }

  lemma {:induction false} EveryGuard(states: seq<State>, actions: seq<Action>, i: nat, e: ExternalId)
    requires IsRun(states, actions) && i < |states| && e in states[i].clients
    ensures GuardAt(states[i], e)
  {
    if i > 0 {
      if e in states[i - 1].clients { EveryGuard(states, actions, i - 1, e); }
      GuardNext(states, actions, i - 1, e);
    }
  }

  /** No abandoned requests: in every run, once the command queue is drained or the actor has stopped, no request whose
      client loop started and ended without a terminal event is still in any of the actor's maps. */
  lemma NoAbandonedRequests(states: seq<State>, actions: seq<Action>, i: nat, e: ExternalId)
    requires IsRun(states, actions) && i < |states|
    requires e in states[i].clients && states[i].clients[e] == Over(false)
    requires states[i].queue == [] || states[i].phase.Stopped?
    ensures
      var core := states[i].core;
      e !in core.byExternal && e !in core.active.Values && e !in core.decisions.Values
  {
    EveryGuard(states, actions, i, e);
    EveryStateSound(states, actions, i);
    if states[i].phase.Stopped? { StoppedMeansEmpty(states, actions, i); }
    NotInTables(states[i], e);
  }

  lemma NotInTables(s: State, e: ExternalId)
    requires Sound(s) && e !in s.core.byExternal
    ensures e !in s.core.active.Values && e !in s.core.decisions.Values
  {
  }

  // ---------------------------------------------------------------- no silent loss

  /** An active chat request on whose channel a send was refused is already on the list of requests to be removed. */
  predicate CaughtAt(s: State, e: ExternalId) {
    && e in s.wires.channels && e in s.book.fates
    && (s.book.fates[e].Waiting? ==> !s.wires.channels[e].lost)
    && (s.wires.channels[e].lost && e in s.core.byExternal ==>
         var k := s.core.byExternal[e];
         match s.phase
         case Tick(_, disconnected) => k in disconnected
         case Cancelling(left) => k in left
         case Notifying(left, _) => k !in left
         case Failing(_, _) => true
         case _ => false)
  }

  lemma CaughtControl(s: State, c: Control, e: ExternalId)
    requires CanControl(s, c) && CaughtAt(s, e)
    requires c.FailedAll? ==> e !in s.core.byExternal
    ensures CaughtAt(Controlled(s, c), e)
  {
  }

  lemma CaughtFan(s: State, f: Fan, e: ExternalId)
    requires CanFan(s, f) && CaughtAt(s, e) && PlaceAt(s, e)
    requires f.SendDelta? ==> KeyAt(s, s.phase.work.output[0].id)
    requires f.SendFinished? ==> KeyAt(s, s.phase.work.finished[0].id)
    requires f.SendVerdict? ==> KeyAt(s, s.phase.work.decided[0].id)
    requires f.SendRefusal? ==> KeyAt(s, s.phase.work.undecided[0].id)
    ensures CaughtAt(Fanned(s, f), e)
  {
  }

  lemma CaughtPurge(s: State, p: Purge, e: ExternalId)
    requires CanPurge(s, p) && CaughtAt(s, e) && PlaceAt(s, e) && KeyAt(s, p.k)
    ensures CaughtAt(Purged(s, p), e)
  {
  }

  lemma CaughtSubmit(s: State, x: ExternalId, admission: Admission, e: ExternalId)
    requires CanHandle(s, admission) && CaughtAt(s, e) && PlaceAt(s, e)
    requires s.queue[0] == Submit(x) && x in s.book.fates && s.book.fates[x].Waiting?
    ensures CaughtAt(Handled(s, admission), e)
  {
  }

  lemma CaughtSubmitDecision(s: State, x: ExternalId, admission: Admission, e: ExternalId)
    requires CanHandle(s, admission) && CaughtAt(s, e) && PlaceAt(s, e)
    requires s.queue[0] == SubmitDecision(x) && x in s.book.fates && s.book.fates[x].Waiting?
    ensures CaughtAt(Handled(s, admission), e)
  {
  }

  lemma CaughtCancel(s: State, x: ExternalId, admission: Admission, e: ExternalId)
    requires CanHandle(s, admission) && CaughtAt(s, e) && PlaceAt(s, e) && s.queue[0] == Cancel(x)
    ensures CaughtAt(Handled(s, admission), e)
  {
  }

  lemma CaughtCommand(s: State, admission: Admission, e: ExternalId)
    requires CanHandle(s, admission) && CaughtAt(s, e) && PlaceAt(s, e)
    requires s.queue[0].Submit? || s.queue[0].SubmitDecision? ==>
               s.queue[0].id in s.book.fates && s.book.fates[s.queue[0].id].Waiting?
    ensures CaughtAt(Handled(s, admission), e)
  {
    match s.queue[0]
    case Submit(x) => CaughtSubmit(s, x, admission, e);
    case SubmitDecision(x) => CaughtSubmitDecision(s, x, admission, e);
    case Cancel(x) => CaughtCancel(s, x, admission, e);
    case Shutdown =>
  }

  lemma CaughtOutside(s: State, o: Outside, e: ExternalId)
    requires CanAct(s, o) && CaughtAt(s, e) && (o.NewChat? || o.NewDecision? ==> e != s.book.next)
    ensures CaughtAt(Acted(s, o), e)
  {
  }

  lemma CaughtFanStep(s: State, f: Fan, e: ExternalId)
    requires Sound(s) && CanFan(s, f) && CaughtAt(s, e) && PlaceAt(s, e)
    ensures CaughtAt(Fanned(s, f), e)
  {
    if f.SendDelta? { SoundKeyAt(s, s.phase.work.output[0].id); }
    if f.SendFinished? { SoundKeyAt(s, s.phase.work.finished[0].id); }
    if f.SendVerdict? { SoundKeyAt(s, s.phase.work.decided[0].id); }
    if f.SendRefusal? { SoundKeyAt(s, s.phase.work.undecided[0].id); }
    CaughtFan(s, f, e);
  }

  lemma CaughtCommandStep(s: State, admission: Admission, e: ExternalId)
    requires Sound(s) && CanHandle(s, admission) && CaughtAt(s, e) && PlaceAt(s, e)
    ensures CaughtAt(Handled(s, admission), e)
  {
    assert Fits(s.queue[0], s.book);
    CaughtCommand(s, admission, e);
  }

  lemma CaughtStep(s: State, a: Action, e: ExternalId)
    requires Sound(s) && Enabled(s, a) && CaughtAt(s, e)
    ensures CaughtAt(Apply(s, a), e)
  {
    SoundPlaceAt(s, e);
    if a.ByControl? {
      if a.control.FailedAll? { FailedAllLeavesNone(s); }
      CaughtControl(s, a.control, e);
    } else if a.ByCommand? {
      CaughtCommandStep(s, a.admission, e);
    } else if a.ByFan? {
      CaughtFanStep(s, a.fan, e);
    } else if a.ByPurge? {
      SoundKeyAt(s, a.purge.k);
      CaughtPurge(s, a.purge, e);
    } else {
      NextIsNew(s);
      CaughtOutside(s, a.outside, e);
    }
  }

  lemma CaughtNew(s: State, a: Action, e: ExternalId)
    requires Sound(s) && Enabled(s, a) && e in Apply(s, a).wires.channels && e !in s.wires.channels
    ensures CaughtAt(Apply(s, a), e)
  {
    NewChannels(s, a, e);
  }

  lemma CaughtKept(s: State, a: Action, t: State, e: ExternalId)
    requires Sound(s) && StepOf(s, a, t) && e in t.wires.channels && (e in s.wires.channels ==> CaughtAt(s, e))
    ensures CaughtAt(t, e)
  {
    if e in s.wires.channels {
      CaughtStep(s, a, e);
    } else {
      CaughtNew(s, a, e);
    }
  }

  lemma CaughtNext(states: seq<State>, actions: seq<Action>, i: nat, e: ExternalId)
    requires IsRun(states, actions) && i < |actions| && e in states[i + 1].wires.channels
    requires e in states[i].wires.channels ==> CaughtAt(states[i], e)
    ensures CaughtAt(states[i + 1], e)
  {
    EveryStateSound(states, actions, i);
    CaughtKept(states[i], actions[i], states[i + 1], e);
  }

  lemma {:induction false} EveryCaught(states: seq<State>, actions: seq<Action>, i: nat, e: ExternalId)
    requires IsRun(states, actions) && i < |states| && e in states[i].wires.channels
    ensures CaughtAt(states[i], e)
  {
    if i > 0 {
      if e in states[i - 1].wires.channels { EveryCaught(states, actions, i - 1, e); }
      CaughtNext(states, actions, i - 1, e);
    }
  }

  /** No silent loss, with no hypothesis on the channel: whenever the actor takes commands or is about to tick, every
      request still active has been sent everything the engine ever produced for it, in order, and nothing else.
      A request whose channel refused an event does not survive the tick. */
  lemma ActiveRequestsMissNothing(states: seq<State>, actions: seq<Action>, i: nat, e: ExternalId)
    requires IsRun(states, actions) && i < |states|
    requires states[i].phase.Top? || states[i].phase.Drain?
    requires e in states[i].wires.channels && e in states[i].core.byExternal
    ensures e in states[i].wires.emitted && states[i].wires.channels[e].sent == Outputs(states[i].wires.emitted[e])
  {
    EveryCaught(states, actions, i, e);
    EveryStateSound(states, actions, i);
    EveryStateDelivered(states, actions, i);
    SoundPlaceAt(states[i], e);
    CaughtUp(states[i], e);
  }

  lemma CaughtUp(s: State, e: ExternalId)
    requires s.phase.Top? || s.phase.Drain?
    requires CaughtAt(s, e) && PlaceAt(s, e) && ViewOk(ViewOf(s, e)) && e in s.core.byExternal
    ensures s.wires.channels[e].sent == Outputs(s.wires.emitted[e])
  {
    var v := ViewOf(s, e);
    assert v.pending == [] && v.tail == None && v.emitted == v.channel.offered;
    assert Tailed(Outputs(v.channel.offered), None) == Outputs(v.channel.offered);
  }
}
