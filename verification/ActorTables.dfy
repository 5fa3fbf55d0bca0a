/** What every step of the actor system keeps: agreeing tables, an honest registry, a well-ordered queue,
    conservation. */
module ActorTables {
  import opened Wrappers
  import opened ChatModel
  import opened DecisionModel
  import opened Actor

  // ---------------------------------------------------------------- invariants, part by part

  /** The registry knows every submission; the active ones are exactly those in the tables, under the right kind. */
  ghost predicate Registered(core: Core, b: Book) {
    && core.Ids() <= b.issued
    && b.fates.Keys == b.kinds.Keys
    && (forall e :: e in b.kinds ==> e < b.next)
    && (forall k :: k in core.active ==> core.active[k] in b.kinds && b.kinds[core.active[k]] == Chat)
    && (forall k :: k in core.decisions ==> core.decisions[k] in b.kinds && b.kinds[core.decisions[k]] == Decision)
    && (forall e :: e in core.byExternal ==> e in b.fates)
    && (forall e :: e in b.fates ==> (b.fates[e].Active? <==> e in core.byExternal))
  }

  predicate Submits(c: Command, e: ExternalId) { c == Submit(e) || c == SubmitDecision(e) }

  /** A submission is never preceded by another command about the same request. */
  predicate MayPrecede(c: Command, d: Command) {
    d.Submit? || d.SubmitDecision? ==> c.Shutdown? || c.id != d.id
  }

  predicate Fits(c: Command, b: Book) {
    match c
    case Submit(e) => e in b.kinds && e in b.fates && b.kinds[e] == Chat && b.fates[e].Waiting?
    case SubmitDecision(e) => e in b.kinds && e in b.fates && b.kinds[e] == Decision && b.fates[e].Waiting?
    case Cancel(e) => e in b.fates
    case Shutdown => true
  }

  /** No command for a submission, neither a second submission nor a cancellation, stands before its submission. */
  ghost predicate QueueOk(queue: seq<Command>, b: Book) {
    && (forall i :: 0 <= i < |queue| ==> Fits(queue[i], b))
    && (forall i, j :: 0 <= i < j < |queue| ==> MayPrecede(queue[i], queue[j]))
    && (forall e :: e in b.fates && b.fates[e].Waiting? ==> Submit(e) in queue || SubmitDecision(e) in queue)
  }

  ghost predicate Wired(w: Wires, clients: map<ExternalId, Client>, b: Book) {
    && clients.Keys == b.kinds.Keys && w.emitted.Keys == b.kinds.Keys
    && (forall e :: e in w.channels <==> e in b.kinds && b.kinds[e] == Chat)
    && (forall e :: e in w.slots <==> e in b.kinds && b.kinds[e] == Decision)
  }

  ghost predicate PhaseOk(phase: Phase, core: Core, shutdowns: nat) {
    && (phase.Notifying? ==> phase.left <= core.active.Keys)
    && (phase.Failing? || phase.Stopping? ==> phase.left == core.Ids())
    && (phase.Stopped? ==> core.Ids() == {})
    && shutdowns == (if phase.Stopped? then 1 else 0)
  }

  ghost predicate Sound(s: State) {
    && s.core.Agree() && s.core.Conserved()
    && Registered(s.core, s.book) && QueueOk(s.queue, s.book) && Wired(s.wires, s.clients, s.book)
    && PhaseOk(s.phase, s.core, s.shutdowns)
  }

  // ---------------------------------------------------------------- the pieces steps are made of

  lemma WiredSame(w: Wires, w': Wires, clients: map<ExternalId, Client>, clients': map<ExternalId, Client>, b: Book)
    requires Wired(w, clients, b)
    requires w'.channels.Keys == w.channels.Keys && w'.slots.Keys == w.slots.Keys && w'.emitted.Keys == w.emitted.Keys
    requires clients'.Keys == clients.Keys
    ensures Wired(w', clients', b)
  {
    assert forall e :: e in w'.channels <==> e in w'.channels.Keys;
    assert forall e :: e in w'.slots <==> e in w'.slots.Keys;
  }

  lemma WiredFate(w: Wires, clients: map<ExternalId, Client>, b: Book, e: ExternalId, fate: Fate)
    requires Wired(w, clients, b)
    ensures Wired(w, clients, SetFate(b, e, fate))
  {
  }

  lemma WiredSend(w: Wires, clients: map<ExternalId, Client>, b: Book, capacity: nat, e: ExternalId,
      event: InferenceEvent)
    requires Wired(w, clients, b) && e in w.channels
    ensures Wired(TrySend(w, capacity, e, event), clients, b)
  {
    WiredSame(w, TrySend(w, capacity, e, event), clients, clients, b);
  }

  lemma WiredResolve(w: Wires, clients: map<ExternalId, Client>, b: Book, e: ExternalId, outcome: Outcome)
    requires Wired(w, clients, b) && e in w.slots
    ensures Wired(Resolve(w, e, outcome), clients, b)
  {
    WiredSame(w, Resolve(w, e, outcome), clients, clients, b);
  }

  /** Settling an active submission changes nothing the queue speaks about. */
  lemma QueueSettle(queue: seq<Command>, b: Book, e: ExternalId, fate: Fate)
    requires QueueOk(queue, b) && e in b.fates && !b.fates[e].Waiting? && !fate.Waiting?
    ensures QueueOk(queue, SetFate(b, e, fate))
  {
    forall i | 0 <= i < |queue| ensures Fits(queue[i], SetFate(b, e, fate)) { assert Fits(queue[i], b); }
  }

  lemma RegisteredDropChat(core: Core, b: Book, k: EngineId, fate: Fate)
    requires core.Agree() && Registered(core, b) && k in core.active && !fate.Active?
    ensures Registered(core.DropChat(k), SetFate(b, core.active[k], fate))
  {
  }

  lemma RegisteredDropDecision(core: Core, b: Book, k: EngineId, fate: Fate)
    requires core.Agree() && Registered(core, b) && k in core.decisions && !fate.Active?
    ensures Registered(core.DropDecision(k), SetFate(b, core.decisions[k], fate))
  {
  }

  lemma RegisteredBump(core: Core, b: Book, x: nat, y: nat, z: nat)
    requires Registered(core, b)
    ensures Registered(core.Bump(x, y, z), b)
  {
  }

  // ---------------------------------------------------------------- steps

  lemma WiredEmits(w: Wires, clients: map<ExternalId, Client>, b: Book, core: Core, output: seq<Delta>)
    requires Wired(w, clients, b)
    ensures Wired(EngineEmits(w, core, output), clients, b)
  {
    hide Wired;
    WiredSame(w, EngineEmits(w, core, output), clients, clients, b);
  }

  /** The loop's own steps change the phase; a tick also adds to what the engine has produced. */
  lemma ControlPhase(s: State, c: Control)
    requires PhaseOk(s.phase, s.core, s.shutdowns) && CanControl(s, c)
    ensures
      var t := Controlled(s, c);
      && (t.core, t.book, t.queue, t.clients) == (s.core, s.book, s.queue, s.clients)
      && t.wires == (if c.TickDone? then EngineEmits(s.wires, s.core, c.work.output) else s.wires)
      && PhaseOk(t.phase, t.core, t.shutdowns)
  {
    hide EngineEmits;
  }

  lemma SoundControl(s: State, c: Control)
    requires Sound(s) && CanControl(s, c)
    ensures Sound(Controlled(s, c))
  {
    hide Registered, QueueOk, Wired, Core.Agree, Core.Conserved, EngineEmits, PhaseOk, Controlled, CanControl;
    ControlPhase(s, c);
    if c.TickDone? { WiredEmits(s.wires, s.clients, s.book, s.core, c.work.output); }
  }

  lemma QueueTail(queue: seq<Command>, b: Book)
    requires queue != [] && QueueOk(queue, b)
    requires queue[0].Cancel? || queue[0].Shutdown?
    ensures QueueOk(queue[1..], b)
  {
    forall e | e in b.fates && b.fates[e].Waiting? ensures Submit(e) in queue[1..] || SubmitDecision(e) in queue[1..] {
      assert queue == [queue[0]] + queue[1..];
    }
  }

  /** Handling a submission takes its only command off the queue and gives it a fate. */
  lemma QueueSubmitted(queue: seq<Command>, b: Book, e: ExternalId, fate: Fate)
    requires queue != [] && QueueOk(queue, b) && Submits(queue[0], e) && !fate.Waiting?
    ensures QueueOk(queue[1..], SetFate(b, e, fate))
  {
    var b1 := SetFate(b, e, fate);
    forall i | 0 <= i < |queue[1..]| ensures Fits(queue[1..][i], b1) {
      assert Fits(queue[i + 1], b);
      assert MayPrecede(queue[0], queue[i + 1]);
    }
    forall x | x in b1.fates && b1.fates[x].Waiting?
        ensures Submit(x) in queue[1..] || SubmitDecision(x) in queue[1..] {
      assert x != e && queue == [queue[0]] + queue[1..];
    }
  }

  lemma QueueIgnoresIssued(queue: seq<Command>, b: Book, issued: set<EngineId>)
    requires QueueOk(queue, b)
    ensures QueueOk(queue, b.(issued := issued))
  {
    forall i | 0 <= i < |queue| ensures Fits(queue[i], b.(issued := issued)) { assert Fits(queue[i], b); }
  }

  lemma WiredIgnoresIssued(w: Wires, clients: map<ExternalId, Client>, b: Book, issued: set<EngineId>)
    requires Wired(w, clients, b)
    ensures Wired(w, clients, b.(issued := issued))
  {
  }

  lemma RegisteredFate(core: Core, b: Book, e: ExternalId, fate: Fate)
    requires Registered(core, b) && e in b.fates && !b.fates[e].Active? && !fate.Active?
    ensures Registered(core, SetFate(b, e, fate))
  {
  }

  lemma RegisteredAddChat(core: Core, b: Book, e: ExternalId, k: EngineId)
    requires Registered(core, b) && e in b.kinds && b.kinds[e] == Chat && k !in b.issued
    ensures Registered(core.AddChat(e, k), SetFate(b, e, Active).(issued := b.issued + {k}))
  {
  }

  lemma RegisteredAddDecision(core: Core, b: Book, e: ExternalId, k: EngineId)
    requires Registered(core, b) && e in b.kinds && b.kinds[e] == Decision && k !in b.issued
    ensures Registered(core.AddDecision(e, k), SetFate(b, e, Active).(issued := b.issued + {k}))
  {
  }

  lemma NextIsWaiting(queue: seq<Command>, core: Core, b: Book, e: ExternalId)
    requires QueueOk(queue, b) && queue != [] && Submits(queue[0], e)
    ensures e in b.kinds && b.kinds[e] == (if queue[0].Submit? then Chat else Decision)
    ensures e in b.fates && b.fates[e].Waiting?
  {
    assert Fits(queue[0], b);
  }

  /** A waiting submission is in no table, and neither is an engine id that was never issued. */
  lemma NotYetKnown(core: Core, b: Book, e: ExternalId, admission: Admission)
    requires Registered(core, b) && e in b.fates && b.fates[e].Waiting?
    requires admission.Admitted? ==> admission.id !in b.issued
    ensures e !in core.byExternal
    ensures admission.Admitted? ==> admission.id !in core.active && admission.id !in core.decisions
  {
    assert core.active.Keys <= core.Ids() && core.decisions.Keys <= core.Ids();
  }

  lemma AddConserves(core: Core, e: ExternalId, k: EngineId)
    requires core.Conserved() && k !in core.active && k !in core.decisions
    ensures core.AddChat(e, k).Conserved() && core.AddDecision(e, k).Conserved()
  {
    AddChatCounts(core, e, k);
    AddDecisionCounts(core, e, k);
  }

  lemma DrainOk(s: State, core: Core)
    requires PhaseOk(s.phase, s.core, s.shutdowns) && (s.phase.Top? || s.phase.Drain?)
    ensures PhaseOk(Drain, core, s.shutdowns)
  {
  }

  /** The state after a submission was admitted or turned down. */
  lemma SubmitParts(s: State, e: ExternalId, admission: Admission)
    requires CanHandle(s, admission) && s.queue[0] == Submit(e)
    ensures e in s.wires.channels && (s.phase.Top? || s.phase.Drain?) && s.queue != []
    ensures admission.Admitted? ==> admission.id !in s.book.issued
    ensures
      Handled(s, admission) ==
        match admission
        case Admitted(k) =>
          s.(queue := s.queue[1..], phase := Drain, core := s.core.AddChat(e, k),
             book := SetFate(s.book, e, Active).(issued := s.book.issued + {k}))
        case Rejected(message) =>
          s.(queue := s.queue[1..], phase := Drain, book := SetFate(s.book, e, Refused(message)),
             wires := TrySend(s.wires, s.capacity, e, Error(message)))
  {
  }

  lemma SubmitDecisionParts(s: State, e: ExternalId, admission: Admission)
    requires CanHandle(s, admission) && s.queue[0] == SubmitDecision(e)
    ensures e in s.wires.slots && (s.phase.Top? || s.phase.Drain?) && s.queue != []
    ensures admission.Admitted? ==> admission.id !in s.book.issued
    ensures
      Handled(s, admission) ==
        match admission
        case Admitted(k) =>
          s.(queue := s.queue[1..], phase := Drain, core := s.core.AddDecision(e, k),
             book := SetFate(s.book, e, Active).(issued := s.book.issued + {k}))
        case Rejected(message) =>
          s.(queue := s.queue[1..], phase := Drain, book := SetFate(s.book, e, Refused(message)),
             wires := Resolve(s.wires, e, Undecided(message)))
  {
  }

  lemma SoundSubmit(s: State, e: ExternalId, admission: Admission)
    requires Sound(s) && CanHandle(s, admission) && s.queue[0] == Submit(e)
    ensures Sound(Handled(s, admission))
  {
    hide Registered, QueueOk, Wired, Core.Agree, Core.Conserved, TrySend, SetFate, Core.AddChat, Handled, CanHandle,
      PhaseOk;
    SubmitParts(s, e, admission);
    NextIsWaiting(s.queue, s.core, s.book, e);
    NotYetKnown(s.core, s.book, e, admission);
    DrainOk(s, Handled(s, admission).core);
    match admission
    case Admitted(k) =>
      AddChatAgrees(s.core, e, k);
      AddConserves(s.core, e, k);
      RegisteredAddChat(s.core, s.book, e, k);
      QueueSubmitted(s.queue, s.book, e, Active);
      QueueIgnoresIssued(s.queue[1..], SetFate(s.book, e, Active), s.book.issued + {k});
      WiredFate(s.wires, s.clients, s.book, e, Active);
      WiredIgnoresIssued(s.wires, s.clients, SetFate(s.book, e, Active), s.book.issued + {k});
    case Rejected(message) =>
      RegisteredFate(s.core, s.book, e, Refused(message));
      QueueSubmitted(s.queue, s.book, e, Refused(message));
      WiredFate(s.wires, s.clients, s.book, e, Refused(message));
      WiredSend(s.wires, s.clients, SetFate(s.book, e, Refused(message)), s.capacity, e, Error(message));
  }

  lemma SoundSubmitDecision(s: State, e: ExternalId, admission: Admission)
    requires Sound(s) && CanHandle(s, admission) && s.queue[0] == SubmitDecision(e)
    ensures Sound(Handled(s, admission))
  {
    hide Registered, QueueOk, Wired, Core.Agree, Core.Conserved, Resolve, SetFate, Core.AddDecision, Handled, CanHandle,
      PhaseOk;
    SubmitDecisionParts(s, e, admission);
    NextIsWaiting(s.queue, s.core, s.book, e);
    NotYetKnown(s.core, s.book, e, admission);
    DrainOk(s, Handled(s, admission).core);
    match admission
    case Admitted(k) =>
      AddDecisionAgrees(s.core, e, k);
      AddConserves(s.core, e, k);
      RegisteredAddDecision(s.core, s.book, e, k);
      QueueSubmitted(s.queue, s.book, e, Active);
      QueueIgnoresIssued(s.queue[1..], SetFate(s.book, e, Active), s.book.issued + {k});
      WiredFate(s.wires, s.clients, s.book, e, Active);
      WiredIgnoresIssued(s.wires, s.clients, SetFate(s.book, e, Active), s.book.issued + {k});
    case Rejected(message) =>
      RegisteredFate(s.core, s.book, e, Refused(message));
      QueueSubmitted(s.queue, s.book, e, Refused(message));
      WiredFate(s.wires, s.clients, s.book, e, Refused(message));
      WiredResolve(s.wires, s.clients, SetFate(s.book, e, Refused(message)), e, Undecided(message));
  }

  /** A registry that fits a queue and the wires still does once an active submission is settled. */
  lemma SettleKeeps(b: Book, queue: seq<Command>, w: Wires, clients: map<ExternalId, Client>, e: ExternalId, fate: Fate)
    requires QueueOk(queue, b) && Wired(w, clients, b) && e in b.fates && b.fates[e].Active?
    requires !fate.Active? && !fate.Waiting?
    ensures QueueOk(queue, SetFate(b, e, fate)) && Wired(w, clients, SetFate(b, e, fate))
  {
    QueueSettle(queue, b, e, fate);
    WiredFate(w, clients, b, e, fate);
  }

  lemma RegisteredRemoval(core: Core, b: Book, k: EngineId, fate: Fate)
    requires core.Agree() && Registered(core, b) && !fate.Active?
    ensures Registered(core.Cancelled(k), FateAfter(b, core, k, fate))
    ensures Registered(core.FailedOne(k), FateAfter(b, core, k, fate))
  {
    RemovalHitsOnce(core, k);
    if k in core.active {
      var b' := SetFate(b, core.active[k], fate);
      RegisteredDropChat(core, b, k, fate);
      RegisteredBump(core.DropChat(k), b', 0, 0, 1);
      RegisteredBump(core.DropChat(k), b', 0, 1, 0);
    } else if k in core.decisions {
      var b' := SetFate(b, core.decisions[k], fate);
      RegisteredDropDecision(core, b, k, fate);
      RegisteredBump(core.DropDecision(k), b', 0, 0, 1);
      RegisteredBump(core.DropDecision(k), b', 0, 1, 0);
    }
  }

  /** Removing one request, whatever becomes of it, keeps every part except the phase. */
  lemma RemovalKeeps(core: Core, core': Core, b: Book, queue: seq<Command>, w: Wires, clients: map<ExternalId, Client>,
      k: EngineId, fate: Fate)
    requires core.Agree() && Registered(core, b) && QueueOk(queue, b) && Wired(w, clients, b)
    requires core' == core.Cancelled(k) || core' == core.FailedOne(k)
    requires !fate.Active? && !fate.Waiting?
    ensures
      var b' := FateAfter(b, core, k, fate);
      core'.Agree() && core'.Ids() == core.Ids() - {k} && Registered(core', b') && QueueOk(queue, b')
          && Wired(w, clients, b')
  {
    RemovalAgrees(core, k);
    RegisteredRemoval(core, b, k, fate);
    if k in core.Ids() {
      SettleKeeps(b, queue, w, clients, if k in core.active then core.active[k] else core.decisions[k], fate);
    }
  }

  lemma SoundCommand(s: State, admission: Admission)
    requires Sound(s) && CanHandle(s, admission)
    ensures Sound(Handled(s, admission))
  {
    match s.queue[0]
    case Submit(e) => SoundSubmit(s, e, admission);
    case SubmitDecision(e) => SoundSubmitDecision(s, e, admission);
    case Cancel(e) =>
      QueueTail(s.queue, s.book);
      if e in s.core.byExternal {
        var k := s.core.byExternal[e];
        RemovalKeeps(s.core, s.core.Cancelled(k), s.book, s.queue[1..], s.wires, s.clients, k, Withdrawn);
        RemovalConserves(s.core, k);
      }
    case Shutdown => QueueTail(s.queue, s.book);
  }

  lemma SoundPurge(s: State, p: Purge)
    requires Sound(s) && CanPurge(s, p)
    ensures Sound(Purged(s, p))
  {
    match p
    case CancelOne(k) =>
      RemovalKeeps(s.core, s.core.Cancelled(k), s.book, s.queue, s.wires, s.clients, k, Withdrawn);
      RemovalConserves(s.core, k);
    case StopOne(k) =>
      RemovalKeeps(s.core, s.core.Cancelled(k), s.book, s.queue, s.wires, s.clients, k, Withdrawn);
      RemovalConserves(s.core, k);
    case NotifyOne(k) =>
      WiredSend(s.wires, s.clients, s.book, s.capacity, s.core.active[k], Error(s.phase.message));
    case FailOne(k) =>
      var fate := Broken(s.phase.message);
      RemovalKeeps(s.core, s.core.FailedOne(k), s.book, s.queue, s.wires, s.clients, k, fate);
      RemovalConserves(s.core, k);
      if k !in s.core.active && k in s.core.decisions {
        WiredResolve(s.wires, s.clients, FateAfter(s.book, s.core, k, fate), s.core.decisions[k],
            Undecided(s.phase.message));
      }
  }

  lemma SoundFinished(s: State)
    requires Sound(s) && CanFan(s, SendFinished)
    ensures Sound(FinishedSent(s))
  {
    var f := s.phase.work.finished[0];
    if f.id in s.core.active {
      var e, fate := s.core.active[f.id], Ended(f.reason, f.usage);
      var dropped, b := s.core.DropChat(f.id), SetFate(s.book, e, fate);
      DropChatAgrees(s.core, f.id);
      DropChatCounts(s.core, f.id);
      RegisteredDropChat(s.core, s.book, f.id, fate);
      RegisteredBump(dropped, b, 1, 0, 0);
      QueueSettle(s.queue, s.book, e, fate);
      WiredFate(s.wires, s.clients, s.book, e, fate);
      WiredSend(s.wires, s.clients, b, s.capacity, e, Finished(f.reason, f.usage));
    }
  }

  /** A decision leaves the tables with a fate and an outcome. */
  lemma SoundOutcome(s: State, k: EngineId, fate: Fate, outcome: Outcome, completed: nat, failed: nat)
    requires Sound(s) && k in s.core.decisions && s.core.decisions[k] in s.wires.slots
    requires !fate.Active? && !fate.Waiting? && completed + failed == 1
    ensures
      var e := s.core.decisions[k];
      var core := s.core.DropDecision(k).Bump(completed, failed, 0);
      && core.Agree() && core.Conserved() && Registered(core, SetFate(s.book, e, fate))
      && QueueOk(s.queue, SetFate(s.book, e, fate))
      && Wired(Resolve(s.wires, e, outcome), s.clients, SetFate(s.book, e, fate))
  {
    var e := s.core.decisions[k];
    DropDecisionAgrees(s.core, k);
    DropDecisionCounts(s.core, k);
    RegisteredDropDecision(s.core, s.book, k, fate);
    RegisteredBump(s.core.DropDecision(k), SetFate(s.book, e, fate), completed, failed, 0);
    QueueSettle(s.queue, s.book, e, fate);
    WiredFate(s.wires, s.clients, s.book, e, fate);
    WiredResolve(s.wires, s.clients, SetFate(s.book, e, fate), e, outcome);
  }

  lemma SoundFan(s: State, f: Fan)
    requires Sound(s) && CanFan(s, f)
    ensures Sound(Fanned(s, f))
  {
    match f
    case SendDelta =>
      var d := s.phase.work.output[0];
      if d.id in s.core.active {
        WiredSend(s.wires, s.clients, s.book, s.capacity, s.core.active[d.id], Output(d.event));
      }
    case SendFinished => SoundFinished(s);
    case SendVerdict =>
      var v := s.phase.work.decided[0];
      if v.id in s.core.decisions { SoundOutcome(s, v.id, Answered(v.completion), Decided(v.completion), 1, 0); }
    case SendRefusal =>
      var r := s.phase.work.undecided[0];
      if r.id in s.core.decisions { SoundOutcome(s, r.id, Broken(r.message), Undecided(r.message), 0, 1); }
  }

  lemma QueueNew(queue: seq<Command>, b: Book, kind: Kind)
    requires QueueOk(queue, b) && b.next !in b.kinds && b.fates.Keys == b.kinds.Keys
    ensures QueueOk(queue + [if kind.Chat? then Submit(b.next) else SubmitDecision(b.next)], BookNew(b, kind))
  {
    var e, b1 := b.next, BookNew(b, kind);
    var c := if kind.Chat? then Submit(e) else SubmitDecision(e);
    var more := queue + [c];
    assert e !in b.fates.Keys;
    forall i | 0 <= i < |more| ensures Fits(more[i], b1) {
      if i < |queue| { assert Fits(queue[i], b); }
    }
    forall x | x in b1.fates && b1.fates[x].Waiting? ensures Submit(x) in more || SubmitDecision(x) in more {
      if x == e { assert more[|queue|] == c; }
    }
    forall i, j | 0 <= i < j < |more| ensures MayPrecede(more[i], more[j]) {
      assert i < |queue| && Fits(queue[i], b);
    }
  }

  lemma RegisteredNew(core: Core, b: Book, kind: Kind)
    requires Registered(core, b)
    ensures b.next !in b.kinds && Registered(core, BookNew(b, kind))
  {
  }

  /** A key more in a map whose keys are the submissions of one kind. */
  lemma KeysOfKind<T>(m: map<ExternalId, T>, m': map<ExternalId, T>, kinds: map<ExternalId, Kind>, e: ExternalId,
      kind: Kind, of: Kind)
    requires forall x :: x in m <==> x in kinds && kinds[x] == of
    requires e !in kinds && m'.Keys == m.Keys + (if kind == of then {e} else {})
    ensures forall x :: x in m' <==> x in kinds[e := kind] && kinds[e := kind][x] == of
  {
    forall x ensures x in m' <==> x in kinds[e := kind] && kinds[e := kind][x] == of {
      assert x in m' <==> x in m'.Keys;
    }
  }

  lemma WiredNew(w: Wires, clients: map<ExternalId, Client>, b: Book, kind: Kind)
    requires Wired(w, clients, b) && b.next !in b.kinds
    ensures Wired(WiresNew(w, b.next, kind), clients[b.next := Queued], BookNew(b, kind))
  {
    var e, w' := b.next, WiresNew(w, b.next, kind);
    KeysOfKind(w.channels, w'.channels, b.kinds, e, kind, Chat);
    KeysOfKind(w.slots, w'.slots, b.kinds, e, kind, Decision);
  }

  lemma SoundNew(s: State, kind: Kind)
    requires Sound(s) && !s.phase.Stopped?
    ensures Sound(Submitted(s, kind))
  {
    RegisteredNew(s.core, s.book, kind);
    QueueNew(s.queue, s.book, kind);
    WiredNew(s.wires, s.clients, s.book, kind);
  }

  lemma QueueMore(queue: seq<Command>, b: Book, c: Command)
    requires QueueOk(queue, b) && (c.Shutdown? || (c.Cancel? && c.id in b.fates))
    ensures QueueOk(queue + [c], b)
  {
  }

  lemma HangKeepsKeys(w: Wires, e: ExternalId)
    ensures Hang(w, e).channels.Keys == w.channels.Keys && Hang(w, e).slots.Keys == w.slots.Keys
    ensures Hang(w, e).emitted == w.emitted
  {
  }

  lemma WiredHang(w: Wires, clients: map<ExternalId, Client>, b: Book, e: ExternalId, c: Client)
    requires Wired(w, clients, b) && e in clients
    ensures Wired(Hang(w, e), clients[e := c], b)
  {
    HangKeepsKeys(w, e);
    WiredSame(w, Hang(w, e), clients, clients[e := c], b);
  }

  lemma WiredSlot(w: Wires, clients: map<ExternalId, Client>, b: Book, e: ExternalId, slot: Slot, c: Client)
    requires Wired(w, clients, b) && e in w.slots
    ensures Wired(w.(slots := w.slots[e := slot]), clients[e := c], b)
  {
  }

  lemma WiredClient(w: Wires, clients: map<ExternalId, Client>, b: Book, e: ExternalId, c: Client)
    requires Wired(w, clients, b) && e in clients
    ensures Wired(w, clients[e := c], b)
  {
  }

  lemma SoundLeaving(s: State, o: Outside)
    requires Sound(s) && CanAct(s, o) && (o.DropGuard? || o.GiveUpEarly? || o.Disarm?)
    ensures Sound(Acted(s, o))
  {
    assert o.e in s.clients.Keys;
    if o.DropGuard? { QueueMore(s.queue, s.book, Cancel(o.e)); }
    WiredHang(s.wires, s.clients, s.book, o.e, Acted(s, o).clients[o.e]);
  }

  /** Clients and wires may change freely under the same keys. */
  lemma SoundWires(s: State, wires: Wires, clients: map<ExternalId, Client>)
    requires Sound(s) && Wired(wires, clients, s.book)
    ensures Sound(s.(wires := wires, clients := clients))
  {
  }

  lemma TakenKeys(s: State, e: ExternalId)
    requires CanAct(s, Receive(e))
    ensures
      var t := Taken(s, e);
      && t == s.(wires := t.wires, clients := t.clients)
      && t.wires.channels.Keys == s.wires.channels.Keys && t.wires.slots == s.wires.slots
      && t.wires.emitted == s.wires.emitted && t.clients.Keys == s.clients.Keys
  {
  }

  lemma SoundTaken(s: State, e: ExternalId)
    requires Sound(s) && CanAct(s, Receive(e))
    ensures Sound(Taken(s, e))
  {
    hide Taken, CanAct;
    var t := Taken(s, e);
    TakenKeys(s, e);
    WiredSame(s.wires, t.wires, s.clients, t.clients, s.book);
    SoundWires(s, t.wires, t.clients);
  }

  lemma SoundOutcomeTaken(s: State, e: ExternalId)
    requires Sound(s) && CanAct(s, ReceiveOutcome(e))
    ensures Sound(OutcomeTaken(s, e))
  {
    WiredSlot(s.wires, s.clients, s.book, e, s.wires.slots[e].(taken := true), Satisfied);
  }

  lemma SoundOutside(s: State, o: Outside)
    requires Sound(s) && CanAct(s, o)
    ensures Sound(Acted(s, o))
  {
    if o.NewChat? {
      SoundNew(s, Chat);
    } else if o.NewDecision? {
      SoundNew(s, Decision);
    } else if o.AskShutdown? {
      QueueMore(s.queue, s.book, Shutdown);
    } else if o.DropGuard? || o.GiveUpEarly? || o.Disarm? {
      SoundLeaving(s, o);
    } else if o.Begin? {
      WiredClient(s.wires, s.clients, s.book, o.e, Running);
    } else if o.Receive? {
      SoundTaken(s, o.e);
    } else if o.ReceiveOutcome? {
      SoundOutcomeTaken(s, o.e);
    }
  }

  lemma SoundStep(s: State, a: Action)
    requires Sound(s) && Enabled(s, a)
    ensures Sound(Apply(s, a))
  {
    match a
    case ByControl(c) => SoundControl(s, c);
    case ByCommand(admission) => SoundCommand(s, admission);
    case ByFan(f) => SoundFan(s, f);
    case ByPurge(p) => SoundPurge(s, p);
    case ByOutside(o) => SoundOutside(s, o);
  }

  lemma InitSound(capacity: nat)
    ensures Sound(Init(capacity))
  {
  }

  /** In every state of every run the external map is exactly the inverse of two disjoint engine maps, every accepted
      submission is completed, failed, cancelled or still active, and the service is shut down at most once. */
  lemma {:induction false} EveryStateSound(states: seq<State>, actions: seq<Action>, i: nat)
    requires IsRun(states, actions) && i < |states|
    ensures Sound(states[i])
  {
    hide Apply, Enabled, Sound, Init;
    if i == 0 {
      InitSound(states[0].capacity);
    } else {
      EveryStateSound(states, actions, i - 1);
      SoundStep(states[i - 1], actions[i - 1]);
    }
  }

  lemma IsKnown(core: Core, e: ExternalId)
    requires core.Agree() && e in core.byExternal
    ensures core.byExternal[e] in core.Ids()
  {
  }

  /** Without engine ids there are no external ones either. */
  lemma NoneKnown(core: Core)
    requires core.Agree() && core.Ids() == {}
    ensures core.Idle() && core.byExternal == map[]
  {
    hide Core.Agree;
    assert core.active.Keys <= core.Ids() && core.decisions.Keys <= core.Ids();
    forall e ensures e !in core.byExternal {
      if e in core.byExternal { IsKnown(core, e); }
    }
  }

  /** A stopped actor has nothing left in any map and has shut its service down exactly once;
      one that has not stopped has not shut it down. */
  lemma StoppedMeansEmpty(states: seq<State>, actions: seq<Action>, i: nat)
    requires IsRun(states, actions) && i < |states|
    ensures var s := states[i];
      if s.phase.Stopped? then s.core.Idle() && s.core.byExternal == map[] && s.shutdowns == 1 else s.shutdowns == 0
  {
    hide IsRun;
    EveryStateSound(states, actions, i);
    if states[i].phase.Stopped? { NoneKnown(states[i].core); }
  }

  // ---------------------------------------------------------------- what a cancellation leaves alone

  /** Cancelling touches no other request's entry, no channel and no slot, and does nothing for an unknown id. */
  lemma CancelFrame(s: State, e: ExternalId, other: ExternalId)
    requires Sound(s) && other != e
    ensures
      var t := HandleCancel(s, e);
      && t.wires == s.wires && t.clients == s.clients && t.queue == s.queue && t.phase == s.phase
      && (e !in s.core.byExternal ==> t == s)
      && e !in t.core.byExternal
      && (other in t.core.byExternal <==> other in s.core.byExternal)
      && (other in s.core.byExternal ==>
           var k := s.core.byExternal[other];
           && t.core.byExternal[other] == k
           && (k in s.core.active <==> k in t.core.active) && (k in s.core.decisions <==> k in t.core.decisions))
      && (other in s.book.fates ==> other in t.book.fates && t.book.fates[other] == s.book.fates[other])
  {
    hide Registered, QueueOk, Wired, Core.Conserved, PhaseOk;
    if e in s.core.byExternal { RemovalHitsOnce(s.core, s.core.byExternal[e]); }
  }

  // ---------------------------------------------------------------- the thread never gets stuck

  lemma CommandNotStuck(s: State, engineId: EngineId)
    requires Sound(s) && engineId !in s.book.issued
    requires s.queue != [] && (s.phase.Drain? || (s.phase.Top? && s.core.Idle()))
    ensures Enabled(s, ByCommand(Admitted(engineId)))
  {
    assert Fits(s.queue[0], s.book);
  }

  lemma TickNotStuck(s: State)
    requires Sound(s) && s.phase.Tick?
    ensures CanFan(s, SendDelta) || CanFan(s, SendFinished) || CanFan(s, SendVerdict) || CanFan(s, SendRefusal)
            || CanControl(s, Sweep({}))
  {
    hide QueueOk, PhaseOk, Core.Agree, Core.Conserved;
  }

  lemma PurgeNotStuck(s: State)
    requires Sound(s) && (s.phase.Cancelling? || s.phase.Notifying? || s.phase.Failing? || s.phase.Stopping?)
    ensures (exists p :: CanPurge(s, p)) || (exists c :: CanControl(s, c))
  {
    var left := s.phase.left;
    if left == {} {
      var c := if s.phase.Cancelling? then EndTick else if s.phase.Notifying? then NotifiedAll
               else if s.phase.Failing? then FailedAll else ShutDownService;
      assert CanControl(s, c);
    } else {
      var k :| k in left;
      var p := if s.phase.Cancelling? then CancelOne(k) else if s.phase.Notifying? then NotifyOne(k)
               else if s.phase.Failing? then FailOne(k) else StopOne(k);
      assert CanPurge(s, p);
    }
  }

  /** With no command to take, the loop itself can go on, unless it waits for one. */
  lemma LoopNotStuck(s: State)
    requires (s.phase.Top? && (!s.core.Idle() || (s.queue == [] && s.closed))) || (s.phase.Drain? && s.queue == [])
    ensures exists c :: CanControl(s, c)
  {
    var c := if s.phase.Top? then (if s.core.Idle() then ChannelClosed else StartDraining)
             else if s.core.Idle() then NothingToDo else TickFailed("");
    assert CanControl(s, c);
  }

  lemma StepsExist(s: State)
    requires Sound(s)
    requires !s.phase.Stopped? && !(s.phase.Top? && s.core.Idle() && s.queue == [] && !s.closed)
    requires s.queue == [] || !(s.phase.Drain? || (s.phase.Top? && s.core.Idle()))
    ensures (exists f :: CanFan(s, f)) || (exists p :: CanPurge(s, p)) || (exists c :: CanControl(s, c))
  {
    if s.phase.Top? || s.phase.Drain? {
      LoopNotStuck(s);
    } else if s.phase.Tick? {
      TickNotStuck(s);
    } else {
      PurgeNotStuck(s);
    }
  }

  /** In every sound state the actor thread has a step of its own unless it has stopped
      or is waiting for a command that has not been sent. */
  lemma NeverStuck(s: State, engineId: EngineId)
    requires Sound(s) && engineId !in s.book.issued
    requires !s.phase.Stopped? && !(s.phase.Top? && s.core.Idle() && s.queue == [] && !s.closed)
    ensures exists a: Action :: !a.ByOutside? && Enabled(s, a)
  {
    hide CanFan, CanPurge, CanControl, CanHandle, Sound;
    if s.queue != [] && (s.phase.Drain? || (s.phase.Top? && s.core.Idle())) {
      CommandNotStuck(s, engineId);
    } else {
      StepsExist(s);
      if f :| CanFan(s, f) { assert Enabled(s, ByFan(f)); }
      if p :| CanPurge(s, p) { assert Enabled(s, ByPurge(p)); }
      if c :| CanControl(s, c) { assert Enabled(s, ByControl(c)); }
    }
  }
}
