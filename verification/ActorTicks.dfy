/** What a tick leaves alone, and why a request is withdrawn. */
module ActorTicks {
  import opened Wrappers
  import opened ChatModel
  import opened DecisionModel
  import opened Actor
  import opened ActorTables
  import opened ActorDelivery
  import opened ActorPromises

  // ---------------------------------------------------------------- who may be withdrawn

  /** The receiving end of a request is gone. */
  predicate Gone(w: Wires, e: ExternalId) {
    (e in w.channels && !w.channels[e].open) || (e in w.slots && !w.slots[e].open)
  }

  /** Some send to a request was refused. */
  predicate Lossy(w: Wires, e: ExternalId) { e in w.channels && w.channels[e].lost }

  /** A request is cancelled, or about to be, only for a reason: its receiver is gone, a send to it was refused, or the
      thread is stopping. */
  predicate JustifiedAt(s: State, e: ExternalId) {
    && (Cancel(e) in s.queue ==> Gone(s.wires, e))
    && (e in s.book.fates && s.book.fates[e].Withdrawn? ==>
         Gone(s.wires, e) || Lossy(s.wires, e) || s.phase.Stopping? || s.phase.Stopped?)
    && (e in s.core.byExternal ==>
         var k := s.core.byExternal[e];
         && (s.phase.Tick? && k in s.phase.disconnected ==> Lossy(s.wires, e))
         && (s.phase.Cancelling? && k in s.phase.left ==> Gone(s.wires, e) || Lossy(s.wires, e)))
  }

  /** The tables' two entries for one request belong together. */
  predicate EntryAt(s: State, e: ExternalId) {
    && (e in s.core.byExternal ==>
         var k := s.core.byExternal[e];
         && (k in s.core.active <==> k !in s.core.decisions)
         && (k in s.core.active ==> s.core.active[k] == e && e in s.wires.channels && e !in s.wires.slots)
         && (k in s.core.decisions ==> s.core.decisions[k] == e && e in s.wires.slots && e !in s.wires.channels))
    && (e in s.book.fates ==> (s.book.fates[e].Active? <==> e in s.core.byExternal))
  }

  /** An engine id in the tables leads to a request that leads back to it. */
  predicate BackAt(s: State, k: EngineId) {
    && (k in s.core.active ==> s.core.active[k] in s.core.byExternal && s.core.byExternal[s.core.active[k]] == k)
    && (k in s.core.decisions ==>
         s.core.decisions[k] in s.core.byExternal && s.core.byExternal[s.core.decisions[k]] == k)
  }

  lemma SoundEntryAt(s: State, e: ExternalId)
    requires Sound(s)
    ensures EntryAt(s, e)
  {
    hide QueueOk, PhaseOk, Core.Conserved;
    if e in s.core.byExternal { assert e in s.book.fates && e in s.book.kinds.Keys; }
  }

  lemma SoundBackAt(s: State, k: EngineId)
    requires Sound(s)
    ensures BackAt(s, k)
  {
    hide QueueOk, PhaseOk, Core.Conserved, Registered, Wired;
  }

  // ---------------------------------------------------------------- each kind of step

  lemma ControlJustified(s: State, c: Control, e: ExternalId)
    requires CanControl(s, c) && JustifiedAt(s, e) && EntryAt(s, e)
    requires c.FailedAll? ==> e !in s.core.byExternal
    ensures JustifiedAt(Controlled(s, c), e)
  {
  }

  lemma DeltaJustified(s: State, e: ExternalId)
    requires CanFan(s, SendDelta) && JustifiedAt(s, e) && EntryAt(s, e) && BackAt(s, s.phase.work.output[0].id)
    ensures JustifiedAt(DeltaSent(s), e)
  {
  }

  lemma FinishedJustified(s: State, e: ExternalId)
    requires CanFan(s, SendFinished) && JustifiedAt(s, e) && EntryAt(s, e) && BackAt(s, s.phase.work.finished[0].id)
    ensures JustifiedAt(FinishedSent(s), e)
  {
  }

  lemma VerdictJustified(s: State, e: ExternalId)
    requires CanFan(s, Fan.SendVerdict) && JustifiedAt(s, e) && EntryAt(s, e) && BackAt(s, s.phase.work.decided[0].id)
    ensures JustifiedAt(VerdictSent(s), e)
  {
  }

  lemma RefusalJustified(s: State, e: ExternalId)
    requires CanFan(s, Fan.SendRefusal) && JustifiedAt(s, e) && EntryAt(s, e) && BackAt(s, s.phase.work.undecided[0].id)
    ensures JustifiedAt(RefusalSent(s), e)
  {
  }

  lemma FanJustified(s: State, f: Fan, e: ExternalId)
    requires Sound(s) && CanFan(s, f) && JustifiedAt(s, e) && EntryAt(s, e)
    ensures JustifiedAt(Fanned(s, f), e)
  {
    hide Sound, JustifiedAt, EntryAt, BackAt;
    match f
    case SendDelta => SoundBackAt(s, s.phase.work.output[0].id); DeltaJustified(s, e);
    case SendFinished => SoundBackAt(s, s.phase.work.finished[0].id); FinishedJustified(s, e);
    case SendVerdict => SoundBackAt(s, s.phase.work.decided[0].id); VerdictJustified(s, e);
    case SendRefusal => SoundBackAt(s, s.phase.work.undecided[0].id); RefusalJustified(s, e);
  }

  lemma PurgeJustified(s: State, p: Purge, e: ExternalId)
    requires CanPurge(s, p) && JustifiedAt(s, e) && EntryAt(s, e) && BackAt(s, p.k)
    ensures JustifiedAt(Purged(s, p), e)
  {
    match p
    case CancelOne(k) =>
    case NotifyOne(k) =>
    case FailOne(k) =>
    case StopOne(k) =>
  }

  lemma HangAt(w: Wires, x: ExternalId, e: ExternalId)
    ensures Gone(Hang(w, x), e) <==> Gone(w, e) || (x == e && (e in w.channels || e in w.slots))
    ensures Lossy(Hang(w, x), e) <==> Lossy(w, e)
  {
  }

  /** A client that leaves closes its own receiver, whatever it queues. */
  lemma LeaveJustified(s: State, x: ExternalId, queue: seq<Command>, clients: map<ExternalId, Client>, e: ExternalId)
    requires JustifiedAt(s, e) && (e == x ==> e in s.wires.channels || e in s.wires.slots)
    requires queue == s.queue || queue == s.queue + [Cancel(x)]
    ensures JustifiedAt(s.(wires := Hang(s.wires, x), queue := queue, clients := clients), e)
  {
    hide Gone, Lossy, Hang;
    HangAt(s.wires, x, e);
  }

  lemma ReceiveJustified(s: State, o: Outside, e: ExternalId)
    requires CanAct(s, o) && (o.Receive? || o.ReceiveOutcome?) && JustifiedAt(s, e)
    ensures JustifiedAt(Acted(s, o), e)
  {
  }

  lemma SubmitJustified(s: State, kind: Kind, e: ExternalId)
    requires JustifiedAt(s, e) && e != s.book.next
    ensures JustifiedAt(Submitted(s, kind), e)
  {
  }

  lemma OutsideJustified(s: State, o: Outside, e: ExternalId)
    requires CanAct(s, o) && JustifiedAt(s, e)
    requires o.NewChat? || o.NewDecision? ==> e != s.book.next
    requires e in s.clients ==> (e in s.wires.channels || e in s.wires.slots)
    ensures JustifiedAt(Acted(s, o), e)
  {
    hide Hang, Gone, Lossy, WiresNew, BookNew;
    match o
    case NewChat => hide JustifiedAt; SubmitJustified(s, Chat, e);
    case NewDecision => hide JustifiedAt; SubmitJustified(s, Decision, e);
    case Begin(_) =>
    case GiveUpEarly(x) => hide JustifiedAt; LeaveJustified(s, x, s.queue, Acted(s, o).clients, e);
    case Receive(_) => hide JustifiedAt; ReceiveJustified(s, o, e);
    case ReceiveOutcome(_) => hide JustifiedAt; ReceiveJustified(s, o, e);
    case Disarm(x) => hide JustifiedAt; LeaveJustified(s, x, s.queue, Acted(s, o).clients, e);
    case DropGuard(x) => hide JustifiedAt; LeaveJustified(s, x, Acted(s, o).queue, Acted(s, o).clients, e);
    case AskShutdown =>
    case CloseCommands =>
  }

  lemma CommandJustified(s: State, admission: Admission, e: ExternalId)
    requires CanHandle(s, admission) && JustifiedAt(s, e) && EntryAt(s, e)
    requires s.queue[0].Cancel? && s.queue[0].id in s.core.byExternal ==> BackAt(s, s.core.byExternal[s.queue[0].id])
    requires s.queue[0].Cancel? && s.queue[0].id in s.core.byExternal ==> EntryAt(s, s.queue[0].id)
    requires s.queue[0].Submit? || s.queue[0].SubmitDecision? ==>
               s.queue[0].id in s.book.fates && s.book.fates[s.queue[0].id].Waiting?
    ensures JustifiedAt(Handled(s, admission), e)
  {
    match s.queue[0]
    case Submit(x) =>
    case SubmitDecision(x) =>
    case Cancel(x) =>
    case Shutdown =>
  }

  lemma SubmissionsWait(s: State)
    requires Sound(s) && s.queue != []
    ensures s.queue[0].Submit? || s.queue[0].SubmitDecision? ==>
              s.queue[0].id in s.book.fates && s.book.fates[s.queue[0].id].Waiting?
  {
    hide Registered, Wired, PhaseOk, Core.Agree, Core.Conserved;
    assert Fits(s.queue[0], s.book);
  }

  lemma ClientIsWired(s: State, e: ExternalId)
    requires Sound(s) && e in s.clients
    ensures e in s.wires.channels || e in s.wires.slots
  {
    hide QueueOk, Registered, PhaseOk, Core.Agree, Core.Conserved;
    assert e in s.book.kinds.Keys;
  }

  // ---------------------------------------------------------------- every step

  lemma JustifiedStep(s: State, a: Action, e: ExternalId)
    requires Sound(s) && Enabled(s, a) && JustifiedAt(s, e) && e in s.book.fates
    ensures JustifiedAt(Apply(s, a), e)
  {
    SoundEntryAt(s, e);
    hide Sound, JustifiedAt, EntryAt, BackAt, CanControl, CanFan, CanPurge, Controlled, Fanned, Purged, Handled, Acted;
    match a
    case ByControl(c) =>
      if c.FailedAll? { FailedAllLeavesNone(s); }
      ControlJustified(s, c, e);
    case ByCommand(admission) =>
      SubmissionsWait(s);
      if s.queue[0].Cancel? && s.queue[0].id in s.core.byExternal {
        SoundBackAt(s, s.core.byExternal[s.queue[0].id]);
        SoundEntryAt(s, s.queue[0].id);
      }
      CommandJustified(s, admission, e);
    case ByFan(f) => FanJustified(s, f, e);
    case ByPurge(p) => SoundBackAt(s, p.k); PurgeJustified(s, p, e);
    case ByOutside(o) =>
      NextIsNew(s);
      if e in s.clients { ClientIsWired(s, e); }
      OutsideJustified(s, o, e);
  }

  /** A submission that was just made waits, and no command but its own is about it. */
  lemma NewJustified(s: State, a: Action, e: ExternalId)
    requires Sound(s) && Enabled(s, a) && e in Apply(s, a).book.kinds && e !in s.book.kinds
    ensures JustifiedAt(Apply(s, a), e)
  {
    hide Sound, JustifiedAt, CanControl, CanFan, CanPurge, CanHandle, CanAct, Controlled, Fanned, Purged, Handled,
      Acted;
    if a.ByOutside? {
      KindNotQueued(s, e);
      SubmittedJustified(s, a.outside, e);
    } else {
      KindsStay(s, a);
    }
  }

  lemma KindsStay(s: State, a: Action)
    requires Enabled(s, a) && !a.ByOutside?
    ensures Apply(s, a).book.kinds == s.book.kinds
  {
    hide EngineEmits, TrySend, Resolve, Core.Cancelled, Core.FailedOne, Core.DropChat, Core.DropDecision, Core.Bump,
      Core.AddChat, Core.AddDecision;
    match a
    case ByControl(c) =>
    case ByCommand(admission) =>
    case ByFan(f) =>
    case ByPurge(p) =>
  }

  lemma SubmittedJustified(s: State, o: Outside, e: ExternalId)
    requires CanAct(s, o) && e in Acted(s, o).book.kinds && e !in s.book.kinds
    requires Cancel(e) !in s.queue && e !in s.core.byExternal
    ensures JustifiedAt(Acted(s, o), e)
  {
    assert o.NewChat? || o.NewDecision?;
    assert e == s.book.next;
  }

  lemma KindNotQueued(s: State, e: ExternalId)
    requires Sound(s) && e !in s.book.kinds
    ensures Cancel(e) !in s.queue && e !in s.core.byExternal
  {
    hide Wired, PhaseOk, Core.Agree, Core.Conserved, QueueOk;
    assert e !in s.book.fates.Keys;
    NotQueuedYet(s, e);
  }

  lemma KindHasFate(s: State, e: ExternalId)
    requires Sound(s)
    ensures e in s.book.kinds <==> e in s.book.fates
  {
    hide Wired, PhaseOk, Core.Agree, Core.Conserved, QueueOk;
    assert e in s.book.kinds.Keys <==> e in s.book.fates.Keys;
  }

  lemma NotQueuedYet(s: State, e: ExternalId)
    requires Sound(s) && e !in s.book.fates
    ensures Cancel(e) !in s.queue
  {
    hide Registered, Wired, PhaseOk, Core.Agree, Core.Conserved;
    forall i | 0 <= i < |s.queue| ensures s.queue[i] != Cancel(e) { assert Fits(s.queue[i], s.book); }
  }

  lemma {:induction false} EveryJustified(states: seq<State>, actions: seq<Action>, i: nat, e: ExternalId)
    requires IsRun(states, actions) && i < |states| && e in states[i].book.kinds
    ensures JustifiedAt(states[i], e)
  {
    hide Sound, JustifiedAt, Enabled, Apply, IsRun, Init;
    InRun(states, actions, i);
    if i == 0 {
      InitHasNone(states[0].capacity, e);
    } else {
      EveryStateSound(states, actions, i - 1);
      KindHasFate(states[i - 1], e);
      if e in states[i - 1].book.kinds {
        EveryJustified(states, actions, i - 1, e);
        JustifiedStep(states[i - 1], actions[i - 1], e);
      } else {
        NewJustified(states[i - 1], actions[i - 1], e);
      }
    }
  }

  lemma InitHasNone(capacity: nat, e: ExternalId)
    ensures e !in Init(capacity).book.kinds
  {
  }

  /** No request is withdrawn without a reason, in any run: its receiver was closed, one of its sends was refused, or
      the thread is on its way out. */
  lemma WithdrawnForAReason(states: seq<State>, actions: seq<Action>, i: nat, e: ExternalId)
    requires IsRun(states, actions) && i < |states| && e in states[i].book.fates && states[i].book.fates[e].Withdrawn?
    ensures
      var s := states[i];
      || (e in s.wires.channels && (!s.wires.channels[e].open || s.wires.channels[e].lost))
      || (e in s.wires.slots && !s.wires.slots[e].open)
      || s.phase.Stopping? || s.phase.Stopped?
  {
    hide IsRun, Sound;
    EveryStateSound(states, actions, i);
    KindHasFate(states[i], e);
    EveryJustified(states, actions, i, e);
  }

  // ---------------------------------------------------------------- what a tick leaves alone

  predicate Finishes(work: Work, k: EngineId) { exists f :: f in work.finished && f.id == k }

  predicate Settles(work: Work, k: EngineId) {
    (exists v :: v in work.decided && v.id == k) || (exists r :: r in work.undecided && r.id == k)
  }

  /** No send to the request was refused, and a decision's handler still waits. */
  predicate Spared(w: Wires, e: ExternalId) {
    && (e in w.channels || e in w.slots)
    && (e in w.channels ==> !w.channels[e].lost) && (e in w.slots ==> w.slots[e].open)
  }

  predicate InTables(c: Core, e: ExternalId, k: EngineId) {
    && e in c.byExternal && c.byExternal[e] == k
    && ((k in c.active && c.active[k] == e) || (k in c.decisions && c.decisions[k] == e))
  }

  /** The request has its entry, and nothing the tick still has to do is about it. */
  predicate Stays(s: State, e: ExternalId, k: EngineId) {
    && InTables(s.core, e, k)
    && match s.phase
       case Tick(work, disconnected) =>
         && k !in disconnected
         && (k in s.core.active ==> !Finishes(work, k)) && (k in s.core.decisions ==> !Settles(work, k))
       case Cancelling(left) => k !in left
       case _ => s.phase.Top?
  }

  /** The steps of fanning out a tick, and whatever clients do meanwhile. */
  predicate InTick(a: Action) {
    match a
    case ByFan(_) => true
    case ByPurge(p) => p.CancelOne?
    case ByControl(c) => c.Sweep? || c.EndTick?
    case ByOutside(_) => true
    case ByCommand(_) => false
  }

  lemma DeltaStays(s: State, e: ExternalId, k: EngineId)
    requires CanFan(s, SendDelta) && Stays(s, e, k) && EntryAt(s, e) && BackAt(s, s.phase.work.output[0].id)
    requires Spared(DeltaSent(s).wires, e)
    ensures Stays(DeltaSent(s), e, k)
  {
    hide Finishes, Settles;
    var work := s.phase.work;
    SameWork(work, work.(output := work.output[1..]), k);
  }

  lemma SameWork(work: Work, rest: Work, k: EngineId)
    requires rest.finished == work.finished && rest.decided == work.decided && rest.undecided == work.undecided
    ensures Finishes(rest, k) <==> Finishes(work, k)
    ensures Settles(rest, k) <==> Settles(work, k)
  {
  }

  lemma FinishedStays(s: State, e: ExternalId, k: EngineId)
    requires CanFan(s, SendFinished) && Stays(s, e, k) && EntryAt(s, e) && BackAt(s, s.phase.work.finished[0].id)
    ensures Stays(FinishedSent(s), e, k)
  {
    assert s.phase.work.finished[0] in s.phase.work.finished;
  }

  lemma VerdictStays(s: State, e: ExternalId, k: EngineId)
    requires CanFan(s, Fan.SendVerdict) && Stays(s, e, k) && EntryAt(s, e) && BackAt(s, s.phase.work.decided[0].id)
    ensures Stays(VerdictSent(s), e, k)
  {
    assert s.phase.work.decided[0] in s.phase.work.decided;
  }

  lemma RefusalStays(s: State, e: ExternalId, k: EngineId)
    requires CanFan(s, Fan.SendRefusal) && Stays(s, e, k) && EntryAt(s, e) && BackAt(s, s.phase.work.undecided[0].id)
    ensures Stays(RefusalSent(s), e, k)
  {
    assert s.phase.work.undecided[0] in s.phase.work.undecided;
  }

  lemma FanStays(s: State, f: Fan, e: ExternalId, k: EngineId)
    requires Sound(s) && CanFan(s, f) && Stays(s, e, k) && EntryAt(s, e) && Spared(Fanned(s, f).wires, e)
    ensures Stays(Fanned(s, f), e, k)
  {
    hide Sound, Stays, EntryAt, BackAt, Spared;
    match f
    case SendDelta => SoundBackAt(s, s.phase.work.output[0].id); DeltaStays(s, e, k);
    case SendFinished => SoundBackAt(s, s.phase.work.finished[0].id); FinishedStays(s, e, k);
    case SendVerdict => SoundBackAt(s, s.phase.work.decided[0].id); VerdictStays(s, e, k);
    case SendRefusal => SoundBackAt(s, s.phase.work.undecided[0].id); RefusalStays(s, e, k);
  }

  lemma PurgeStays(s: State, j: EngineId, e: ExternalId, k: EngineId)
    requires CanPurge(s, CancelOne(j)) && Stays(s, e, k) && EntryAt(s, e) && BackAt(s, j)
    ensures Stays(Purged(s, CancelOne(j)), e, k)
  {
  }

  /** The sweep for decisions nobody waits for passes over those whose handler waits. */
  lemma ControlStays(s: State, c: Control, e: ExternalId, k: EngineId)
    requires CanControl(s, c) && (c.Sweep? || c.EndTick?) && Stays(s, e, k) && EntryAt(s, e) && Spared(s.wires, e)
    ensures Stays(Controlled(s, c), e, k)
  {
  }

  lemma OutsideStays(s: State, o: Outside, e: ExternalId, k: EngineId)
    requires CanAct(s, o) && Stays(s, e, k)
    ensures Stays(Acted(s, o), e, k)
  {
  }

  lemma StaysStep(s: State, a: Action, e: ExternalId, k: EngineId)
    requires Sound(s) && Enabled(s, a) && InTick(a) && Stays(s, e, k) && Spared(Apply(s, a).wires, e)
    ensures Stays(Apply(s, a), e, k)
  {
    SoundEntryAt(s, e);
    hide Sound, Stays, EntryAt, BackAt, Spared, CanFan, CanPurge, CanControl, Fanned, Purged, Acted;
    match a
    case ByFan(f) => FanStays(s, f, e, k);
    case ByPurge(p) => SoundBackAt(s, p.k); PurgeStays(s, p.k, e, k);
    case ByControl(c) => ControlStays(s, c, e, k);
    case ByOutside(o) => OutsideStays(s, o, e, k);
    case ByCommand(_) =>
  }

  lemma FanSpares(s: State, f: Fan, e: ExternalId)
    requires CanFan(s, f) && Spared(Fanned(s, f).wires, e)
    ensures Spared(s.wires, e)
  {
    match f
    case SendDelta =>
    case SendFinished =>
    case SendVerdict =>
    case SendRefusal =>
  }

  lemma OutsideSpares(s: State, o: Outside, e: ExternalId)
    requires CanAct(s, o) && Spared(Acted(s, o).wires, e) && e != s.book.next
    ensures Spared(s.wires, e)
  {
    hide Spared, BookNew;
    match o
    case NewChat => NewSpares(s.wires, s.book.next, Chat, e);
    case NewDecision => NewSpares(s.wires, s.book.next, Decision, e);
    case Begin(_) =>
    case GiveUpEarly(x) => HangSpares(s.wires, x, e);
    case Receive(x) => ReceiveSpares(s, o, e);
    case ReceiveOutcome(_) => ReceiveSpares(s, o, e);
    case Disarm(x) => HangSpares(s.wires, x, e);
    case DropGuard(x) => HangSpares(s.wires, x, e);
    case AskShutdown =>
    case CloseCommands =>
  }

  lemma NewSpares(w: Wires, n: ExternalId, kind: Kind, e: ExternalId)
    requires e != n && Spared(WiresNew(w, n, kind), e)
    ensures Spared(w, e)
  {
  }

  lemma HangSpares(w: Wires, x: ExternalId, e: ExternalId)
    requires Spared(Hang(w, x), e)
    ensures Spared(w, e)
  {
  }

  lemma ReceiveSpares(s: State, o: Outside, e: ExternalId)
    requires CanAct(s, o) && (o.Receive? || o.ReceiveOutcome?) && Spared(Acted(s, o).wires, e)
    ensures Spared(s.wires, e)
  {
  }

  /** A refused send is never forgotten, and a closed receiver never opens again. */
  lemma SparedBefore(s: State, a: Action, e: ExternalId)
    requires Enabled(s, a) && InTick(a) && Spared(Apply(s, a).wires, e) && (a.ByOutside? ==> e != s.book.next)
    ensures Spared(s.wires, e)
  {
    hide Spared, Fanned, Acted, CanAct, CanFan;
    match a
    case ByFan(f) => FanSpares(s, f, e);
    case ByPurge(p) =>
    case ByControl(c) =>
    case ByOutside(o) => OutsideSpares(s, o, e);
    case ByCommand(_) =>
  }

  lemma InTablesIsKnown(s: State, e: ExternalId, k: EngineId)
    requires Sound(s) && Stays(s, e, k)
    ensures e in s.book.kinds && e != s.book.next
  {
    hide QueueOk, Wired, PhaseOk, Core.Agree, Core.Conserved;
    assert e in s.book.fates.Keys;
  }

  /** While the thread is inside a tick every step is one of the tick's. */
  lemma TickSteps(s: State, a: Action)
    requires Enabled(s, a) && (s.phase.Tick? || s.phase.Cancelling?)
    ensures InTick(a)
  {
  }

  lemma KnownStep(s: State, a: Action, e: ExternalId)
    requires Sound(s) && Enabled(s, a) && e in s.book.kinds
    ensures e in Apply(s, a).book.kinds && e != s.book.next
  {
    hide CanControl, CanFan, CanPurge, CanHandle, Controlled, Fanned, Purged, Handled, QueueOk, Wired, PhaseOk,
      Core.Agree, Core.Conserved;
    if !a.ByOutside? { KindsStay(s, a); }
  }

  lemma {:induction false} KnownStays(states: seq<State>, actions: seq<Action>, i: nat, j: nat, e: ExternalId)
    requires IsRun(states, actions) && i <= j < |states| && e in states[i].book.kinds
    ensures e in states[j].book.kinds && e != states[j].book.next
    decreases j
  {
    hide Sound, Enabled, Apply, IsRun;
    EveryStateSound(states, actions, j);
    if i < j {
      InRun(states, actions, j);
      EveryStateSound(states, actions, j - 1);
      KnownStays(states, actions, i, j - 1, e);
      KnownStep(states[j - 1], actions[j - 1], e);
    }
    KnownIsOld(states[j], e);
  }

  lemma KnownIsOld(s: State, e: ExternalId)
    requires Sound(s) && e in s.book.kinds
    ensures e != s.book.next
  {
    hide QueueOk, Wired, PhaseOk, Core.Agree, Core.Conserved;
  }

  /** Over every run: from any point of a tick to any later point of it, a request that the rest of the tick does not
      name keeps its entry, unless a send to it was refused by then or, for a decision, its handler has left. */
  lemma {:induction false} TickKeeps(
      states: seq<State>, actions: seq<Action>, i: nat, j: nat, e: ExternalId, k: EngineId)
    requires IsRun(states, actions) && i <= j < |states| && Stays(states[i], e, k) && Spared(states[j].wires, e)
    requires forall m :: i <= m < j ==> states[m].phase.Tick? || states[m].phase.Cancelling?
    ensures Stays(states[j], e, k)
    decreases j
  {
    hide Sound, Stays, Spared, Enabled, Apply, IsRun, InTick;
    if i < j {
      InRun(states, actions, j);
      EveryStateSound(states, actions, j - 1);
      TickSteps(states[j - 1], actions[j - 1]);
      EveryStateSound(states, actions, i);
      InTablesIsKnown(states[i], e, k);
      KnownStays(states, actions, i, j - 1, e);
      SparedBefore(states[j - 1], actions[j - 1], e);
      TickKeeps(states, actions, i, j - 1, e, k);
      StaysStep(states[j - 1], actions[j - 1], e, k);
    }
  }

  /** So a whole tick, over every interleaving, removes only the requests it finishes, decides or fails, those a send
      was refused for, and decisions whose handler has left. */
  lemma TickLeavesAlone(
      states: seq<State>, actions: seq<Action>, i: nat, j: nat, work: Work, e: ExternalId, k: EngineId)
    requires IsRun(states, actions) && i <= j < |states| && states[i].phase == Tick(work, {}) && states[j].phase.Top?
    requires forall m :: i <= m < j ==> states[m].phase.Tick? || states[m].phase.Cancelling?
    requires InTables(states[i].core, e, k) && Spared(states[j].wires, e)
    requires k in states[i].core.active ==> !Finishes(work, k)
    requires k in states[i].core.decisions ==> !Settles(work, k)
    ensures InTables(states[j].core, e, k)
  {
    hide IsRun, InTables, Spared, Finishes, Settles;
    TickKeeps(states, actions, i, j, e, k);
  }

  // The two ends of a tick, for a chat request and for a decision.

  lemma ChatStarts(s: State, work: Work, k: EngineId)
    requires Sound(s) && s.phase == Tick(work, {}) && k in s.core.active && !Finishes(work, k)
    ensures
      var e := s.core.active[k];
      Stays(s, e, k) && e in s.wires.channels && e !in s.wires.slots
  {
    hide Sound, Finishes, Settles;
    SoundBackAt(s, k);
    SoundEntryAt(s, s.core.active[k]);
  }

  lemma DecisionStarts(s: State, work: Work, k: EngineId)
    requires Sound(s) && s.phase == Tick(work, {}) && k in s.core.decisions && !Settles(work, k)
    ensures
      var e := s.core.decisions[k];
      Stays(s, e, k) && e in s.wires.slots && e !in s.wires.channels
  {
    hide Sound, Finishes, Settles;
    SoundBackAt(s, k);
    SoundEntryAt(s, s.core.decisions[k]);
  }

  lemma StaysEnds(t: State, e: ExternalId, k: EngineId)
    requires Sound(t) && Stays(t, e, k)
    ensures e in t.wires.channels ==> k in t.core.active && t.core.active[k] == e
    ensures e in t.wires.slots ==> k in t.core.decisions && t.core.decisions[k] == e
  {
    hide Sound, Finishes, Settles;
    SoundEntryAt(t, e);
  }
}
