/** The books balance: every end has its cause in the run, and the counters count the ends there were. */
module ActorReasons {
  import opened Wrappers
  import opened ChatModel
  import opened DecisionModel
  import opened Actor
  import opened ActorTables
  import opened ActorPromises
  import ActorTicks

  // ---------------------------------------------------------------- where an end comes from

  /** Everything that happens to a submission except being withdrawn is reported to it. */
  predicate Reported(fate: Fate) { fate.Ended? || fate.Answered? || fate.Broken? || fate.Refused? }

  /** A step that calls for this end: a tick of the engine that says so about the request's own engine id, a tick that
      failed while the request was in the tables, or the engine's refusal of the very submission. */
  predicate Causes(s: State, a: Action, e: ExternalId, fate: Fate) {
    if a.ByControl? && e in s.core.byExternal then
      var k := s.core.byExternal[e];
      match (a.control, fate)
      case (TickDone(work), Ended(reason, usage)) => Ending(k, reason, usage) in work.finished
      case (TickDone(work), Answered(completion)) => Verdict(k, completion) in work.decided
      case (TickDone(work), Broken(message)) => Refusal(k, message) in work.undecided
      case (TickFailed(said), Broken(message)) => message == said
      case _ => false
    else
      && a.ByCommand? && a.admission.Rejected? && s.queue != [] && Submits(s.queue[0], e)
      && fate == Refused(a.admission.message)
  }

  /** The same, read off the phase the thread is in. */
  predicate CallsFor(phase: Phase, k: EngineId, fate: Fate) {
    match (phase, fate)
    case (Tick(work, _), Ended(reason, usage)) => Ending(k, reason, usage) in work.finished
    case (Tick(work, _), Answered(completion)) => Verdict(k, completion) in work.decided
    case (Tick(work, _), Broken(message)) => Refusal(k, message) in work.undecided
    case (Failing(_, said), Broken(message)) => message == said
    case _ => false
  }

  predicate Changes(b: Book, b': Book, e: ExternalId) {
    e in b'.fates && (e in b.fates ==> b'.fates[e] != b.fates[e])
  }

  predicate FanReported(s: State, f: Fan, e: ExternalId)
    requires CanFan(s, f)
  {
    Changes(s.book, Fanned(s, f).book, e) ==>
      e in s.core.byExternal && CallsFor(s.phase, s.core.byExternal[e], Fanned(s, f).book.fates[e])
  }

  lemma FinishedReports(s: State, e: ExternalId)
    requires CanFan(s, SendFinished) && ActorTicks.BackAt(s, s.phase.work.finished[0].id)
    ensures FanReported(s, SendFinished, e)
  {
    hide TrySend, Core.DropChat, Core.Bump;
  }

  lemma VerdictReports(s: State, e: ExternalId)
    requires CanFan(s, SendVerdict) && ActorTicks.BackAt(s, s.phase.work.decided[0].id)
    ensures FanReported(s, SendVerdict, e)
  {
    hide Resolve, Core.DropDecision, Core.Bump;
  }

  lemma RefusalReports(s: State, e: ExternalId)
    requires CanFan(s, SendRefusal) && ActorTicks.BackAt(s, s.phase.work.undecided[0].id)
    ensures FanReported(s, SendRefusal, e)
  {
    hide Resolve, Core.DropDecision, Core.Bump;
  }

  lemma DeltaReports(s: State, e: ExternalId)
    requires CanFan(s, SendDelta)
    ensures FanReported(s, SendDelta, e)
  {
    hide TrySend;
  }

  lemma FanReports(s: State, f: Fan, e: ExternalId)
    requires Sound(s) && CanFan(s, f) && Changes(s.book, Fanned(s, f).book, e)
    ensures e in s.core.byExternal && CallsFor(s.phase, s.core.byExternal[e], Fanned(s, f).book.fates[e])
  {
    assert FanReported(s, f, e) by {
      hide Sound, FanReported, Changes, ActorTicks.BackAt;
      match f
      case SendDelta => DeltaReports(s, e);
      case SendFinished => ActorTicks.SoundBackAt(s, s.phase.work.finished[0].id); FinishedReports(s, e);
      case SendVerdict => ActorTicks.SoundBackAt(s, s.phase.work.decided[0].id); VerdictReports(s, e);
      case SendRefusal => ActorTicks.SoundBackAt(s, s.phase.work.undecided[0].id); RefusalReports(s, e);
    }
    hide Sound, CallsFor, Changes, Fanned;
  }

  lemma RemovalReports(s: State, k: EngineId, fate: Fate, e: ExternalId)
    requires ActorTicks.BackAt(s, k) && Changes(s.book, FateAfter(s.book, s.core, k, fate), e)
    ensures FateAfter(s.book, s.core, k, fate).fates[e] == fate
    ensures e in s.core.byExternal && s.core.byExternal[e] == k
  {
  }

  lemma PurgeReports(s: State, p: Purge, e: ExternalId)
    requires CanPurge(s, p) && ActorTicks.BackAt(s, p.k) && Changes(s.book, Purged(s, p).book, e)
    requires Reported(Purged(s, p).book.fates[e])
    ensures e in s.core.byExternal && CallsFor(s.phase, s.core.byExternal[e], Purged(s, p).book.fates[e])
  {
    assert !p.NotifyOne?;
    hide TrySend, Resolve, Core.Cancelled, Core.FailedOne, FateAfter, Changes, ActorTicks.BackAt;
    RemovalReports(s, p.k, if p.FailOne? then Broken(s.phase.message) else Withdrawn, e);
  }

  lemma SubmitReports(s: State, x: ExternalId, admission: Admission, b: Book, e: ExternalId)
    requires (x in s.wires.channels && b == HandleSubmit(s, x, admission).book)
          || (x in s.wires.slots && b == HandleSubmitDecision(s, x, admission).book)
    requires Changes(s.book, b, e) && Reported(b.fates[e])
    ensures admission.Rejected? && e == x && b.fates[e] == Refused(admission.message)
  {
    hide TrySend, Resolve, Core.AddChat, Core.AddDecision;
  }

  lemma CommandReports(s: State, admission: Admission, e: ExternalId)
    requires CanHandle(s, admission) && Changes(s.book, Handled(s, admission).book, e)
    requires s.queue[0].Cancel? && s.queue[0].id in s.core.byExternal ==>
               ActorTicks.BackAt(s, s.core.byExternal[s.queue[0].id])
    requires Reported(Handled(s, admission).book.fates[e])
    ensures admission.Rejected? && Submits(s.queue[0], e)
    ensures Handled(s, admission).book.fates[e] == Refused(admission.message)
  {
    hide HandleSubmit, HandleSubmitDecision, Changes, FateAfter, Core.Cancelled;
    var t := s.(queue := s.queue[1..], phase := Drain);
    match s.queue[0]
    case Submit(x) => SubmitReports(t, x, admission, HandleSubmit(t, x, admission).book, e);
    case SubmitDecision(x) => SubmitReports(t, x, admission, HandleSubmitDecision(t, x, admission).book, e);
    case Cancel(x) =>
      if x in s.core.byExternal { RemovalReports(t, s.core.byExternal[x], Withdrawn, e); } else {
        Unchanged(s.book, e);
      }
    case Shutdown => Unchanged(s.book, e);
  }

  lemma Unchanged(b: Book, e: ExternalId)
    ensures !Changes(b, b, e)
  {
  }

  lemma OutsideReports(s: State, o: Outside, e: ExternalId)
    requires CanAct(s, o) && Changes(s.book, Acted(s, o).book, e)
    ensures Acted(s, o).book.fates[e].Waiting?
  {
  }

  /** The rest of a tick is the end of what the engine reported. */
  predicate EndOf<T(==)>(rest: seq<T>, all: seq<T>) { |rest| <= |all| && rest == all[|all| - |rest|..] }

  /** A step that brought the thread where it is: the tick being fanned out, or the failed tick being reported. */
  predicate Opens(a: Action, phase: Phase) {
    && a.ByControl?
    && match (a.control, phase)
       case (TickDone(work), Tick(rest, _)) =>
         && EndOf(rest.finished, work.finished) && EndOf(rest.decided, work.decided)
         && EndOf(rest.undecided, work.undecided)
       case (TickFailed(said), Notifying(_, message)) => message == said
       case (TickFailed(said), Failing(_, message)) => message == said
       case _ => false
  }

  predicate Fanning(phase: Phase) { phase.Tick? || phase.Notifying? || phase.Failing? }

  /** Requests in the tables now were there before, under the same engine id. */
  predicate StillIn(core: Core, core': Core, e: ExternalId) {
    e in core'.byExternal ==> e in core.byExternal && core.byExternal[e] == core'.byExternal[e]
  }

  /** A step inside a tick keeps to what opened it; the step that opens one changes no table. */
  lemma FanKeepsOpening(s: State, f: Fan, opening: Action, e: ExternalId)
    requires CanFan(s, f) && Opens(opening, s.phase)
    ensures Opens(opening, Fanned(s, f).phase) && StillIn(s.core, Fanned(s, f).core, e)
  {
    match f
    case SendDelta =>
    case SendFinished =>
    case SendVerdict =>
    case SendRefusal =>
  }

  lemma PurgeKeepsOpening(s: State, p: Purge, opening: Action, e: ExternalId)
    requires CanPurge(s, p) && Fanning(s.phase) && Opens(opening, s.phase)
    ensures Opens(opening, Purged(s, p).phase) && StillIn(s.core, Purged(s, p).core, e)
  {
    match p
    case CancelOne(k) =>
    case NotifyOne(k) =>
    case FailOne(k) =>
    case StopOne(k) =>
  }

  lemma ControlOpens(s: State, c: Control, opening: Action)
    requires CanControl(s, c) && Fanning(Controlled(s, c).phase)
    requires Fanning(s.phase) ==> Opens(opening, s.phase)
    ensures Controlled(s, c).core == s.core
    ensures Opens(if Fanning(s.phase) then opening else ByControl(c), Controlled(s, c).phase)
  {
  }

  lemma OutsideKeepsOpening(s: State, o: Outside)
    requires CanAct(s, o)
    ensures Acted(s, o).phase == s.phase && Acted(s, o).core == s.core
  {
  }

  lemma CommandOpensNothing(s: State, admission: Admission)
    requires CanHandle(s, admission)
    ensures !Fanning(Handled(s, admission).phase)
  {
  }

  lemma OpeningKept(s: State, a: Action, opening: Action, e: ExternalId)
    requires Enabled(s, a) && Fanning(Apply(s, a).phase) && (Fanning(s.phase) ==> Opens(opening, s.phase))
    ensures Opens(if Fanning(s.phase) then opening else a, Apply(s, a).phase)
    ensures StillIn(s.core, Apply(s, a).core, e)
  {
    hide CanFan, CanPurge, CanControl, CanHandle, CanAct, Fanned, Purged, Controlled, Handled, Acted, Opens;
    match a
    case ByControl(c) => ControlOpens(s, c, opening);
    case ByCommand(admission) => CommandOpensNothing(s, admission);
    case ByFan(f) => FanInTick(s, f); FanKeepsOpening(s, f, opening, e);
    case ByPurge(p) => PurgeInside(s, p); PurgeKeepsOpening(s, p, opening, e);
    case ByOutside(o) => OutsideKeepsOpening(s, o);
  }

  lemma FanInTick(s: State, f: Fan)
    requires CanFan(s, f)
    ensures s.phase.Tick?
  {
  }

  lemma PurgeInside(s: State, p: Purge)
    requires CanPurge(s, p) && Fanning(Purged(s, p).phase)
    ensures Fanning(s.phase)
  {
  }

  /** Every state inside a tick follows the step that opened the tick, with no request added in between. */
  lemma {:induction false} OpenedBy(states: seq<State>, actions: seq<Action>, i: nat, e: ExternalId) returns (j: nat)
    requires IsRun(states, actions) && i < |states| && Fanning(states[i].phase)
    ensures j < i && Opens(actions[j], states[i].phase) && StillIn(states[j].core, states[i].core, e)
  {
    hide IsRun, Enabled, Apply, Opens, Init;
    InRun(states, actions, i);
    if i == 0 {
      InitNotFanning(states[0].capacity);
    } else {
      var s, a := states[i - 1], actions[i - 1];
      if Fanning(s.phase) {
        j := OpenedBy(states, actions, i - 1, e);
        OpeningKept(s, a, actions[j], e);
      } else {
        j := i - 1;
        OpeningKept(s, a, a, e);
      }
    }
  }

  lemma InitNotFanning(capacity: nat)
    ensures !Fanning(Init(capacity).phase)
  {
  }

  /** What the phase calls for, the step that opened the tick called for. */
  lemma OpeningCauses(s: State, t: State, a: Action, e: ExternalId, fate: Fate)
    requires Opens(a, t.phase) && StillIn(s.core, t.core, e) && e in t.core.byExternal
    requires CallsFor(t.phase, t.core.byExternal[e], fate)
    ensures Causes(s, a, e, fate)
  {
  }

  predicate ReportedNow(s: State, a: Action, e: ExternalId, fate: Fate) {
    || Causes(s, a, e, fate)
    || (Fanning(s.phase) && e in s.core.byExternal && CallsFor(s.phase, s.core.byExternal[e], fate))
  }

  lemma StepReports(s: State, a: Action, e: ExternalId)
    requires Sound(s) && Enabled(s, a) && Changes(s.book, Apply(s, a).book, e) && Reported(Apply(s, a).book.fates[e])
    ensures ReportedNow(s, a, e, Apply(s, a).book.fates[e])
  {
    hide Sound, ActorTicks.BackAt, CanFan, CanPurge, CanControl, CanAct, Fanned, Purged, Controlled, Handled, Acted,
      CallsFor;
    match a
    case ByControl(c) => ControlFate(s, c);
    case ByCommand(admission) =>
      if s.queue[0].Cancel? && s.queue[0].id in s.core.byExternal {
        ActorTicks.SoundBackAt(s, s.core.byExternal[s.queue[0].id]);
      }
      CommandReports(s, admission, e);
    case ByFan(f) => FanInTick(s, f); FanReports(s, f, e);
    case ByPurge(p) =>
      ActorTicks.SoundBackAt(s, p.k);
      PurgeReports(s, p, e);
      CalledWhileFanning(s.phase, s.core.byExternal[e], Purged(s, p).book.fates[e]);
    case ByOutside(o) => OutsideReports(s, o, e);
  }

  lemma CalledWhileFanning(phase: Phase, k: EngineId, fate: Fate)
    requires CallsFor(phase, k, fate)
    ensures Fanning(phase)
  {
  }

  /** Nothing is reported that did not happen: behind every end in every run there is a step that called for it, with
      the reason, completion or message that was reported. */
  lemma {:induction false} EveryEndHasACause(states: seq<State>, actions: seq<Action>, i: nat, e: ExternalId)
    returns (j: nat)
    requires IsRun(states, actions) && i < |states|
    requires e in states[i].book.fates && Reported(states[i].book.fates[e])
    ensures j < i && Causes(states[j], actions[j], e, states[i].book.fates[e])
  {
    hide IsRun, Sound, Enabled, Apply, Causes, CallsFor, Init, Opens, Fanning;
    InRun(states, actions, i);
    if i == 0 {
      InitHasNoFates(states[0].capacity);
    } else {
      var s, a, fate := states[i - 1], actions[i - 1], states[i].book.fates[e];
      EveryStateSound(states, actions, i - 1);
      if Changes(s.book, states[i].book, e) {
        StepReports(s, a, e);
        if Causes(s, a, e, fate) {
          j := i - 1;
        } else {
          j := OpenedBy(states, actions, i - 1, e);
          OpeningCauses(states[j], s, actions[j], e, fate);
        }
      } else {
        j := EveryEndHasACause(states, actions, i - 1, e);
      }
    }
  }

  lemma InitHasNoFates(capacity: nat)
    ensures Init(capacity).book.fates == map[]
  {
  }

  // ---------------------------------------------------------------- the counters

  /** The submissions with a fate of the given kind. */
  function Having(b: Book, kind: Fate -> bool): set<ExternalId> {
    set e | e in b.fates && kind(b.fates[e])
  }

  const IS_COMPLETED: Fate -> bool := (f: Fate) => f.Ended? || f.Answered?
  const IS_FAILED: Fate -> bool := (f: Fate) => f.Broken?
  const IS_CANCELLED: Fate -> bool := (f: Fate) => f.Withdrawn?

  /** Each counter is the number of submissions that met its end. */
  ghost predicate Counted(t: Tally, b: Book) {
    && t.completed == |Having(b, IS_COMPLETED)|
    && t.failed == |Having(b, IS_FAILED)|
    && t.cancelled == |Having(b, IS_CANCELLED)|
  }

  function OneIf(c: bool): nat { if c then 1 else 0 }

  lemma HavingSettled(b: Book, e: ExternalId, fate: Fate, kind: Fate -> bool)
    requires e in b.fates && !kind(b.fates[e])
    ensures |Having(SetFate(b, e, fate), kind)| == |Having(b, kind)| + OneIf(kind(fate))
  {
    var now := Having(SetFate(b, e, fate), kind);
    if kind(fate) {
      assert now == Having(b, kind) + {e};
    } else {
      assert now == Having(b, kind);
    }
  }

  lemma SettlingCounts(t: Tally, t': Tally, b: Book, e: ExternalId, fate: Fate)
    requires Counted(t, b) && e in b.fates && !Settled(b.fates[e])
    requires t'.completed == t.completed + OneIf(fate.Ended? || fate.Answered?)
    requires t'.failed == t.failed + OneIf(fate.Broken?) && t'.cancelled == t.cancelled + OneIf(fate.Withdrawn?)
    ensures Counted(t', SetFate(b, e, fate))
  {
    hide Having, SetFate;
    HavingSettled(b, e, fate, IS_COMPLETED);
    HavingSettled(b, e, fate, IS_FAILED);
    HavingSettled(b, e, fate, IS_CANCELLED);
  }

  lemma CountedSame(t: Tally, t': Tally, b: Book, b': Book)
    requires Counted(t, b) && b'.fates == b.fates
    requires (t'.completed, t'.failed, t'.cancelled) == (t.completed, t.failed, t.cancelled)
    ensures Counted(t', b')
  {
    assert Having(b', IS_COMPLETED) == Having(b, IS_COMPLETED);
    assert Having(b', IS_FAILED) == Having(b, IS_FAILED);
    assert Having(b', IS_CANCELLED) == Having(b, IS_CANCELLED);
  }

  lemma CancelCounts(s: State, k: EngineId)
    requires s.core.active.Keys !! s.core.decisions.Keys && ActiveAt(s, k) && Counted(s.core.tally, s.book)
    ensures Counted(CancelRequest(s, k).core.tally, CancelRequest(s, k).book)
  {
    hide Counted, SetFate;
    RemovalHitsOnce(s.core, k);
    if k in s.core.active {
      SettlingCounts(s.core.tally, CancelRequest(s, k).core.tally, s.book, s.core.active[k], Withdrawn);
    } else if k in s.core.decisions {
      SettlingCounts(s.core.tally, CancelRequest(s, k).core.tally, s.book, s.core.decisions[k], Withdrawn);
    }
  }

  lemma FailCounts(s: State, k: EngineId, message: string)
    requires s.core.active.Keys !! s.core.decisions.Keys && ActiveAt(s, k) && Counted(s.core.tally, s.book)
    ensures Counted(FailRequest(s, k, message).core.tally, FailRequest(s, k, message).book)
  {
    hide Counted, SetFate, Resolve;
    RemovalHitsOnce(s.core, k);
    if k in s.core.active {
      SettlingCounts(
        s.core.tally, FailRequest(s, k, message).core.tally, s.book, s.core.active[k], Broken(message));
    } else if k in s.core.decisions {
      SettlingCounts(
        s.core.tally, FailRequest(s, k, message).core.tally, s.book, s.core.decisions[k], Broken(message));
    }
  }

  lemma PurgeCounts(s: State, p: Purge)
    requires s.core.active.Keys !! s.core.decisions.Keys && CanPurge(s, p) && ActiveAt(s, p.k)
    requires Counted(s.core.tally, s.book)
    ensures Counted(Purged(s, p).core.tally, Purged(s, p).book)
  {
    hide Counted, ActiveAt, CancelRequest, FailRequest, TrySend;
    match p
    case CancelOne(k) => CancelCounts(s, k);
    case NotifyOne(k) =>
    case FailOne(k) => FailCounts(s, k, s.phase.message);
    case StopOne(k) => CancelCounts(s, k);
  }

  lemma FanCounts(s: State, f: Fan)
    requires CanFan(s, f) && Counted(s.core.tally, s.book)
    requires f.SendFinished? ==> ActiveAt(s, s.phase.work.finished[0].id)
    requires f.SendVerdict? ==> ActiveAt(s, s.phase.work.decided[0].id)
    requires f.SendRefusal? ==> ActiveAt(s, s.phase.work.undecided[0].id)
    ensures Counted(Fanned(s, f).core.tally, Fanned(s, f).book)
  {
    hide Counted, SetFate, TrySend, Resolve;
    var w, t := s.phase.work, Fanned(s, f).core.tally;
    match f
    case SendDelta =>
    case SendFinished =>
      var x := w.finished[0];
      if x.id in s.core.active {
        SettlingCounts(s.core.tally, t, s.book, s.core.active[x.id], Ended(x.reason, x.usage));
      }
    case SendVerdict =>
      var x := w.decided[0];
      if x.id in s.core.decisions {
        SettlingCounts(s.core.tally, t, s.book, s.core.decisions[x.id], Answered(x.completion));
      }
    case SendRefusal =>
      var x := w.undecided[0];
      if x.id in s.core.decisions {
        SettlingCounts(s.core.tally, t, s.book, s.core.decisions[x.id], Broken(x.message));
      }
  }

  lemma SubmitCounts(s: State, e: ExternalId, admission: Admission, t: State)
    requires e in s.book.fates && s.book.fates[e].Waiting? && Counted(s.core.tally, s.book)
    requires (e in s.wires.channels && t == HandleSubmit(s, e, admission))
          || (e in s.wires.slots && t == HandleSubmitDecision(s, e, admission))
    ensures Counted(t.core.tally, t.book)
  {
    hide Counted, SetFate, TrySend, Resolve;
    match admission
    case Admitted(k) =>
      SettlingCounts(s.core.tally, t.core.tally, s.book, e, Active);
      CountedSame(t.core.tally, t.core.tally, SetFate(s.book, e, Active), t.book);
    case Rejected(message) => SettlingCounts(s.core.tally, t.core.tally, s.book, e, Refused(message));
  }

  lemma CommandCounts(s: State, admission: Admission)
    requires CanHandle(s, admission) && Counted(s.core.tally, s.book) && s.core.active.Keys !! s.core.decisions.Keys
    requires s.queue[0].Submit? || s.queue[0].SubmitDecision? ==>
               s.queue[0].id in s.book.fates && s.book.fates[s.queue[0].id].Waiting?
    requires s.queue[0].Cancel? && s.queue[0].id in s.core.byExternal ==>
               ActiveAt(s, s.core.byExternal[s.queue[0].id])
    ensures Counted(Handled(s, admission).core.tally, Handled(s, admission).book)
  {
    hide Counted, HandleSubmit, HandleSubmitDecision, CancelRequest;
    var t := s.(queue := s.queue[1..], phase := Drain);
    match s.queue[0]
    case Submit(e) => SubmitCounts(t, e, admission, HandleSubmit(t, e, admission));
    case SubmitDecision(e) => SubmitCounts(t, e, admission, HandleSubmitDecision(t, e, admission));
    case Cancel(e) => if e in s.core.byExternal { CancelCounts(t, s.core.byExternal[e]); }
    case Shutdown =>
  }

  lemma NewCounts(t: Tally, b: Book, kind: Kind)
    requires Counted(t, b) && b.next !in b.fates
    ensures Counted(t, BookNew(b, kind))
  {
    var b' := BookNew(b, kind);
    assert Having(b', IS_COMPLETED) == Having(b, IS_COMPLETED);
    assert Having(b', IS_FAILED) == Having(b, IS_FAILED);
    assert Having(b', IS_CANCELLED) == Having(b, IS_CANCELLED);
  }

  lemma OutsideCounts(s: State, o: Outside)
    requires CanAct(s, o) && Counted(s.core.tally, s.book) && s.book.next !in s.book.fates
    ensures Counted(Acted(s, o).core.tally, Acted(s, o).book)
  {
    hide Counted, BookNew, WiresNew, Hang, Enqueue;
    NewCounts(s.core.tally, s.book, Chat);
    NewCounts(s.core.tally, s.book, Decision);
  }

  lemma CountedStep(s: State, a: Action)
    requires Sound(s) && Enabled(s, a) && Counted(s.core.tally, s.book)
    ensures Counted(Apply(s, a).core.tally, Apply(s, a).book)
  {
    assert s.core.active.Keys !! s.core.decisions.Keys;
    hide Sound, Counted, ActiveAt, CanControl, CanPurge, CanAct, Controlled, Fanned, Purged, Handled, Acted;
    match a
    case ByControl(c) => ControlFate(s, c); ControlTally(s, c);
    case ByCommand(admission) =>
      ActorTicks.SubmissionsWait(s);
      if s.queue[0].Cancel? && s.queue[0].id in s.core.byExternal {
        SoundActiveAt(s, s.core.byExternal[s.queue[0].id]);
      }
      CommandCounts(s, admission);
    case ByFan(f) =>
      if f.SendFinished? { SoundActiveAt(s, s.phase.work.finished[0].id); }
      if f.SendVerdict? { SoundActiveAt(s, s.phase.work.decided[0].id); }
      if f.SendRefusal? { SoundActiveAt(s, s.phase.work.undecided[0].id); }
      FanCounts(s, f);
    case ByPurge(p) => SoundActiveAt(s, p.k); PurgeCounts(s, p);
    case ByOutside(o) => NextIsNew(s); OutsideCounts(s, o);
  }

  lemma ControlTally(s: State, c: Control)
    requires CanControl(s, c)
    ensures Controlled(s, c).core == s.core && Controlled(s, c).book == s.book
  {
  }

  lemma {:induction false} EveryStateCounted(states: seq<State>, actions: seq<Action>, i: nat)
    requires IsRun(states, actions) && i < |states|
    ensures Counted(states[i].core.tally, states[i].book)
  {
    hide IsRun, Sound, Enabled, Apply, Init, Counted;
    InRun(states, actions, i);
    if i == 0 {
      InitCounted(states[0].capacity);
    } else {
      EveryStateSound(states, actions, i - 1);
      EveryStateCounted(states, actions, i - 1);
      CountedStep(states[i - 1], actions[i - 1]);
    }
  }

  lemma SoundConserves(s: State)
    requires Sound(s)
    ensures s.core.Conserved()
  {
  }

  /** In every state of every run the counters are true: as many completed, failed and cancelled as there are
      submissions with such an end, and the accepted ones are those together with the ones still in the tables. */
  lemma CountersAreTrue(states: seq<State>, actions: seq<Action>, i: nat)
    requires IsRun(states, actions) && i < |states|
    ensures
      var t := states[i].core.tally;
      && Counted(t, states[i].book)
      && t.accepted ==
           t.completed + t.failed + t.cancelled + |states[i].core.active| + |states[i].core.decisions|
  {
    hide IsRun, Sound, Counted;
    EveryStateSound(states, actions, i);
    SoundConserves(states[i]);
    EveryStateCounted(states, actions, i);
  }

  lemma InitCounted(capacity: nat)
    ensures Counted(Init(capacity).core.tally, Init(capacity).book)
  {
    assert Having(Init(capacity).book, IS_COMPLETED) == {};
    assert Having(Init(capacity).book, IS_FAILED) == {};
    assert Having(Init(capacity).book, IS_CANCELLED) == {};
  }
}
