/** The actor thread as it runs: maps updated in place by loops, each loop a path of the machine's steps. */
module ActorThread {
  import opened Wrappers
  import opened ChatModel
  import opened DecisionModel
  import opened Actor
  import opened ActorTables
  import ActorDelivery
  import ActorPromises
  import ActorTicks

  // ---------------------------------------------------------------- paths of the machine

  /** The state a list of steps leads to, if every step is enabled in turn. */
  function RunFrom(s: State, actions: seq<Action>): Option<State> {
    if actions == [] then Some(s)
    else
      var before := RunFrom(s, actions[..|actions| - 1]);
      if before.Some? && Enabled(before.value, actions[|actions| - 1])
      then Some(Apply(before.value, actions[|actions| - 1])) else None
  }

  lemma OneMore(s: State, actions: seq<Action>, t: State, a: Action)
    requires RunFrom(s, actions) == Some(t) && Enabled(t, a)
    ensures RunFrom(s, actions + [a]) == Some(Apply(t, a))
  {
    hide Enabled, Apply;
    assert (actions + [a])[..|actions|] == actions;
  }

  lemma {:induction false} PathsJoin(s: State, first: seq<Action>, t: State, second: seq<Action>)
    requires RunFrom(s, first) == Some(t)
    ensures RunFrom(s, first + second) == RunFrom(t, second)
  {
    hide Enabled, Apply;
    if second == [] {
      assert first + [] == first;
    } else {
      PathsJoin(s, first, t, second[..|second| - 1]);
      assert (first + second)[..|first + second| - 1] == first + second[..|second| - 1];
    }
  }

  /** Every path from a sound state stays sound. */
  lemma {:induction false} PathSound(s: State, actions: seq<Action>)
    requires Sound(s) && RunFrom(s, actions).Some?
    ensures Sound(RunFrom(s, actions).value)
  {
    hide Enabled, Apply, Sound;
    if actions != [] {
      var front := actions[..|actions| - 1];
      PathSound(s, front);
      SoundStep(RunFrom(s, front).value, actions[|actions| - 1]);
    }
  }

  /** No request that is still active had its first refused send on the way from one state to the other. */
  predicate NothingRefused(before: State, after: State) {
    forall e :: e in before.wires.channels && !before.wires.channels[e].lost && e in after.core.byExternal ==>
      e in after.wires.channels && !after.wires.channels[e].lost
  }

  lemma {:induction false} PathCaught(s: State, actions: seq<Action>, e: ExternalId)
    requires Sound(s) && RunFrom(s, actions).Some? && ActorPromises.CaughtAt(s, e)
    ensures ActorPromises.CaughtAt(RunFrom(s, actions).value, e)
  {
    hide Enabled, Apply, Sound, ActorPromises.CaughtAt;
    if actions != [] {
      var front := actions[..|actions| - 1];
      PathCaught(s, front, e);
      PathSound(s, front);
      ActorPromises.CaughtStep(RunFrom(s, front).value, actions[|actions| - 1], e);
    }
  }

  lemma UnrefusedIsCaught(s: State, e: ExternalId)
    requires Sound(s) && e in s.wires.channels && !s.wires.channels[e].lost
    ensures ActorPromises.CaughtAt(s, e)
  {
    hide Sound;
    ActorDelivery.SoundPlaceAt(s, e);
  }

  lemma CaughtIsGone(s: State, e: ExternalId)
    requires ActorPromises.CaughtAt(s, e) && (s.phase.Top? || s.phase.Stopped?) && e in s.core.byExternal
    ensures e in s.wires.channels && !s.wires.channels[e].lost
  {
  }

  /** Whatever happens on the way, back at the top of the loop every request with a newly refused send is gone. */
  lemma PathRefusesNothing(s: State, actions: seq<Action>, t: State)
    requires Sound(s) && RunFrom(s, actions) == Some(t) && (t.phase.Top? || t.phase.Stopped?)
    ensures NothingRefused(s, t)
  {
    hide Sound, RunFrom, ActorPromises.CaughtAt;
    forall e | e in s.wires.channels && !s.wires.channels[e].lost && e in t.core.byExternal
      ensures e in t.wires.channels && !t.wires.channels[e].lost
    {
      UnrefusedIsCaught(s, e);
      PathCaught(s, actions, e);
      CaughtIsGone(t, e);
    }
  }

  /** Every decision left has a handler that still waits. */
  predicate AllAwaited(s: State) {
    forall k :: k in s.core.decisions ==>
        s.core.decisions[k] in s.wires.slots && s.wires.slots[s.core.decisions[k]].open
  }

  lemma IdleAwaits(s: State)
    requires s.core.Idle()
    ensures AllAwaited(s)
  {
  }

  lemma NoneDeserted(s: State)
    requires Sound(s) && Deserted(s) == {}
    ensures AllAwaited(s)
  {
    hide QueueOk, PhaseOk, Core.Agree, Core.Conserved;
    forall k | k in s.core.decisions
      ensures s.core.decisions[k] in s.wires.slots && s.wires.slots[s.core.decisions[k]].open
    {
      assert k !in Deserted(s);
    }
  }

  /** A tick takes nothing out of the tables but the requests that its work names, chat requests a send was refused for,
      and decisions whose handler has left. */
  predicate TakesNoOther(before: State, work: Work, after: State) {
    && (forall k :: k in before.core.active && !ActorTicks.Finishes(work, k) ==>
         var e := before.core.active[k];
         && e in after.wires.channels
         && (after.wires.channels[e].lost || (k in after.core.active && after.core.active[k] == e)))
    && (forall k :: k in before.core.decisions && !ActorTicks.Settles(work, k) ==>
         var e := before.core.decisions[k];
         && e in after.wires.slots
         && (!after.wires.slots[e].open || (k in after.core.decisions && after.core.decisions[k] == e)))
  }

  /** Only steps of fanning out a tick, with no client in between. */
  predicate TickOnly(actions: seq<Action>) {
    forall i :: 0 <= i < |actions| ==> ActorTicks.InTick(actions[i]) && !actions[i].ByOutside?
  }

  lemma NoTickSteps()
    ensures TickOnly([])
  {
  }

  lemma TickOnlyJoin(first: seq<Action>, second: seq<Action>)
    requires TickOnly(first) && TickOnly(second)
    ensures TickOnly(first + second)
  {
  }

  lemma TickOnlyAdd(actions: seq<Action>, a: Action)
    requires TickOnly(actions) && ActorTicks.InTick(a) && !a.ByOutside?
    ensures TickOnly(actions + [a])
  {
  }

  lemma {:induction false} PathKinds(s: State, actions: seq<Action>)
    requires TickOnly(actions) && RunFrom(s, actions).Some?
    ensures RunFrom(s, actions).value.book.kinds == s.book.kinds
  {
    hide Enabled, Apply;
    if actions != [] {
      var front := actions[..|actions| - 1];
      PathKinds(s, front);
      ActorTicks.KindsStay(RunFrom(s, front).value, actions[|actions| - 1]);
    }
  }

  lemma {:induction false} PathStays(s: State, actions: seq<Action>, e: ExternalId, k: EngineId)
    requires Sound(s) && TickOnly(actions) && RunFrom(s, actions).Some? && ActorTicks.Stays(s, e, k)
    requires ActorTicks.Spared(RunFrom(s, actions).value.wires, e)
    ensures ActorTicks.Stays(RunFrom(s, actions).value, e, k)
  {
    hide Enabled, Apply, Sound, ActorTicks.Stays, ActorTicks.Spared, ActorTicks.InTick;
    if actions != [] {
      var front, last := actions[..|actions| - 1], actions[|actions| - 1];
      var before := RunFrom(s, front).value;
      PathSound(s, front);
      ActorTicks.SparedBefore(before, last, e);
      PathStays(s, front, e, k);
      ActorTicks.StaysStep(before, last, e, k);
    }
  }

  lemma ChatStays(s: State, work: Work, actions: seq<Action>, t: State, k: EngineId)
    requires Sound(s) && s.phase == Tick(work, {}) && TickOnly(actions) && RunFrom(s, actions) == Some(t)
    requires k in s.core.active && !ActorTicks.Finishes(work, k)
    ensures
      var e := s.core.active[k];
      && e in t.wires.channels
      && (t.wires.channels[e].lost || (k in t.core.active && t.core.active[k] == e))
  {
    var e := s.core.active[k];
    hide Sound, RunFrom, TickOnly, ActorTicks.Stays, ActorTicks.Finishes;
    PathSound(s, actions);
    PathKinds(s, actions);
    ActorTicks.ChatStarts(s, work, k);
    SameWires(s, t, e);
    if !t.wires.channels[e].lost {
      PathStays(s, actions, e, k);
      ActorTicks.StaysEnds(t, e, k);
    }
  }

  lemma DecisionStays(s: State, work: Work, actions: seq<Action>, t: State, k: EngineId)
    requires Sound(s) && s.phase == Tick(work, {}) && TickOnly(actions) && RunFrom(s, actions) == Some(t)
    requires k in s.core.decisions && !ActorTicks.Settles(work, k)
    ensures
      var e := s.core.decisions[k];
      && e in t.wires.slots
      && (!t.wires.slots[e].open || (k in t.core.decisions && t.core.decisions[k] == e))
  {
    var e := s.core.decisions[k];
    hide Sound, RunFrom, TickOnly, ActorTicks.Stays, ActorTicks.Settles;
    PathSound(s, actions);
    PathKinds(s, actions);
    ActorTicks.DecisionStarts(s, work, k);
    SameWires(s, t, e);
    if t.wires.slots[e].open {
      PathStays(s, actions, e, k);
      ActorTicks.StaysEnds(t, e, k);
    }
  }

  /** With the same submissions there are the same channels and slots. */
  lemma SameWires(s: State, t: State, e: ExternalId)
    requires Sound(s) && Sound(t) && s.book.kinds == t.book.kinds
    ensures e in s.wires.channels <==> e in t.wires.channels
    ensures e in s.wires.slots <==> e in t.wires.slots
  {
    hide QueueOk, PhaseOk, Core.Agree, Core.Conserved, Registered;
  }

  lemma PathTakesNoOther(s: State, work: Work, actions: seq<Action>, t: State)
    requires Sound(s) && s.phase == Tick(work, {}) && TickOnly(actions) && RunFrom(s, actions) == Some(t)
    ensures TakesNoOther(s, work, t)
  {
    hide Sound, RunFrom, TickOnly, ActorTicks.Finishes, ActorTicks.Settles;
    forall k | k in s.core.active && !ActorTicks.Finishes(work, k)
      ensures
        var e := s.core.active[k];
        && e in t.wires.channels
        && (t.wires.channels[e].lost || (k in t.core.active && t.core.active[k] == e))
    {
      ChatStays(s, work, actions, t, k);
    }
    forall k | k in s.core.decisions && !ActorTicks.Settles(work, k)
      ensures
        var e := s.core.decisions[k];
        && e in t.wires.slots
        && (!t.wires.slots[e].open || (k in t.core.decisions && t.core.decisions[k] == e))
    {
      DecisionStays(s, work, actions, t, k);
    }
  }

  // ---------------------------------------------------------------- the thread

  /** The counters once everything active was cancelled, or failed. */
  function AllCancelled(c: Core): Tally { c.tally.(cancelled := c.tally.cancelled + |c.active| + |c.decisions|) }

  function AllFailed(c: Core): Tally { c.tally.(failed := c.tally.failed + |c.active| + |c.decisions|) }

  /** What the thread itself does not hold: what became of each submission, and the clients. */
  datatype Around = Around(book: Book, clients: map<ExternalId, Client>, closed: bool, shutdowns: nat)

  class Thread {
    const capacity: nat
    var active: map<EngineId, ExternalId>
    var decisions: map<EngineId, ExternalId>
    var byExternal: map<ExternalId, EngineId>
    var tally: Tally
    var queue: seq<Command>
    var wires: Wires
    ghost var phase: Phase
    ghost var around: Around

    ghost function Tables(): Core
      reads this
    {
      Core(active, decisions, byExternal, tally)
    }

    ghost function Now(): State
      reads this
    {
      State(capacity, phase, Tables(), around.book, queue, around.closed, wires, around.clients, around.shutdowns)
    }

    constructor (capacity: nat)
      ensures Now() == Init(capacity)
    {
      this.capacity := capacity;
      active, decisions, byExternal, tally := map[], map[], map[], Tally(0, 0, 0, 0);
      queue, wires := [], Wires(map[], map[], map[]);
      phase, around := Top, Around(Book(1, map[], map[], {}), map[], false, 0);
    }

    ghost method Settle(book: Book)
      modifies `around
      ensures around == old(around).(book := book)
    {
      around := around.(book := book);
    }

    method TrySendTo(e: ExternalId, event: InferenceEvent) returns (accepted: bool)
      requires e in wires.channels
      modifies `wires
      ensures accepted == !Refuses(old(wires), capacity, e)
      ensures wires == TrySend(old(wires), capacity, e, event)
    {
      var channel := wires.channels[e];
      accepted := channel.open && !channel.Full(capacity);
      wires := wires.(channels := wires.channels[e := channel.Offer(event, accepted)]);
    }

    method ResolveTo(e: ExternalId, outcome: Outcome)
      requires e in wires.slots
      modifies `wires
      ensures wires == Resolve(old(wires), e, outcome)
    {
      var slot := wires.slots[e];
      if slot.open { wires := wires.(slots := wires.slots[e := slot.(value := Some(outcome))]); }
    }

    // -------------------------------------------------------------- single removals

    /** Takes a chat request out of the tables. */
    method RemoveChat(k: EngineId) returns (e: ExternalId)
      requires k in active
      modifies `active, `byExternal
      ensures e == old(active)[k] && Tables() == old(Tables()).DropChat(k)
    {
      e := active[k];
      active, byExternal := active - {k}, byExternal - {e};
    }

    method RemoveDecision(k: EngineId) returns (e: ExternalId)
      requires k in decisions
      modifies `decisions, `byExternal
      ensures e == old(decisions)[k] && Tables() == old(Tables()).DropDecision(k)
    {
      e := decisions[k];
      decisions, byExternal := decisions - {k}, byExternal - {e};
    }

    method Count(completed: nat, failed: nat)
      modifies `tally
      ensures Tables() == old(Tables()).Bump(completed, failed, 0)
    {
      tally := Tally(tally.accepted, tally.completed + completed, tally.failed + failed, tally.cancelled);
    }

    method CancelSchedulerRequest(k: EngineId)
      requires active.Keys !! decisions.Keys
      modifies `active, `decisions, `byExternal, `tally, `around
      ensures Tables() == old(Tables()).Cancelled(k)
      ensures around == old(around).(book := FateAfter(old(around.book), old(Tables()), k, Withdrawn))
    {
      Settle(FateAfter(around.book, Tables(), k, Withdrawn));
      hide FateAfter;
      if k in active {
        byExternal := byExternal - {active[k]};
        active := active - {k};
        tally := tally.(cancelled := tally.cancelled + 1);
      }
      if k in decisions {
        byExternal := byExternal - {decisions[k]};
        decisions := decisions - {k};
        tally := tally.(cancelled := tally.cancelled + 1);
      }
    }

    method FailSchedulerRequest(k: EngineId, message: string)
      requires active.Keys !! decisions.Keys && (k in decisions ==> decisions[k] in wires.slots)
      modifies `active, `decisions, `byExternal, `tally, `around, `wires
      ensures Tables() == old(Tables()).FailedOne(k)
      ensures around == old(around).(book := FateAfter(old(around.book), old(Tables()), k, Broken(message)))
      ensures wires == if k in old(decisions) then Resolve(old(wires), old(decisions)[k], Undecided(message))
          else old(wires)
    {
      Settle(FateAfter(around.book, Tables(), k, Broken(message)));
      hide FateAfter, Resolve;
      if k in active {
        byExternal := byExternal - {active[k]};
        active := active - {k};
        tally := tally.(failed := tally.failed + 1);
      }
      if k in decisions {
        var e := decisions[k];
        byExternal := byExternal - {e};
        decisions := decisions - {k};
        tally := tally.(failed := tally.failed + 1);
        ResolveTo(e, Undecided(message));
      }
    }

    // -------------------------------------------------------------- commands

    method Submitted(e: ExternalId, admission: Admission)
      requires e in wires.channels
      modifies `active, `byExternal, `tally, `around, `wires
      ensures Now() == HandleSubmit(old(Now()), e, admission)
    {
      match admission {
        case Admitted(k) =>
          active, byExternal := active[k := e], byExternal[e := k];
          tally := tally.(accepted := tally.accepted + 1);
          Settle(SetFate(around.book, e, Active).(issued := around.book.issued + {k}));
        case Rejected(message) =>
          Settle(SetFate(around.book, e, Refused(message)));
          var _ := TrySendTo(e, Error(message));
      }
    }

    method DecisionSubmitted(e: ExternalId, admission: Admission)
      requires e in wires.slots
      modifies `decisions, `byExternal, `tally, `around, `wires
      ensures Now() == HandleSubmitDecision(old(Now()), e, admission)
    {
      match admission {
        case Admitted(k) =>
          decisions, byExternal := decisions[k := e], byExternal[e := k];
          tally := tally.(accepted := tally.accepted + 1);
          Settle(SetFate(around.book, e, Active).(issued := around.book.issued + {k}));
        case Rejected(message) =>
          Settle(SetFate(around.book, e, Refused(message)));
          ResolveTo(e, Undecided(message));
      }
    }

    method Cancelled(e: ExternalId)
      requires active.Keys !! decisions.Keys
      modifies `active, `decisions, `byExternal, `tally, `around
      ensures Now() == HandleCancel(old(Now()), e)
    {
      if e in byExternal { CancelSchedulerRequest(byExternal[e]); }
    }

    /** Takes the next command; the result is false when the loop should stop. */
    method HandleCommand(admission: Admission) returns (running: bool)
      requires Sound(Now()) && CanHandle(Now(), admission)
      modifies this
      ensures Now() == Handled(old(Now()), admission)
      ensures running == !old(queue)[0].Shutdown?
    {
      hide HandleSubmit, HandleSubmitDecision, HandleCancel, Sound;
      DisjointTables(Now());
      var command := queue[0];
      queue, phase := queue[1..], Drain;
      running := true;
      match command {
        case Submit(e) => Submitted(e, admission);
        case SubmitDecision(e) => DecisionSubmitted(e, admission);
        case Cancel(e) => Cancelled(e);
        case Shutdown => running, phase := false, Stopping(Tables().Ids());
      }
    }

    // -------------------------------------------------------------- removing everything

    /** Shutting down cancels every request: both engine maps and the external map end empty, and exactly the requests
        that were active are counted as cancelled. */
    method CancelAll() returns (ghost steps: seq<Action>)
      requires Sound(Now()) && phase == Stopping(Tables().Ids())
      modifies `active, `decisions, `byExternal, `tally, `around, `phase
      ensures RunFrom(old(Now()), steps) == Some(Now()) && Sound(Now()) && phase == Stopping({})
      ensures active == map[] && decisions == map[] && byExternal == map[]
      ensures tally == AllCancelled(old(Tables()))
    {
      var ids := active.Keys + decisions.Keys;
      steps := [];
      ghost var start := Now();
      NoPath(start);
      hide Sound, RunFrom, FateAfter, Purged, Core.Cancelled;
      while ids != {}
        invariant Sound(Now()) && phase == Stopping(ids) && RunFrom(start, steps) == Some(Now())
        invariant OnlyCancels(start.core.tally, tally)
        decreases |ids|
      {
        var k :| k in ids;
        ghost var s := Now();
        DisjointTables(s);
        CancelSchedulerRequest(k);
        ids := ids - {k};
        phase := Stopping(ids);
        RemovalCounts(s.core, k);
        StopIs(s, Now(), k);
        Purging(start, steps, s, StopOne(k));
        steps := steps + [ByPurge(StopOne(k))];
      }
      NothingLeft(start, Now());
    }

    /** The end of the loop: everything is cancelled, then the service is shut down, once. */
    method Stop() returns (ghost steps: seq<Action>)
      requires Sound(Now()) && phase == Stopping(Tables().Ids())
      modifies `active, `decisions, `byExternal, `tally, `around, `phase
      ensures RunFrom(old(Now()), steps) == Some(Now()) && Sound(Now()) && phase == Stopped
      ensures active == map[] && decisions == map[] && byExternal == map[]
      ensures around.shutdowns == 1
    {
      hide Sound, RunFrom, AllCancelled, Controlled;
      ghost var start := Now();
      steps := CancelAll();
      Controlling(start, steps, Now(), ShutDownService);
      ShutDownIs(Now());
      ShutDownOnce(Controlled(Now(), ShutDownService));
      steps := steps + [ByControl(ShutDownService)];
      phase, around := Stopped, around.(shutdowns := around.shutdowns + 1);
    }

    /** Fails every request left after the chat requests were told. */
    method FailAll(message: string) returns (ghost steps: seq<Action>)
      requires Sound(Now()) && phase == Failing(Tables().Ids(), message)
      modifies `active, `decisions, `byExternal, `tally, `around, `phase, `wires
      ensures RunFrom(old(Now()), steps) == Some(Now()) && Sound(Now()) && phase == Failing({}, message)
      ensures active == map[] && decisions == map[] && byExternal == map[]
      ensures tally == AllFailed(old(Tables()))
      ensures wires.channels == old(wires.channels)
    {
      var ids := active.Keys + decisions.Keys;
      steps := [];
      ghost var start := Now();
      NoPath(start);
      hide Sound, RunFrom, FateAfter, Purged, Core.FailedOne, Resolve;
      while ids != {}
        invariant Sound(Now()) && phase == Failing(ids, message) && RunFrom(start, steps) == Some(Now())
        invariant OnlyFails(start.core.tally, tally) && wires.channels == start.wires.channels
        decreases |ids|
      {
        var k :| k in ids;
        ghost var s := Now();
        DisjointTables(s);
        FailSchedulerRequest(k, message);
        ids := ids - {k};
        phase := Failing(ids, message);
        RemovalCounts(s.core, k);
        FailIs(s, Now(), k);
        Purging(start, steps, s, FailOne(k));
        steps := steps + [ByPurge(FailOne(k))];
      }
      NothingLeft(start, Now());
    }

    /** Offers the error to every active chat request. */
    method NotifyAll(message: string) returns (ghost steps: seq<Action>)
      requires Sound(Now()) && phase == Notifying(active.Keys, message)
      modifies `phase, `wires
      ensures RunFrom(old(Now()), steps) == Some(Now()) && Sound(Now()) && phase == Notifying({}, message)
      ensures Telling(old(Now()), wires, {}, message)
    {
      var left := active.Keys;
      steps := [];
      ghost var start := Now();
      NoPath(start);
      hide Sound, RunFrom, Purged, Told, TrySend, Core.Agree, Telling;
      TellStart(start, message);
      AgreeIn(start);
      while left != {}
        invariant Sound(Now()) && phase == Notifying(left, message) && RunFrom(start, steps) == Some(Now())
        invariant Telling(start, wires, left, message) && left <= active.Keys
        decreases |left|
      {
        var k :| k in left;
        ghost var s := Now();
        DisjointTables(s);
        TellKeys(start, wires, left, message);
        TellOne(start, wires, left, k, message);
        var _ := TrySendTo(active[k], Error(message));
        left := left - {k};
        phase := Notifying(left, message);
        NotifyIs(s, Now(), k);
        Purging(start, steps, s, NotifyOne(k));
        steps := steps + [ByPurge(NotifyOne(k))];
      }
    }

    /** The thread moves on to the next part of its loop. */
    ghost method Move(start: State, before: seq<Action>, c: Control) returns (steps: seq<Action>)
      requires RunFrom(start, before) == Some(Now()) && Sound(Now()) && CanControl(Now(), c)
      requires !c.TickDone? && !c.ShutDownService?
      modifies `phase
      ensures phase == PhaseAfter(old(Now()), c) && steps == before + [ByControl(c)]
      ensures RunFrom(start, steps) == Some(Now()) && Sound(Now())
    {
      hide Sound, RunFrom;
      Controlling(start, before, Now(), c);
      steps := before + [ByControl(c)];
      phase := PhaseAfter(Now(), c);
    }

    /** The first part of a failed tick. */
    method TellAll(message: string) returns (ghost steps: seq<Action>)
      requires Sound(Now()) && CanControl(Now(), TickFailed(message))
      modifies `phase, `wires
      ensures RunFrom(old(Now()), steps) == Some(Now()) && Sound(Now()) && phase == Failing(Tables().Ids(), message)
      ensures AllTold(old(Now()), wires.channels, {}, message)
    {
      hide Sound, RunFrom, AllTold, Controlled;
      ghost var start := Now();
      NoPath(start);
      steps := Move(start, [], TickFailed(message));
      ghost var s := Now();
      ghost var telling := NotifyAll(message);
      PathsJoin(start, steps, s, telling);
      ToldFrom(s, start, wires.channels, message);
      steps := Move(start, steps + telling, NotifiedAll);
    }

    /** A failed tick tells every chat request, then fails every request: the tables end empty, exactly the requests
        that were active are counted as failed, and every active chat request, and no other, is offered the error
        once. */
    method FailTick(message: string) returns (ghost steps: seq<Action>)
      requires Sound(Now()) && CanControl(Now(), TickFailed(message))
      modifies `active, `decisions, `byExternal, `tally, `around, `phase, `wires
      ensures RunFrom(old(Now()), steps) == Some(Now()) && Sound(Now()) && phase == Top
      ensures active == map[] && decisions == map[] && byExternal == map[]
      ensures tally == AllFailed(old(Tables()))
      ensures AllTold(old(Now()), wires.channels, {}, message)
    {
      hide Sound, RunFrom, AllTold, AllFailed;
      ghost var start := Now();
      steps := TellAll(message);
      ghost var s := Now();
      ghost var failing := FailAll(message);
      PathsJoin(start, steps, s, failing);
      steps := Move(start, steps + failing, FailedAll);
    }

    // -------------------------------------------------------------- fanning out a tick

    /** Sends one output event to its request, if it is still there. */
    method SendOutput(delta: Delta) returns (refused: bool)
      requires Sound(Now()) && phase.Tick? && phase.work.output != [] && phase.work.output[0] == delta
      modifies `phase, `wires
      ensures CanFan(old(Now()), SendDelta) && Now() == Fanned(old(Now()), SendDelta)
      ensures phase == Tick(old(phase).work.(output := old(phase).work.output[1..]),
                            old(phase).disconnected + (if refused then {delta.id} else {}))
    {
      hide Sound, TrySend, Refuses, Fanned;
      ghost var s := Now();
      ChannelOf(s, delta.id);
      refused := false;
      if delta.id in active {
        var accepted := TrySendTo(active[delta.id], Output(delta.event));
        refused := !accepted;
      }
      phase := Tick(s.phase.work.(output := s.phase.work.output[1..]),
          s.phase.disconnected + (if refused then {delta.id} else {}));
      DeltaIs(s, Now(), !refused);
    }

    /** Sends every output event of the tick in order; the ids whose send was refused are returned. */
    method SendOutputs(output: seq<Delta>) returns (disconnected: set<EngineId>, ghost steps: seq<Action>)
      requires Sound(Now()) && phase.Tick? && phase.work.output == output && phase.disconnected == {}
      modifies `phase, `wires
      ensures TickOnly(steps)
      ensures RunFrom(old(Now()), steps) == Some(Now()) && Sound(Now())
      ensures phase == Tick(old(phase).work.(output := []), disconnected)
    {
      ghost var start := Now();
      NoPath(start);
      NoTickSteps();
      hide TickOnly, Sound, RunFrom, Fanned, CanFan;
      disconnected, steps := {}, [];
      for i := 0 to |output|
        invariant TickOnly(steps) && Sound(Now()) && RunFrom(start, steps) == Some(Now())
        invariant phase == Tick(start.phase.work.(output := output[i..]), disconnected)
      {
        ghost var s := Now();
        var refused := SendOutput(output[i]);
        disconnected := disconnected + (if refused then {output[i].id} else {});
        Fanning(start, steps, s, SendDelta);
        TickOnlyAdd(steps, ByFan(SendDelta));
        steps := steps + [ByFan(SendDelta)];
        assert output[i..][1..] == output[i + 1..];
      }
      assert output[|output|..] == [];
    }

    method SendEnding(ending: Ending)
      requires Sound(Now()) && phase.Tick? && phase.work.output == [] && phase.work.finished != []
      requires phase.work.finished[0] == ending
      modifies `active, `decisions, `byExternal, `tally, `around, `phase, `wires
      ensures CanFan(old(Now()), SendFinished) && Now() == Fanned(old(Now()), SendFinished)
      ensures phase == Tick(old(phase).work.(finished := old(phase).work.finished[1..]), old(phase).disconnected)
    {
      hide Sound, TrySend, Resolve, Refuses, Fanned, SetFate, Core.DropChat, Core.DropDecision, Core.Bump;
      ghost var s := Now();
      ChannelOf(s, ending.id);
      if ending.id in active {
        var e := RemoveChat(ending.id);
        Count(1, 0);
        Settle(SetFate(around.book, e, Ended(ending.reason, ending.usage)));
        var _ := TrySendTo(e, Finished(ending.reason, ending.usage));
      }
      phase := Tick(s.phase.work.(finished := s.phase.work.finished[1..]), s.phase.disconnected);
      FinishedIs(s, Now());
    }

    /** Ends every finished chat request: its entry goes first, then it is sent its end. */
    method SendEndings(finished: seq<Ending>) returns (ghost steps: seq<Action>)
      requires Sound(Now()) && phase.Tick? && phase.work.finished == finished && phase.work.output == []
      modifies `active, `decisions, `byExternal, `tally, `around, `phase, `wires
      ensures TickOnly(steps)
      ensures RunFrom(old(Now()), steps) == Some(Now()) && Sound(Now())
      ensures phase == Tick(old(phase).work.(finished := []), old(phase).disconnected)
    {
      hide TickOnly, Sound, RunFrom, Fanned, CanFan;
      ghost var start := Now();
      NoPath(start);
      NoTickSteps();
      steps := [];
      for i := 0 to |finished|
        invariant TickOnly(steps) && Sound(Now()) && RunFrom(start, steps) == Some(Now())
        invariant phase == Tick(start.phase.work.(finished := finished[i..]), start.phase.disconnected)
      {
        ghost var s := Now();
        SendEnding(finished[i]);
        Fanning(start, steps, s, SendFinished);
        TickOnlyAdd(steps, ByFan(SendFinished));
        steps := steps + [ByFan(SendFinished)];
        assert finished[i..][1..] == finished[i + 1..];
      }
      assert finished[|finished|..] == [];
    }

    method SendVerdict(verdict: Verdict)
      requires Sound(Now()) && phase.Tick? && phase.work.output == [] && phase.work.finished == []
      requires phase.work.decided != [] && phase.work.decided[0] == verdict
      modifies `active, `decisions, `byExternal, `tally, `around, `phase, `wires
      ensures CanFan(old(Now()), Fan.SendVerdict) && Now() == Fanned(old(Now()), Fan.SendVerdict)
      ensures phase == Tick(old(phase).work.(decided := old(phase).work.decided[1..]), old(phase).disconnected)
    {
      hide Sound, TrySend, Resolve, Refuses, Fanned, SetFate, Core.DropChat, Core.DropDecision, Core.Bump;
      ghost var s := Now();
      ChannelOf(s, verdict.id);
      if verdict.id in decisions {
        var e := RemoveDecision(verdict.id);
        Count(1, 0);
        Settle(SetFate(around.book, e, Answered(verdict.completion)));
        ResolveTo(e, Decided(verdict.completion));
      }
      phase := Tick(s.phase.work.(decided := s.phase.work.decided[1..]), s.phase.disconnected);
      VerdictIs(s, Now());
    }

    /** Answers every decided decision. */
    method SendVerdicts(decided: seq<Verdict>) returns (ghost steps: seq<Action>)
      requires Sound(Now()) && phase.Tick? && phase.work.decided == decided && phase.work.output == []
      requires phase.work.finished == []
      modifies `active, `decisions, `byExternal, `tally, `around, `phase, `wires
      ensures TickOnly(steps)
      ensures RunFrom(old(Now()), steps) == Some(Now()) && Sound(Now())
      ensures phase == Tick(old(phase).work.(decided := []), old(phase).disconnected)
    {
      hide TickOnly, Sound, RunFrom, Fanned, CanFan;
      ghost var start := Now();
      NoPath(start);
      NoTickSteps();
      steps := [];
      for i := 0 to |decided|
        invariant TickOnly(steps) && Sound(Now()) && RunFrom(start, steps) == Some(Now())
        invariant phase == Tick(start.phase.work.(decided := decided[i..]), start.phase.disconnected)
      {
        ghost var s := Now();
        SendVerdict(decided[i]);
        Fanning(start, steps, s, Fan.SendVerdict);
        TickOnlyAdd(steps, ByFan(Fan.SendVerdict));
        steps := steps + [ByFan(Fan.SendVerdict)];
        assert decided[i..][1..] == decided[i + 1..];
      }
      assert decided[|decided|..] == [];
    }

    method SendRefusal(refusal: Refusal)
      requires Sound(Now()) && phase.Tick? && phase.work.output == [] && phase.work.finished == []
      requires phase.work.decided == [] && phase.work.undecided != [] && phase.work.undecided[0] == refusal
      modifies `active, `decisions, `byExternal, `tally, `around, `phase, `wires
      ensures CanFan(old(Now()), Fan.SendRefusal) && Now() == Fanned(old(Now()), Fan.SendRefusal)
      ensures phase == Tick(old(phase).work.(undecided := old(phase).work.undecided[1..]), old(phase).disconnected)
    {
      hide Sound, TrySend, Resolve, Refuses, Fanned, SetFate, Core.DropChat, Core.DropDecision, Core.Bump;
      ghost var s := Now();
      ChannelOf(s, refusal.id);
      if refusal.id in decisions {
        var e := RemoveDecision(refusal.id);
        Count(0, 1);
        Settle(SetFate(around.book, e, Broken(refusal.message)));
        ResolveTo(e, Undecided(refusal.message));
      }
      phase := Tick(s.phase.work.(undecided := s.phase.work.undecided[1..]), s.phase.disconnected);
      RefusalIs(s, Now());
    }

    /** Tells every failed decision. */
    method SendRefusals(undecided: seq<Refusal>) returns (ghost steps: seq<Action>)
      requires Sound(Now()) && phase.Tick? && phase.work.undecided == undecided && phase.work.output == []
      requires phase.work.finished == [] && phase.work.decided == []
      modifies `active, `decisions, `byExternal, `tally, `around, `phase, `wires
      ensures TickOnly(steps)
      ensures RunFrom(old(Now()), steps) == Some(Now()) && Sound(Now())
      ensures phase == Tick(old(phase).work.(undecided := []), old(phase).disconnected)
    {
      hide TickOnly, Sound, RunFrom, Fanned, CanFan;
      ghost var start := Now();
      NoPath(start);
      NoTickSteps();
      steps := [];
      for i := 0 to |undecided|
        invariant TickOnly(steps) && Sound(Now()) && RunFrom(start, steps) == Some(Now())
        invariant phase == Tick(start.phase.work.(undecided := undecided[i..]), start.phase.disconnected)
      {
        ghost var s := Now();
        SendRefusal(undecided[i]);
        Fanning(start, steps, s, Fan.SendRefusal);
        TickOnlyAdd(steps, ByFan(Fan.SendRefusal));
        steps := steps + [ByFan(Fan.SendRefusal)];
        assert undecided[i..][1..] == undecided[i + 1..];
      }
      assert undecided[|undecided|..] == [];
    }

    /** Cancels one request after another. */
    method CancelEach(doomed: set<EngineId>) returns (ghost steps: seq<Action>)
      requires Sound(Now()) && phase == Cancelling(doomed)
      modifies `active, `decisions, `byExternal, `tally, `around, `phase
      ensures TickOnly(steps)
      ensures RunFrom(old(Now()), steps) == Some(Now()) && Sound(Now()) && phase == Cancelling({})
      ensures Cleared(old(Tables()), Tables(), doomed, {})
    {
      hide TickOnly, Sound, RunFrom, FateAfter, Purged, Core.Cancelled, Cleared;
      ghost var start := Now();
      NoPath(start);
      NoTickSteps();
      steps := [];
      var left := doomed;
      NothingCleared(start.core, doomed);
      while left != {}
        invariant TickOnly(steps) && Sound(Now()) && phase == Cancelling(left) && RunFrom(start, steps) == Some(Now())
        invariant Cleared(start.core, Tables(), doomed, left)
        decreases |left|
      {
        var k :| k in left;
        ghost var s := Now();
        DisjointTables(s);
        CancelClears(start.core, s.core, doomed, left, k);
        CancelSchedulerRequest(k);
        left := left - {k};
        phase := Cancelling(left);
        CancelIs(s, Now(), k);
        Purging(start, steps, s, CancelOne(k));
        TickOnlyAdd(steps, ByPurge(CancelOne(k)));
        steps := steps + [ByPurge(CancelOne(k))];
      }
    }

    /** Cancels the requests whose client is gone: those a send was refused for and the decisions nobody waits for. */
    method CancelDisconnected(disconnected: set<EngineId>) returns (ghost steps: seq<Action>)
      requires Sound(Now()) && phase == Tick(Work([], [], [], []), disconnected)
      modifies `active, `decisions, `byExternal, `tally, `around, `phase
      ensures TickOnly(steps)
      ensures RunFrom(old(Now()), steps) == Some(Now()) && Sound(Now()) && phase == Top
      ensures Tables().Ids() !! disconnected && AllAwaited(Now())
    {
      hide TickOnly, Sound, RunFrom, Deserted, Cleared, AllAwaited;
      ghost var start := Now();
      NoPath(start);
      NoTickSteps();
      var deserted := FindDeserted();
      steps := Move(start, [], Sweep(deserted));
      TickOnlyAdd([], ByControl(Sweep(deserted)));
      ghost var s := Now();
      ghost var more := CancelEach(disconnected + deserted);
      PathsJoin(start, steps, s, more);
      TickOnlyJoin(steps, more);
      TickOnlyAdd(steps + more, ByControl(EndTick));
      steps := Move(start, steps + more, EndTick);
      AllCleared(start, Now(), disconnected, deserted);
      NoneDeserted(Now());
    }

    /** The decisions whose client no longer waits. */
    method FindDeserted() returns (deserted: set<EngineId>)
      requires Sound(Now())
      ensures deserted == Deserted(Now())
    {
      hide Sound;
      deserted := set k | k in decisions && decisions[k] in wires.slots && !wires.slots[decisions[k]].open;
    }

    /** Fans out a successful tick: a path of the machine back to the top of the loop. Afterwards every decision left
        has a handler that waits, no request left was refused a send on the way, and nothing else was removed but what
        the work names. */
    method FanOut(work: Work) returns (ghost steps: seq<Action>)
      requires Sound(Now()) && phase == Tick(work, {})
      modifies `active, `decisions, `byExternal, `tally, `around, `phase, `wires
      ensures RunFrom(old(Now()), steps) == Some(Now()) && Sound(Now()) && phase == Top
      ensures AllAwaited(Now()) && NothingRefused(old(Now()), Now()) && TakesNoOther(old(Now()), work, Now())
    {
      hide TickOnly, Sound, RunFrom, AllAwaited, NothingRefused, TakesNoOther;
      ghost var start := Now();
      ghost var more;
      var disconnected;
      disconnected, steps := SendOutputs(work.output);
      ghost var s := Now();
      more := SendEndings(work.finished);
      Joined(start, steps, s, more);
      steps, s := steps + more, Now();
      more := SendVerdicts(work.decided);
      Joined(start, steps, s, more);
      steps, s := steps + more, Now();
      more := SendRefusals(work.undecided);
      Joined(start, steps, s, more);
      steps, s := steps + more, Now();
      more := CancelDisconnected(disconnected);
      Joined(start, steps, s, more);
      steps := steps + more;
      PathRefusesNothing(start, steps, Now());
      PathTakesNoOther(start, work, steps, Now());
    }

    /** Two parts of a tick, one after the other. */
    lemma Joined(start: State, steps: seq<Action>, s: State, more: seq<Action>)
      requires RunFrom(start, steps) == Some(s) && TickOnly(steps) && TickOnly(more)
      ensures RunFrom(start, steps + more) == RunFrom(s, more) && TickOnly(steps + more)
    {
      hide TickOnly, RunFrom;
      PathsJoin(start, steps, s, more);
      TickOnlyJoin(steps, more);
    }

    // -------------------------------------------------------------- one turn of the loop

    /** Takes commands until there are none or one of them stops the loop; the engine answers submissions from the
        list. */
    method DrainCommands(admissions: seq<Admission>) returns (running: bool, ghost steps: seq<Action>)
      requires Sound(Now()) && (phase.Drain? || (phase.Top? && Tables().Idle()))
      requires |queue| <= |admissions| && Unused(admissions, around.book.issued)
      modifies this
      ensures RunFrom(old(Now()), steps) == Some(Now()) && Sound(Now())
      ensures running ==> queue == [] && (phase == Drain || (old(queue) == [] && phase == old(phase)))
      ensures !running ==> phase == Stopping(Tables().Ids())
    {
      hide Sound, RunFrom, Handled, CanHandle, Unused;
      ghost var start := Now();
      NoPath(start);
      running, steps := true, [];
      var i := 0;
      while queue != [] && running
        invariant Sound(Now()) && RunFrom(start, steps) == Some(Now())
        invariant i <= |admissions| && (running ==> |queue| <= |admissions| - i)
        invariant Unused(admissions[i..], around.book.issued)
        invariant if running
          then phase == Drain || (Now() == start && (phase.Drain? || (phase.Top? && Tables().Idle())))
                  else phase == Stopping(Tables().Ids())
        decreases |queue|, running
      {
        ghost var s := Now();
        Handleable(s, admissions[i..]);
        assert admissions[i..][0] == admissions[i];
        running := HandleCommand(admissions[i]);
        Commanding(start, steps, s, admissions[i]);
        steps := steps + [ByCommand(admissions[i])];
        assert admissions[i..][1..] == admissions[i + 1..];
        i := i + 1;
      }
    }

    /** One turn: the waiting commands, then a tick if anything is active. It ends back at the top, or stopped with
        empty tables and the service shut down. With nothing active it waits for a command; a closed command channel
        then ends the loop. */
    method Turn(admissions: seq<Admission>, tick: Result<Work, string>)
      returns (running: bool, ghost steps: seq<Action>)
      requires Sound(Now()) && phase == Top && !(Tables().Idle() && queue == [] && !around.closed)
      requires |queue| <= |admissions| && Unused(admissions, around.book.issued)
      modifies this
      ensures RunFrom(old(Now()), steps) == Some(Now()) && Sound(Now())
      ensures if running then phase == Top && queue == []
          else phase == Stopped && Tables().Idle() && around.shutdowns == 1
      ensures running && tick.Err? ==> Tables().Idle()
      ensures old(Tables()).Idle() && old(queue) == [] ==>
          !running && steps != [] && steps[0] == ByControl(ChannelClosed)
      ensures NothingRefused(old(Now()), Now())
      ensures running ==> AllAwaited(Now())
    {
      hide Sound, RunFrom, NothingRefused, AllAwaited;
      if active == map[] && decisions == map[] && queue == [] {
        running := false;
        steps := StopWhenClosed();
      } else {
        running, steps := TurnWithWork(admissions, tick);
      }
      PathRefusesNothing(old(Now()), steps, Now());
    }

    /** Nothing is active and no command can come any more. */
    method StopWhenClosed() returns (ghost steps: seq<Action>)
      requires Sound(Now()) && phase == Top && Tables().Idle() && queue == [] && around.closed
      modifies this
      ensures RunFrom(old(Now()), steps) == Some(Now()) && Sound(Now())
      ensures phase == Stopped && Tables().Idle() && around.shutdowns == 1 && steps != []
          && steps[0] == ByControl(ChannelClosed)
    {
      hide Sound, RunFrom;
      ghost var start := Now();
      NoPath(start);
      steps := Move(start, [], ChannelClosed);
      ghost var s := Now();
      ghost var more := Stop();
      PathsJoin(start, steps, s, more);
      steps := steps + more;
    }

    method TurnWithWork(admissions: seq<Admission>, tick: Result<Work, string>)
      returns (running: bool, ghost steps: seq<Action>)
      requires Sound(Now()) && phase == Top && !(Tables().Idle() && queue == [])
      requires |queue| <= |admissions| && Unused(admissions, around.book.issued)
      modifies this
      ensures RunFrom(old(Now()), steps) == Some(Now()) && Sound(Now())
      ensures if running then phase == Top && queue == []
          else phase == Stopped && Tables().Idle() && around.shutdowns == 1
      ensures running && tick.Err? ==> Tables().Idle()
      ensures running ==> AllAwaited(Now())
    {
      hide Sound, RunFrom, Unused, EngineEmits, NothingRefused, AllAwaited, TakesNoOther;
      ghost var start := Now();
      ghost var s := start;
      ghost var more;
      NoPath(start);
      steps := [];
      if !(active == map[] && decisions == map[]) {
        steps := Move(start, steps, StartDraining);
        s := Now();
      }
      running, more := DrainCommands(admissions);
      PathsJoin(start, steps, s, more);
      steps, s := steps + more, Now();
      if !running {
        more := Stop();
        PathsJoin(start, steps, s, more);
        steps := steps + more;
        return;
      }
      if active == map[] && decisions == map[] {
        steps := Move(start, steps, NothingToDo);
        IdleAwaits(Now());
        return;
      }
      match tick {
        case Err(message) =>
          more := FailTick(message);
          IdleAwaits(Now());
        case Ok(work) =>
          Controlling(start, steps, s, TickDone(work));
          phase, wires := Tick(work, {}), EngineEmits(wires, Core(active, decisions, byExternal, tally), work.output);
          steps, s := steps + [ByControl(TickDone(work))], Now();
          more := FanOut(work);
      }
      PathsJoin(start, steps, s, more);
      steps := steps + more;
    }
  }

  /** Engine answers that never give out an id already issued, nor the same id twice. */
  predicate Unused(admissions: seq<Admission>, issued: set<EngineId>) {
    && (forall i :: 0 <= i < |admissions| && admissions[i].Admitted? ==> admissions[i].id !in issued)
    && (forall i, j :: 0 <= i < j < |admissions| && admissions[i].Admitted? && admissions[j].Admitted? ==>
         admissions[i].id != admissions[j].id)
  }

  /** The next command can be handled with the next answer, and the answers after it stay unused. */
  lemma Handleable(s: State, admissions: seq<Admission>)
    requires Sound(s) && s.queue != [] && (s.phase.Drain? || (s.phase.Top? && s.core.Idle()))
    requires admissions != [] && Unused(admissions, s.book.issued)
    ensures CanHandle(s, admissions[0]) && Unused(admissions[1..], Handled(s, admissions[0]).book.issued)
    ensures
      var t := Handled(s, admissions[0]);
      && t.queue == s.queue[1..]
      && (if s.queue[0].Shutdown? then t.phase == Stopping(t.core.Ids()) else t.phase == Drain)
  {
    hide Sound, Handled, CanHandle, Unused;
    FirstUnused(admissions, s.book.issued);
    NextHandled(s, admissions[0]);
    HandledParts(s, admissions[0]);
    RestUnused(admissions, s.book.issued, Handled(s, admissions[0]).book.issued);
  }

  lemma FirstUnused(admissions: seq<Admission>, issued: set<EngineId>)
    requires admissions != [] && Unused(admissions, issued)
    ensures admissions[0].Admitted? ==> admissions[0].id !in issued
  {
  }

  lemma RestUnused(admissions: seq<Admission>, issued: set<EngineId>, later: set<EngineId>)
    requires admissions != [] && Unused(admissions, issued)
    requires later <= issued + (if admissions[0].Admitted? then {admissions[0].id} else {})
    ensures Unused(admissions[1..], later)
  {
  }

  lemma NextHandled(s: State, admission: Admission)
    requires Sound(s) && s.queue != [] && (s.phase.Drain? || (s.phase.Top? && s.core.Idle()))
    requires admission.Admitted? ==> admission.id !in s.book.issued
    ensures CanHandle(s, admission)
  {
    assert Fits(s.queue[0], s.book);
  }

  lemma HandledParts(s: State, admission: Admission)
    requires CanHandle(s, admission)
    ensures
      var t := Handled(s, admission);
      && t.queue == s.queue[1..]
      && t.book.issued <= s.book.issued + (if admission.Admitted? then {admission.id} else {})
      && (if s.queue[0].Shutdown? then t.phase == Stopping(t.core.Ids()) else t.phase == Drain)
  {
  }

  lemma Commanding(start: State, steps: seq<Action>, s: State, admission: Admission)
    requires RunFrom(start, steps) == Some(s) && Sound(s) && CanHandle(s, admission)
    ensures RunFrom(start, steps + [ByCommand(admission)]) == Some(Handled(s, admission))
        && Sound(Handled(s, admission))
  {
    hide Sound, Handled, CanHandle, RunFrom;
    OneMore(start, steps, s, ByCommand(admission));
    SoundStep(s, ByCommand(admission));
  }

  /** What a channel looks like once the active chat requests outside `left` were told about a failure. */
  function Told(w: Wires, core: Core, capacity: nat, e: ExternalId, left: set<EngineId>, message: string): Channel
    requires e in w.channels
  {
    if e in core.byExternal && core.byExternal[e] in core.active && core.byExternal[e] !in left
    then w.channels[e].Offer(Error(message), !Refuses(w, capacity, e)) else w.channels[e]
  }

  /** Every active chat request outside `left`, and no other, was offered the error once. */
  ghost predicate AllTold(s: State, channels: map<ExternalId, Channel>, left: set<EngineId>, message: string) {
    && channels.Keys == s.wires.channels.Keys
    && forall e :: e in channels ==> channels[e] == Told(s.wires, s.core, s.capacity, e, left, message)
  }

  ghost predicate Telling(s: State, w: Wires, left: set<EngineId>, message: string) {
    AllTold(s, w.channels, left, message) && w.slots == s.wires.slots
  }

  lemma AgreeIn(s: State)
    requires Sound(s)
    ensures s.core.Agree()
  {
  }

  lemma TellStart(s: State, message: string)
    ensures Telling(s, s.wires, s.core.active.Keys, message)
  {
  }

  lemma TellKeys(s: State, w: Wires, left: set<EngineId>, message: string)
    requires Telling(s, w, left, message)
    ensures w.channels.Keys == s.wires.channels.Keys
  {
  }

  /** Only the tables, the wires and the capacity matter. */
  lemma ToldFrom(s: State, t: State, channels: map<ExternalId, Channel>, message: string)
    requires AllTold(s, channels, {}, message)
    requires (t.wires, t.core, t.capacity) == (s.wires, s.core, s.capacity)
    ensures AllTold(t, channels, {}, message)
  {
  }

  lemma TellOne(s: State, w: Wires, left: set<EngineId>, k: EngineId, message: string)
    requires s.core.Agree() && Telling(s, w, left, message) && k in left && k in s.core.active
    requires s.core.active[k] in w.channels
    ensures Telling(s, TrySend(w, s.capacity, s.core.active[k], Error(message)), left - {k}, message)
  {
    var u := TrySend(w, s.capacity, s.core.active[k], Error(message));
    SendKeys(w, s.capacity, s.core.active[k], Error(message));
    hide Told, TrySend, Core.Agree;
    forall e | e in u.channels ensures u.channels[e] == Told(s.wires, s.core, s.capacity, e, left - {k}, message) {
      OnlyFor(s.core, k, e);
      TellAt(s, w, left, k, e, message);
    }
  }

  lemma SendKeys(w: Wires, capacity: nat, e: ExternalId, event: InferenceEvent)
    requires e in w.channels
    ensures
      var u := TrySend(w, capacity, e, event);
      u.channels.Keys == w.channels.Keys && u.slots == w.slots
  {
  }

  lemma TellAt(s: State, w: Wires, left: set<EngineId>, k: EngineId, e: ExternalId, message: string)
    requires k in s.core.active && k in left && e in w.channels && e in s.wires.channels
    requires s.core.active[k] in w.channels
    requires e == s.core.active[k] <==> e in s.core.byExternal && s.core.byExternal[e] == k
    requires w.channels[e] == Told(s.wires, s.core, s.capacity, e, left, message)
    ensures TrySend(w, s.capacity, s.core.active[k], Error(message)).channels[e]
        == Told(s.wires, s.core, s.capacity, e, left - {k}, message)
  {
  }

  lemma OnlyFor(c: Core, k: EngineId, e: ExternalId)
    requires c.Agree() && k in c.active
    ensures e == c.active[k] <==> e in c.byExternal && c.byExternal[e] == k
  {
    if e in c.byExternal && c.byExternal[e] == k { assert k !in c.decisions.Keys; }
  }

  lemma NotifyIs(s: State, t: State, k: EngineId)
    requires CanPurge(s, NotifyOne(k))
    requires t == State(s.capacity, Notifying(s.phase.left - {k}, s.phase.message), s.core, s.book, s.queue, s.closed,
                        TrySend(s.wires, s.capacity, s.core.active[k], Error(s.phase.message)), s.clients, s.shutdowns)
    ensures t == Purged(s, NotifyOne(k))
  {
    hide TrySend;
  }

  lemma FailIs(s: State, t: State, k: EngineId)
    requires CanPurge(s, FailOne(k)) && s.core.active.Keys !! s.core.decisions.Keys
    requires k in s.core.decisions ==> s.core.decisions[k] in s.wires.slots
    requires t == State(s.capacity, Failing(s.phase.left - {k}, s.phase.message), s.core.FailedOne(k),
                        FateAfter(s.book, s.core, k, Broken(s.phase.message)), s.queue, s.closed,
                        if k in s.core.decisions then Resolve(s.wires, s.core.decisions[k], Undecided(s.phase.message))
                            else s.wires,
                        s.clients, s.shutdowns)
    ensures t == Purged(s, FailOne(k)) && t.wires.channels == s.wires.channels
  {
    hide FateAfter;
    if k in s.core.active { assert k !in s.core.decisions.Keys; }
  }

  function PhaseAfter(s: State, c: Control): Phase
    requires CanControl(s, c)
  {
    match c
    case StartDraining => Drain
    case NothingToDo => Top
    case TickDone(work) => Tick(work, {})
    case TickFailed(message) => Notifying(s.core.active.Keys, message)
    case Sweep(seen) => Cancelling(s.phase.disconnected + seen)
    case EndTick => Top
    case NotifiedAll => Failing(s.core.Ids(), s.phase.message)
    case FailedAll => Top
    case ChannelClosed => Stopping({})
    case ShutDownService => Stopped
  }

  lemma ShutDownIs(s: State)
    requires CanControl(s, ShutDownService)
    ensures Controlled(s, ShutDownService) == s.(phase := Stopped, shutdowns := s.shutdowns + 1)
  {
  }

  lemma ShutDownOnce(s: State)
    requires Sound(s)
    ensures s.shutdowns == if s.phase.Stopped? then 1 else 0
  {
  }

  lemma Controlling(start: State, steps: seq<Action>, s: State, c: Control)
    requires RunFrom(start, steps) == Some(s) && Sound(s) && CanControl(s, c)
    ensures RunFrom(start, steps + [ByControl(c)]) == Some(Controlled(s, c)) && Sound(Controlled(s, c))
  {
    hide Sound, Controlled, CanControl, RunFrom;
    OneMore(start, steps, s, ByControl(c));
    SoundStep(s, ByControl(c));
  }

  lemma Fanning(start: State, steps: seq<Action>, s: State, f: Fan)
    requires RunFrom(start, steps) == Some(s) && Sound(s) && CanFan(s, f)
    ensures RunFrom(start, steps + [ByFan(f)]) == Some(Fanned(s, f)) && Sound(Fanned(s, f))
  {
    hide Sound, Fanned, CanFan, RunFrom;
    OneMore(start, steps, s, ByFan(f));
    SoundStep(s, ByFan(f));
  }

  lemma FinishedIs(s: State, t: State)
    requires CanFan(s, SendFinished)
    requires
      var f := s.phase.work.finished[0];
      var known := f.id in s.core.active;
      t == State(s.capacity, Tick(s.phase.work.(finished := s.phase.work.finished[1..]), s.phase.disconnected),
                 if known then s.core.DropChat(f.id).Bump(1, 0, 0) else s.core,
                 if known then SetFate(s.book, s.core.active[f.id], Ended(f.reason, f.usage)) else s.book,
                 s.queue, s.closed,
                 if known then TrySend(s.wires, s.capacity, s.core.active[f.id], Finished(f.reason, f.usage))
                 else s.wires,
                 s.clients, s.shutdowns)
    ensures t == Fanned(s, SendFinished)
  {
    hide TrySend, SetFate;
  }

  lemma VerdictIs(s: State, t: State)
    requires CanFan(s, Fan.SendVerdict)
    requires
      var v := s.phase.work.decided[0];
      var known := v.id in s.core.decisions;
      t == State(s.capacity, Tick(s.phase.work.(decided := s.phase.work.decided[1..]), s.phase.disconnected),
                 if known then s.core.DropDecision(v.id).Bump(1, 0, 0) else s.core,
                 if known then SetFate(s.book, s.core.decisions[v.id], Answered(v.completion)) else s.book,
                 s.queue, s.closed,
                 if known then Resolve(s.wires, s.core.decisions[v.id], Decided(v.completion)) else s.wires,
                 s.clients, s.shutdowns)
    ensures t == Fanned(s, Fan.SendVerdict)
  {
    hide Resolve, SetFate;
  }

  lemma RefusalIs(s: State, t: State)
    requires CanFan(s, Fan.SendRefusal)
    requires
      var r := s.phase.work.undecided[0];
      var known := r.id in s.core.decisions;
      t == State(s.capacity, Tick(s.phase.work.(undecided := s.phase.work.undecided[1..]), s.phase.disconnected),
                 if known then s.core.DropDecision(r.id).Bump(0, 1, 0) else s.core,
                 if known then SetFate(s.book, s.core.decisions[r.id], Broken(r.message)) else s.book,
                 s.queue, s.closed,
                 if known then Resolve(s.wires, s.core.decisions[r.id], Undecided(r.message)) else s.wires,
                 s.clients, s.shutdowns)
    ensures t == Fanned(s, Fan.SendRefusal)
  {
    hide Resolve, SetFate;
  }

  lemma CancelIs(s: State, t: State, k: EngineId)
    requires CanPurge(s, CancelOne(k))
    requires t == State(s.capacity, Cancelling(s.phase.left - {k}), s.core.Cancelled(k),
        FateAfter(s.book, s.core, k, Withdrawn),
                        s.queue, s.closed, s.wires, s.clients, s.shutdowns)
    ensures t == Purged(s, CancelOne(k))
  {
    hide FateAfter;
  }

  /** Between two tables: only requests in `all` but not `left` are gone, and what remains is unchanged. */
  ghost predicate Cleared(a: Core, b: Core, all: set<EngineId>, left: set<EngineId>) {
    && (forall k :: k in b.Ids() ==> k !in all || k in left)
    && (forall k :: k in b.decisions ==> k in a.decisions && a.decisions[k] == b.decisions[k])
  }

  lemma NothingCleared(c: Core, all: set<EngineId>)
    ensures Cleared(c, c, all, all)
  {
  }

  lemma CancelClears(a: Core, b: Core, all: set<EngineId>, left: set<EngineId>, k: EngineId)
    requires Cleared(a, b, all, left) && b.active.Keys !! b.decisions.Keys
    ensures Cleared(a, b.Cancelled(k), all, left - {k})
  {
    RemovalHitsOnce(b, k);
  }

  /** Cancelling changes no slot, so a decision that was not deserted is not deserted after. */
  lemma AllCleared(s: State, t: State, disconnected: set<EngineId>, deserted: set<EngineId>)
    requires Cleared(s.core, t.core, disconnected + deserted, {}) && deserted == Deserted(s) && t.wires == s.wires
    ensures t.core.Ids() !! disconnected && Deserted(t) == {}
  {
    assert forall k :: k in t.core.decisions ==> k in t.core.Ids() && k !in Deserted(s);
    assert forall k :: k in Deserted(t) ==> k in Deserted(s);
  }

  lemma DeltaIs(s: State, t: State, accepted: bool)
    requires CanFan(s, SendDelta)
    requires
      var work, d := s.phase.work, s.phase.work.output[0];
      var known := d.id in s.core.active;
      && accepted == (known ==> !Refuses(s.wires, s.capacity, s.core.active[d.id]))
      && t == State(s.capacity,
          Tick(work.(output := work.output[1..]), s.phase.disconnected + (if accepted then {} else {d.id})),
                    s.core, s.book, s.queue, s.closed,
                    if known then TrySend(s.wires, s.capacity, s.core.active[d.id], Output(d.event)) else s.wires,
                    s.clients, s.shutdowns)
    ensures t == Fanned(s, SendDelta)
  {
    hide TrySend, Refuses;
    assert s.phase.disconnected + {} == s.phase.disconnected;
  }

  lemma NoPath(s: State)
    ensures RunFrom(s, []) == Some(s)
  {
  }

  lemma StopIs(s: State, t: State, k: EngineId)
    requires CanPurge(s, StopOne(k))
    requires t == State(s.capacity, Stopping(s.phase.left - {k}), s.core.Cancelled(k),
                        FateAfter(s.book, s.core, k, Withdrawn), s.queue, s.closed, s.wires, s.clients, s.shutdowns)
    ensures t == Purged(s, StopOne(k))
  {
    hide FateAfter;
  }

  predicate OnlyCancels(a: Tally, b: Tally) { b == a.(cancelled := b.cancelled) }

  predicate OnlyFails(a: Tally, b: Tally) { b == a.(failed := b.failed) }

  lemma RemovalCounts(c: Core, k: EngineId)
    requires c.active.Keys !! c.decisions.Keys
    ensures OnlyCancels(c.tally, c.Cancelled(k).tally) && OnlyFails(c.tally, c.FailedOne(k).tally)
  {
    RemovalHitsOnce(c, k);
  }

  lemma ChannelOf(s: State, k: EngineId)
    requires Sound(s)
    ensures k in s.core.active ==> s.core.active[k] in s.wires.channels
    ensures k in s.core.decisions ==> s.core.decisions[k] in s.wires.slots
  {
  }

  /** One removal is one enabled step of the machine. */
  lemma Purging(start: State, steps: seq<Action>, s: State, p: Purge)
    requires RunFrom(start, steps) == Some(s) && Sound(s) && CanPurge(s, p)
    ensures RunFrom(start, steps + [ByPurge(p)]) == Some(Purged(s, p)) && Sound(Purged(s, p))
  {
    hide Sound, Purged, CanPurge;
    OneMore(start, steps, s, ByPurge(p));
    SoundStep(s, ByPurge(p));
  }

  /** With nothing left to remove the tables are empty, and conservation says what the counters grew by. */
  lemma NothingLeft(s: State, t: State)
    requires Sound(s) && Sound(t) && (t.phase == Stopping({}) || (t.phase.Failing? && t.phase.left == {}))
    ensures t.core.active == map[] && t.core.decisions == map[] && t.core.byExternal == map[]
    ensures t.core.tally.accepted == s.core.tally.accepted ==>
      var a, b := s.core.tally, t.core.tally;
      b.completed + b.failed + b.cancelled
          == a.completed + a.failed + a.cancelled + |s.core.active| + |s.core.decisions|
  {
    var core := t.core;
    assert core.active.Keys <= core.Ids() && core.decisions.Keys <= core.Ids();
    assert forall e :: e in core.byExternal ==> core.byExternal[e] in core.Ids();
    assert core.byExternal.Keys == {};
  }

  lemma DisjointTables(s: State)
    requires Sound(s)
    ensures s.core.active.Keys !! s.core.decisions.Keys
    ensures forall k :: k in s.core.decisions ==> s.core.decisions[k] in s.wires.slots
    ensures forall k :: k in s.core.active ==> s.core.active[k] in s.wires.channels
  {
  }
}
