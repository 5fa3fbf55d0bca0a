/** When a tick loses events: the room left in a request's channel against what the tick still has for it. */
module ActorRoom {
  import opened Wrappers
  import opened ChatModel
  import opened DecisionModel
  import opened Actor
  import opened ActorTables
  import opened ActorDelivery

  predicate EndsFor(finished: seq<Ending>, k: EngineId) {
    finished != [] && (finished[0].id == k || EndsFor(finished[1..], k))
  }

  /** How many events the current tick still has for a chat request: its deltas, and its end if it ends. */
  function Due(phase: Phase, core: Core, e: ExternalId): nat {
    if phase.Tick? && e in core.byExternal && core.byExternal[e] in core.active then
      var k := core.byExternal[e];
      |For(phase.work.output, k)| + (if EndsFor(phase.work.finished, k) then 1 else 0)
    else 0
  }

  /** The events a channel holds that were not received yet. */
  function Held(c: Channel): int { |c.sent| - c.taken }

  /** One step inside a tick: nothing is sent to the request, or one of the events due is offered to its channel and is
      accepted exactly when the receiver is there and has room. Meanwhile the receiver may take events or leave. */
  predicate TickMoves(s: State, t: State, e: ExternalId)
    requires e in s.wires.channels
  {
    && e in t.wires.channels && t.capacity == s.capacity
    && var c, d := s.wires.channels[e], t.wires.channels[e];
    var before, after := Due(s.phase, s.core, e), Due(t.phase, t.core, e);
    && c.taken <= d.taken && (d.open ==> c.open)
    && (if after == before then |d.sent| == |c.sent| && d.lost == c.lost
        else
          var refused := Refuses(s.wires, s.capacity, e);
          && after == before - 1 && d.taken == c.taken && d.open == c.open && d.lost == (c.lost || refused)
          && |d.sent| == |c.sent| + (if refused then 0 else 1))
  }

  // ---------------------------------------------------------------- one step of a tick

  lemma FanMoves(s: State, f: Fan, e: ExternalId)
    requires CanFan(s, f) && PlaceAt(s, e)
    requires f.SendDelta? ==> KeyAt(s, s.phase.work.output[0].id)
    requires f.SendFinished? ==> KeyAt(s, s.phase.work.finished[0].id)
    requires f.SendVerdict? ==> KeyAt(s, s.phase.work.decided[0].id)
    requires f.SendRefusal? ==> KeyAt(s, s.phase.work.undecided[0].id)
    ensures TickMoves(s, Fanned(s, f), e)
  {
    match f
    case SendDelta => DeltaMoves(s, e);
    case SendFinished => FinishedMoves(s, e);
    case SendVerdict =>
    case SendRefusal =>
  }

  lemma DeltaMoves(s: State, e: ExternalId)
    requires CanFan(s, SendDelta) && PlaceAt(s, e) && KeyAt(s, s.phase.work.output[0].id)
    ensures TickMoves(s, DeltaSent(s), e)
  {
  }

  lemma FinishedMoves(s: State, e: ExternalId)
    requires CanFan(s, SendFinished) && PlaceAt(s, e) && KeyAt(s, s.phase.work.finished[0].id)
    ensures TickMoves(s, FinishedSent(s), e)
  {
  }

  lemma OutsideMoves(s: State, o: Outside, e: ExternalId)
    requires CanAct(s, o) && PlaceAt(s, e) && (o.NewChat? || o.NewDecision? ==> e != s.book.next)
    ensures TickMoves(s, Acted(s, o), e)
  {
  }

  lemma SweepMoves(s: State, c: Control, e: ExternalId)
    requires CanControl(s, c) && s.phase.Tick? && PlaceAt(s, e)
    ensures TickMoves(s, Controlled(s, c), e) && Controlled(s, c).phase.Cancelling?
  {
  }

  lemma FanTickStep(s: State, f: Fan, e: ExternalId)
    requires Sound(s) && CanFan(s, f) && PlaceAt(s, e)
    ensures TickMoves(s, Fanned(s, f), e)
  {
    hide Sound, TickMoves, Fanned;
    if f.SendDelta? { SoundKeyAt(s, s.phase.work.output[0].id); }
    if f.SendFinished? { SoundKeyAt(s, s.phase.work.finished[0].id); }
    if f.SendVerdict? { SoundKeyAt(s, s.phase.work.decided[0].id); }
    if f.SendRefusal? { SoundKeyAt(s, s.phase.work.undecided[0].id); }
    FanMoves(s, f, e);
  }

  /** Inside a tick the thread only fans out, or sweeps. */
  lemma TickActions(s: State, a: Action)
    requires Enabled(s, a) && s.phase.Tick?
    ensures a.ByControl? || a.ByFan? || a.ByOutside?
  {
  }

  lemma TickStep(s: State, a: Action, e: ExternalId)
    requires Sound(s) && Enabled(s, a) && s.phase.Tick? && e in s.wires.channels
    ensures TickMoves(s, Apply(s, a), e)
  {
    hide Sound, TickMoves, PlaceAt, Controlled, Fanned, Acted, CanControl, CanFan, CanAct;
    SoundPlaceAt(s, e);
    TickActions(s, a);
    if a.ByControl? {
      SweepMoves(s, a.control, e);
    } else if a.ByFan? {
      FanTickStep(s, a.fan, e);
    } else {
      ChannelsAreOld(s, e);
      OutsideMoves(s, a.outside, e);
    }
  }

  lemma ChannelsAreOld(s: State, e: ExternalId)
    requires Sound(s) && e in s.wires.channels
    ensures e != s.book.next
  {
    assert e in s.book.kinds.Keys;
  }

  // ---------------------------------------------------------------- whole ticks

  /** From state i to state j the thread is inside one tick, which may have just ended at j. */
  ghost predicate WithinTick(states: seq<State>, i: nat, j: nat) {
    i <= j < |states| && forall m :: i <= m < j ==> states[m].phase.Tick?
  }

  /** Over any part of a tick: everything that was due and is no longer was sent, if at the start it fits the free
      room and the receiver stays; nothing is sent to a receiver that had left; and what is not sent is lost. */
  ghost predicate TickProgress(s: State, t: State, e: ExternalId)
    requires e in s.wires.channels
  {
    && e in t.wires.channels && t.capacity == s.capacity
    && var c, d := s.wires.channels[e], t.wires.channels[e];
    var before, after := Due(s.phase, s.core, e), Due(t.phase, t.core, e);
    && after <= before && c.taken <= d.taken && (d.open ==> c.open)
    && (d.open && Held(c) + before <= s.capacity ==> d.lost == c.lost && Held(d) + after <= s.capacity)
    && (!c.open ==> |d.sent| == |c.sent|)
    && (!d.lost ==> !c.lost && |d.sent| + after == |c.sent| + before)
    && (after == before ==> d.lost == c.lost)
  }

  lemma ProgressStarts(s: State, e: ExternalId)
    requires e in s.wires.channels
    ensures TickProgress(s, s, e)
  {
  }

  lemma ProgressGrows(s: State, m: State, t: State, e: ExternalId)
    requires e in s.wires.channels && TickProgress(s, m, e) && TickMoves(m, t, e)
    ensures TickProgress(s, t, e)
  {
    hide Due;
  }

  lemma {:induction false} TickRun(states: seq<State>, actions: seq<Action>, i: nat, j: nat, e: ExternalId)
    requires IsRun(states, actions) && WithinTick(states, i, j) && e in states[i].wires.channels
    ensures TickProgress(states[i], states[j], e)
    decreases j
  {
    hide Sound, TickProgress, TickMoves, Enabled, Apply;
    if i == j {
      ProgressStarts(states[i], e);
    } else {
      TickRun(states, actions, i, j - 1, e);
      ProgressKeepsChannel(states[i], states[j - 1], e);
      EveryStateSound(states, actions, j - 1);
      TickStep(states[j - 1], actions[j - 1], e);
      ProgressGrows(states[i], states[j - 1], states[j], e);
    }
  }

  lemma ProgressKeepsChannel(s: State, t: State, e: ExternalId)
    requires e in s.wires.channels && TickProgress(s, t, e)
    ensures e in t.wires.channels
  {
  }

  /** What is left of a tick once it has been fanned out: nothing. */
  lemma NothingDue(s: State, e: ExternalId)
    requires !s.phase.Tick?
    ensures Due(s.phase, s.core, e) == 0
  {
  }

  lemma FullChannelLoses(s: State, t: State, e: ExternalId)
    requires e in s.wires.channels && TickProgress(s, t, e) && Due(t.phase, t.core, e) == 0
    requires |t.wires.channels[e].sent| <= t.wires.channels[e].taken + t.capacity && !s.wires.channels[e].lost
    ensures
      var c, d, due := s.wires.channels[e], t.wires.channels[e], Due(s.phase, s.core, e);
      && (d.open && Held(c) + due <= s.capacity ==> !d.lost)
      && (d.taken == c.taken && d.open == c.open ==>
           (d.lost <==> due > 0 && (!c.open || Held(c) + due > s.capacity)))
  {
    hide Due;
  }

  /** When a tick loses something, from any point of the tick to its end and over every interleaving. If the free room
      covers the events due and the receiver stays, nothing is lost, whatever the receiver takes meanwhile. If the
      receiver does nothing meanwhile, something is lost if and only if something is due and the receiver had left or
      the room is too small: a condition on the state before the sends. */
  lemma TickLosesIff(states: seq<State>, actions: seq<Action>, i: nat, j: nat, e: ExternalId)
    requires IsRun(states, actions) && WithinTick(states, i, j) && !states[j].phase.Tick?
    requires e in states[i].wires.channels && !states[i].wires.channels[e].lost
    ensures
      var s, t := states[i], states[j];
      && e in t.wires.channels
      && var c, d, due := s.wires.channels[e], t.wires.channels[e], Due(s.phase, s.core, e);
      && (d.open && Held(c) + due <= s.capacity ==> !d.lost)
      && (d.taken == c.taken && d.open == c.open ==>
           (d.lost <==> due > 0 && (!c.open || Held(c) + due > s.capacity)))
  {
    hide Due, TickProgress, WithinTick, IsRun;
    TickRun(states, actions, i, j, e);
    EndsInRun(states, i, j);
    ProgressKeepsChannel(states[i], states[j], e);
    ExactDelivery(states, actions, j, e);
    NothingDue(states[j], e);
    FullChannelLoses(states[i], states[j], e);
  }

  lemma EndsInRun(states: seq<State>, i: nat, j: nat)
    requires WithinTick(states, i, j)
    ensures i <= j < |states|
  {
  }

  /** At the start of a tick the events due to an active chat request are its deltas and, if it finishes, its end. */
  lemma DueAtTick(s: State, work: Work, e: ExternalId)
    requires CanControl(s, TickDone(work)) && e in s.core.byExternal && s.core.byExternal[e] in s.core.active
    ensures
      var t, k := Controlled(s, TickDone(work)), s.core.byExternal[e];
      && t.wires.channels == s.wires.channels
      && Due(t.phase, t.core, e) == |For(work.output, k)| + (if EndsFor(work.finished, k) then 1 else 0)
      && (EndsFor(work.finished, k) <==> exists f :: f in work.finished && f.id == k)
  {
    EndsForMember(work.finished, s.core.byExternal[e]);
  }

  lemma {:induction false} EndsForMember(finished: seq<Ending>, k: EngineId)
    ensures EndsFor(finished, k) <==> exists f :: f in finished && f.id == k
  {
    if finished != [] {
      EndsForMember(finished[1..], k);
      assert finished == [finished[0]] + finished[1..];
    }
  }
}
