/** Decisions get one answer: what their one-shot holds is what became of them. */
module ActorDecisions {
  import opened Wrappers
  import opened DecisionModel
  import opened Actor
  import opened ActorTables

  /** The answer a settled decision is owed; waiting, active and withdrawn ones are owed none. */
  function Owed(fate: Fate): Option<Outcome> {
    match fate
    case Answered(completion) => Some(Decided(completion))
    case Broken(message) => Some(Undecided(message))
    case Refused(message) => Some(Undecided(message))
    case _ => None
  }

  /** The slot holds exactly the owed answer, unless the receiver had left before it came. */
  predicate SlotOk(slot: Slot, fate: Fate) {
    && (slot.value.Some? ==> slot.value == Owed(fate))
    && (slot.value.None? && Owed(fate).Some? ==> !slot.open)
    && (slot.taken ==> slot.value.Some?)
  }

  predicate SlotAt(s: State, e: ExternalId) {
    e in s.wires.slots && e in s.book.fates && SlotOk(s.wires.slots[e], s.book.fates[e])
  }

  /** From one state to a later one: the slot is still right, and an answer once given stays. */
  predicate SlotKept(s: State, t: State, e: ExternalId)
    requires e in s.wires.slots
  {
    SlotAt(t, e) && (s.wires.slots[e].value.Some? ==> t.wires.slots[e].value == s.wires.slots[e].value)
  }

  /** Where an engine id and a decision meet: only a decision's own entry points at it, and then it is active. */
  predicate MeetAt(s: State, k: EngineId, e: ExternalId) {
    && (k in s.core.active ==> s.core.active[k] != e && k !in s.core.decisions)
    && (k in s.core.decisions ==> s.core.decisions[k] in s.wires.slots)
    && (k in s.core.decisions && s.core.decisions[k] == e ==> e in s.book.fates && s.book.fates[e].Active?)
  }

  lemma SoundMeetAt(s: State, k: EngineId, e: ExternalId)
    requires Sound(s) && e in s.wires.slots
    ensures MeetAt(s, k, e)
  {
    if k in s.core.active { assert k !in s.core.decisions.Keys; }
  }

  lemma SlotFan(s: State, f: Fan, e: ExternalId)
    requires CanFan(s, f) && SlotAt(s, e)
    requires f.SendDelta? ==> MeetAt(s, s.phase.work.output[0].id, e)
    requires f.SendFinished? ==> MeetAt(s, s.phase.work.finished[0].id, e)
    requires f.SendVerdict? ==> MeetAt(s, s.phase.work.decided[0].id, e)
    requires f.SendRefusal? ==> MeetAt(s, s.phase.work.undecided[0].id, e)
    ensures SlotKept(s, Fanned(s, f), e)
  {
  }

  lemma SlotPurge(s: State, p: Purge, e: ExternalId)
    requires CanPurge(s, p) && SlotAt(s, e) && MeetAt(s, p.k, e)
    ensures SlotKept(s, Purged(s, p), e)
  {
  }

  lemma SlotCommand(s: State, admission: Admission, e: ExternalId)
    requires CanHandle(s, admission) && SlotAt(s, e)
    requires s.queue[0].Submit? ==> s.queue[0].id != e
    requires s.queue[0] == SubmitDecision(e) ==> s.book.fates[e].Waiting?
    requires s.queue[0].Cancel? && s.queue[0].id in s.core.byExternal ==> MeetAt(s, s.core.byExternal[s.queue[0].id], e)
    ensures SlotKept(s, Handled(s, admission), e)
  {
  }

  lemma SlotOutside(s: State, o: Outside, e: ExternalId)
    requires CanAct(s, o) && SlotAt(s, e) && (o.NewChat? || o.NewDecision? ==> e != s.book.next)
    ensures SlotKept(s, Acted(s, o), e)
  {
  }

  lemma SlotControl(s: State, c: Control, e: ExternalId)
    requires CanControl(s, c) && SlotAt(s, e)
    ensures SlotKept(s, Controlled(s, c), e)
  {
  }

  /** What the queue says about a decision. */
  lemma QueueAbout(s: State, e: ExternalId)
    requires Sound(s) && e in s.wires.slots && s.queue != []
    ensures s.queue[0].Submit? ==> s.queue[0].id != e
    ensures s.queue[0] == SubmitDecision(e) ==> s.book.fates[e].Waiting?
    ensures e != s.book.next
  {
    assert Fits(s.queue[0], s.book);
  }

  lemma SlotIsOld(s: State, e: ExternalId)
    requires Sound(s) && e in s.wires.slots
    ensures e != s.book.next
  {
    assert e in s.book.kinds.Keys;
  }

  lemma SlotStep(s: State, a: Action, e: ExternalId)
    requires Sound(s) && Enabled(s, a) && SlotAt(s, e)
    ensures e in s.wires.slots && SlotKept(s, Apply(s, a), e)
  {
    SlotHeld(s, e);
    hide Sound, SlotAt, SlotKept, MeetAt;
    match a
    case ByControl(c) => SlotControl(s, c, e);
    case ByCommand(admission) =>
      QueueAbout(s, e);
      if s.queue[0].Cancel? && s.queue[0].id in s.core.byExternal {
        SoundMeetAt(s, s.core.byExternal[s.queue[0].id], e);
      }
      SlotCommand(s, admission, e);
    case ByFan(f) =>
      if f.SendDelta? { SoundMeetAt(s, s.phase.work.output[0].id, e); }
      if f.SendFinished? { SoundMeetAt(s, s.phase.work.finished[0].id, e); }
      if f.SendVerdict? { SoundMeetAt(s, s.phase.work.decided[0].id, e); }
      if f.SendRefusal? { SoundMeetAt(s, s.phase.work.undecided[0].id, e); }
      SlotFan(s, f, e);
    case ByPurge(p) => SoundMeetAt(s, p.k, e); SlotPurge(s, p, e);
    case ByOutside(o) => SlotIsOld(s, e); SlotOutside(s, o, e);
  }

  lemma SlotHeld(s: State, e: ExternalId)
    requires SlotAt(s, e)
    ensures e in s.wires.slots && e in s.book.fates
  {
  }

  // The actor thread opens no slot.

  lemma ControlKeepsSlots(s: State, c: Control)
    requires CanControl(s, c)
    ensures Controlled(s, c).wires.slots.Keys == s.wires.slots.Keys
  {
  }

  lemma CommandKeepsSlots(s: State, admission: Admission)
    requires CanHandle(s, admission)
    ensures Handled(s, admission).wires.slots.Keys == s.wires.slots.Keys
  {
  }

  lemma FanKeepsSlots(s: State, f: Fan)
    requires CanFan(s, f)
    ensures Fanned(s, f).wires.slots.Keys == s.wires.slots.Keys
  {
  }

  lemma PurgeKeepsSlots(s: State, p: Purge)
    requires CanPurge(s, p)
    ensures Purged(s, p).wires.slots.Keys == s.wires.slots.Keys
  {
  }

  lemma OutsideNewSlot(s: State, o: Outside, e: ExternalId)
    requires CanAct(s, o) && e in Acted(s, o).wires.slots && e !in s.wires.slots
    ensures SlotAt(Acted(s, o), e)
  {
  }

  /** A slot appears only with its decision, empty. */
  lemma SlotNew(s: State, a: Action, e: ExternalId)
    requires Enabled(s, a) && e in Apply(s, a).wires.slots && e !in s.wires.slots
    ensures SlotAt(Apply(s, a), e)
  {
    assert e !in s.wires.slots.Keys && e in Apply(s, a).wires.slots.Keys;
    hide Controlled, Handled, Fanned, Purged, Acted, SlotAt;
    match a
    case ByControl(c) => ControlKeepsSlots(s, c);
    case ByCommand(admission) => CommandKeepsSlots(s, admission);
    case ByFan(f) => FanKeepsSlots(s, f);
    case ByPurge(p) => PurgeKeepsSlots(s, p);
    case ByOutside(o) => OutsideNewSlot(s, o, e);
  }

  lemma SlotNext(states: seq<State>, actions: seq<Action>, i: nat, e: ExternalId)
    requires IsRun(states, actions) && i < |actions| && e in states[i + 1].wires.slots
    requires e in states[i].wires.slots ==> SlotAt(states[i], e)
    ensures SlotAt(states[i + 1], e)
  {
    hide Sound, SlotAt, Enabled, Apply;
    EveryStateSound(states, actions, i);
    if e in states[i].wires.slots { SlotStep(states[i], actions[i], e); } else { SlotNew(states[i], actions[i], e); }
  }

  /** In every state of every run, a decision's one-shot holds exactly what became of the decision, so a handler that
      takes an answer takes the right one; a settled decision without an answer had lost its receiver first. */
  lemma {:induction false} EveryDecisionTold(states: seq<State>, actions: seq<Action>, i: nat, e: ExternalId)
    requires IsRun(states, actions) && i < |states| && e in states[i].wires.slots
    ensures SlotAt(states[i], e)
  {
    hide SlotAt, StepOf;
    if i > 0 {
      if e in states[i - 1].wires.slots { EveryDecisionTold(states, actions, i - 1, e); }
      SlotNext(states, actions, i - 1, e);
    }
  }

  lemma RunKeepsSlot(states: seq<State>, actions: seq<Action>, i: nat, e: ExternalId)
    requires IsRun(states, actions) && i < |actions| && e in states[i].wires.slots
    ensures SlotKept(states[i], states[i + 1], e)
  {
    hide Sound, SlotAt, SlotKept, Enabled, Apply;
    EveryStateSound(states, actions, i);
    EveryDecisionTold(states, actions, i, e);
    SlotStep(states[i], actions[i], e);
  }

  lemma KeptAnswer(s: State, t: State, e: ExternalId)
    requires e in s.wires.slots && SlotKept(s, t, e)
    ensures e in t.wires.slots && (s.wires.slots[e].value.Some? ==> t.wires.slots[e].value == s.wires.slots[e].value)
  {
  }

  /** Once given, a decision's answer never changes for the rest of the run. */
  lemma {:induction false} AnswerStays(states: seq<State>, actions: seq<Action>, i: nat, j: nat, e: ExternalId)
    requires IsRun(states, actions) && i <= j < |states| && e in states[i].wires.slots
    requires states[i].wires.slots[e].value.Some?
    ensures e in states[j].wires.slots && states[j].wires.slots[e].value == states[i].wires.slots[e].value
    decreases j
  {
    hide SlotKept, StepOf;
    if i < j {
      AnswerStays(states, actions, i, j - 1, e);
      RunKeepsSlot(states, actions, j - 1, e);
      KeptAnswer(states[j - 1], states[j], e);
    }
  }
}
