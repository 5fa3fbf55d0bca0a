/** The inference actor: one thread, three maps, a command queue, and one channel per request. */
module Actor {
  import opened Wrappers
  import opened ChatModel
  import opened DecisionModel

  type ExternalId = nat
  type EngineId = nat

  datatype Command = Submit(id: ExternalId) | SubmitDecision(id: ExternalId) | Cancel(id: ExternalId) | Shutdown

  // ---------------------------------------------------------------- the actor's own tables

  datatype Tally = Tally(accepted: nat, completed: nat, failed: nat, cancelled: nat)

  /** The maps the actor thread owns, with the counters it bumps as it changes them. */
  datatype Core = Core(
    active: map<EngineId, ExternalId>,
    decisions: map<EngineId, ExternalId>,
    byExternal: map<ExternalId, EngineId>,
    tally: Tally)
  {
    function Ids(): set<EngineId> { active.Keys + decisions.Keys }

    predicate Idle() { active == map[] && decisions == map[] }

    /** The external map is the inverse of the two disjoint engine maps taken together. */
    ghost predicate Agree() {
      && active.Keys !! decisions.Keys
      && (forall k :: k in active ==> active[k] in byExternal && byExternal[active[k]] == k)
      && (forall k :: k in decisions ==> decisions[k] in byExternal && byExternal[decisions[k]] == k)
      && (forall e :: e in byExternal ==>
           var k := byExternal[e]; (k in active && active[k] == e) || (k in decisions && decisions[k] == e))
    }

    ghost predicate Conserved() {
      tally.accepted == tally.completed + tally.failed + tally.cancelled + |active| + |decisions|
    }

    function AddChat(e: ExternalId, k: EngineId): Core {
      Core(active[k := e], decisions, byExternal[e := k], tally.(accepted := tally.accepted + 1))
    }

    function AddDecision(e: ExternalId, k: EngineId): Core {
      Core(active, decisions[k := e], byExternal[e := k], tally.(accepted := tally.accepted + 1))
    }

    function Bump(completed: nat, failed: nat, cancelled: nat): Core {
      this.(tally := Tally(tally.accepted, tally.completed + completed, tally.failed + failed,
          tally.cancelled + cancelled))
    }

    function DropChat(k: EngineId): Core
      requires k in active
    {
      this.(active := active - {k}, byExternal := byExternal - {active[k]})
    }

    function DropDecision(k: EngineId): Core
      requires k in decisions
    {
      this.(decisions := decisions - {k}, byExternal := byExternal - {decisions[k]})
    }

    /** Cancelling looks in both maps, one after the other. */
    function Cancelled(k: EngineId): Core {
      var c := if k in active then DropChat(k).Bump(0, 0, 1) else this;
      if k in c.decisions then c.DropDecision(k).Bump(0, 0, 1) else c
    }

    function FailedOne(k: EngineId): Core {
      var c := if k in active then DropChat(k).Bump(0, 1, 0) else this;
      if k in c.decisions then c.DropDecision(k).Bump(0, 1, 0) else c
    }
  }

  const NO_REQUESTS := Core(map[], map[], map[], Tally(0, 0, 0, 0))

  lemma DropChatAgrees(c: Core, k: EngineId)
    requires c.Agree() && k in c.active
    ensures c.DropChat(k).Agree() && c.DropChat(k).Ids() == c.Ids() - {k}
  {
    assert (c.active - {k}).Keys == c.active.Keys - {k};
  }

  lemma DropChatCounts(c: Core, k: EngineId)
    requires k in c.active
    ensures |c.DropChat(k).active| == |c.active| - 1
  {
    assert (c.active - {k}).Keys == c.active.Keys - {k};
    assert |c.active - {k}| == |(c.active - {k}).Keys| && |c.active| == |c.active.Keys|;
  }

  lemma DropDecisionAgrees(c: Core, k: EngineId)
    requires c.Agree() && k in c.decisions
    ensures c.DropDecision(k).Agree() && c.DropDecision(k).Ids() == c.Ids() - {k}
  {
    assert (c.decisions - {k}).Keys == c.decisions.Keys - {k};
  }

  lemma DropDecisionCounts(c: Core, k: EngineId)
    requires k in c.decisions
    ensures |c.DropDecision(k).decisions| == |c.decisions| - 1
  {
    assert (c.decisions - {k}).Keys == c.decisions.Keys - {k};
    assert |c.decisions - {k}| == |(c.decisions - {k}).Keys| && |c.decisions| == |c.decisions.Keys|;
  }

  /** With disjoint maps only one of the two look-ups can hit. */
  lemma RemovalHitsOnce(c: Core, k: EngineId)
    requires c.active.Keys !! c.decisions.Keys
    ensures k !in c.Ids() ==> c.Cancelled(k) == c == c.FailedOne(k)
    ensures k in c.active ==>
        c.Cancelled(k) == c.DropChat(k).Bump(0, 0, 1) && c.FailedOne(k) == c.DropChat(k).Bump(0, 1, 0)
    ensures k in c.decisions ==>
              c.Cancelled(k) == c.DropDecision(k).Bump(0, 0, 1) && c.FailedOne(k) == c.DropDecision(k).Bump(0, 1, 0)
  {
    if k in c.active { assert k !in c.decisions.Keys; }
  }

  /** Cancelling or failing one engine id removes that request and no other. */
  lemma RemovalAgrees(c: Core, k: EngineId)
    requires c.Agree()
    ensures c.Cancelled(k).Agree() && c.Cancelled(k).Ids() == c.Ids() - {k}
    ensures c.FailedOne(k).Agree() && c.FailedOne(k).Ids() == c.Ids() - {k}
  {
    RemovalHitsOnce(c, k);
    if k in c.active {
      DropChatAgrees(c, k);
    } else if k in c.decisions {
      DropDecisionAgrees(c, k);
    }
  }

  /** Removal keeps every accepted submission accounted for. */
  lemma RemovalConserves(c: Core, k: EngineId)
    requires c.active.Keys !! c.decisions.Keys && c.Conserved()
    ensures c.Cancelled(k).Conserved() && c.FailedOne(k).Conserved()
  {
    RemovalHitsOnce(c, k);
    if k in c.active {
      DropChatCounts(c, k);
    } else if k in c.decisions {
      DropDecisionCounts(c, k);
    }
  }

  lemma AddChatAgrees(c: Core, e: ExternalId, k: EngineId)
    requires c.Agree() && e !in c.byExternal && k !in c.active && k !in c.decisions
    ensures c.AddChat(e, k).Agree()
  {
  }

  lemma AddChatCounts(c: Core, e: ExternalId, k: EngineId)
    requires k !in c.active
    ensures c.AddChat(e, k).Ids() == c.Ids() + {k} && |c.AddChat(e, k).active| == |c.active| + 1
  {
  }

  lemma AddDecisionAgrees(c: Core, e: ExternalId, k: EngineId)
    requires c.Agree() && e !in c.byExternal && k !in c.active && k !in c.decisions
    ensures c.AddDecision(e, k).Agree()
  {
  }

  lemma AddDecisionCounts(c: Core, e: ExternalId, k: EngineId)
    requires k !in c.decisions
    ensures c.AddDecision(e, k).Ids() == c.Ids() + {k} && |c.AddDecision(e, k).decisions| == |c.decisions| + 1
  {
  }

  // ---------------------------------------------------------------- channels and clients

  /** A bounded event channel. `sent` is everything it ever accepted, of which the first `taken` were received;
      `offered` are the output events handed to it, and `lost` says some send was refused. */
  datatype Channel = Channel(
    sent: seq<InferenceEvent>, offered: seq<OutputEvent>, taken: nat, open: bool, lost: bool)
  {
    predicate Full(capacity: nat) { |sent| - taken >= capacity }

    /** The sender offers an event, which is accepted or lost. */
    function Offer(event: InferenceEvent, accepted: bool): Channel {
      Channel(if accepted then sent + [event] else sent,
              if event.Output? then offered + [event.event] else offered,
              taken, open, lost || !accepted)
    }
  }

  /** A one-shot result. */
  datatype Slot = Slot(value: Option<Outcome>, taken: bool, open: bool)

  /** An HTTP handler's progress: before its guard exists, looping with the guard armed, holding the terminal event
      with the guard still armed, over (having consumed a terminal event or not), or gone before it ever started. */
  datatype Client = Queued | Running | Satisfied | Over(consumed: bool) | NeverStarted

  datatype Kind = Chat | Decision

  /** What became of a submission. */
  datatype Fate =
    | Waiting
    | Active
    | Ended(reason: FinishReason, usage: Usage)
    | Answered(completion: Completion)
    | Broken(message: string)
    | Refused(message: string)
    | Withdrawn

  // ---------------------------------------------------------------- the whole system

  datatype Delta = Delta(id: EngineId, event: OutputEvent)
  datatype Ending = Ending(id: EngineId, reason: FinishReason, usage: Usage)
  datatype Verdict = Verdict(id: EngineId, completion: Completion)
  datatype Refusal = Refusal(id: EngineId, message: string)

  /** What remains to be fanned out of one successful tick, in the order it is done. */
  datatype Work = Work(output: seq<Delta>, finished: seq<Ending>, decided: seq<Verdict>, undecided: seq<Refusal>)

  /** Where the actor thread is in its loop. Every send and every removal is a step of its own,
      so clients may act between any two of them. */
  datatype Phase =
    | Top
    | Drain
    | Tick(work: Work, disconnected: set<EngineId>)
    | Cancelling(left: set<EngineId>)
    | Notifying(left: set<EngineId>, message: string)
    | Failing(left: set<EngineId>, message: string)
    | Stopping(left: set<EngineId>)
    | Stopped

  /** Every submission ever made, its kind and its fate, and the engine ids handed out so far. */
  datatype Book = Book(
    next: ExternalId, kinds: map<ExternalId, Kind>, fates: map<ExternalId, Fate>, issued: set<EngineId>)

  /** The receiving sides, and what the engine has produced for each submission while it was active. */
  datatype Wires = Wires(
    channels: map<ExternalId, Channel>, slots: map<ExternalId, Slot>, emitted: map<ExternalId, seq<OutputEvent>>)

  datatype State = State(
    capacity: nat,
    phase: Phase,
    core: Core,
    book: Book,
    queue: seq<Command>,
    closed: bool,
    wires: Wires,
    clients: map<ExternalId, Client>,
    shutdowns: nat)

  function Init(capacity: nat): State {
    State(capacity, Top, NO_REQUESTS, Book(1, map[], map[], {}), [], false, Wires(map[], map[], map[]), map[], 0)
  }

  // ---------------------------------------------------------------- pieces of steps

  predicate Refuses(w: Wires, capacity: nat, e: ExternalId)
    requires e in w.channels
  {
    !w.channels[e].open || w.channels[e].Full(capacity)
  }

  /** A send that never blocks: it fails when the receiver is gone or the channel is full. */
  function TrySend(w: Wires, capacity: nat, e: ExternalId, event: InferenceEvent): Wires
    requires e in w.channels
  {
    w.(channels := w.channels[e := w.channels[e].Offer(event, !Refuses(w, capacity, e))])
  }

  /** A one-shot send is lost on a receiver that is gone. */
  function Resolve(w: Wires, e: ExternalId, outcome: Outcome): Wires
    requires e in w.slots
  {
    var slot := w.slots[e];
    if slot.open then w.(slots := w.slots[e := slot.(value := Some(outcome))]) else w
  }

  function SetFate(b: Book, e: ExternalId, fate: Fate): Book { b.(fates := b.fates[e := fate]) }

  /** Commands sent after the actor thread is gone are dropped. */
  function Enqueue(s: State, c: Command): seq<Command> {
    if s.phase.Stopped? then s.queue else s.queue + [c]
  }

  /** The deltas of a tick that belong to one engine id, in order. */
  function For(output: seq<Delta>, k: EngineId): seq<OutputEvent> {
    if output == [] then []
    else (if output[0].id == k then [output[0].event] else []) + For(output[1..], k)
  }

  function EngineEmits(w: Wires, core: Core, output: seq<Delta>): Wires {
    w.(emitted := map e | e in w.emitted ::
         w.emitted[e] + (if e in core.byExternal then For(output, core.byExternal[e]) else []))
  }

  /** Marks the receiving end of a request as gone. */
  function Hang(w: Wires, e: ExternalId): Wires {
    Wires(if e in w.channels then w.channels[e := w.channels[e].(open := false)] else w.channels,
          if e in w.slots then w.slots[e := w.slots[e].(open := false)] else w.slots,
          w.emitted)
  }

  // ---------------------------------------------------------------- removing requests

  function FateAfter(b: Book, core: Core, k: EngineId, fate: Fate): Book {
    if k in core.active then SetFate(b, core.active[k], fate)
    else if k in core.decisions then SetFate(b, core.decisions[k], fate)
    else b
  }

  function CancelRequest(s: State, k: EngineId): State {
    s.(core := s.core.Cancelled(k), book := FateAfter(s.book, s.core, k, Withdrawn))
  }

  /** A request removed because its tick failed; a decision is told, a chat request was told already. */
  function FailRequest(s: State, k: EngineId, message: string): State {
    s.(core := s.core.FailedOne(k),
       book := FateAfter(s.book, s.core, k, Broken(message)),
       wires :=
         if k !in s.core.active && k in s.core.decisions && s.core.decisions[k] in s.wires.slots
         then Resolve(s.wires, s.core.decisions[k], Undecided(message)) else s.wires)
  }

  // ---------------------------------------------------------------- commands

  /** The engine's answer to an admission request. */
  datatype Admission = Admitted(id: EngineId) | Rejected(message: string)

  function HandleSubmit(s: State, e: ExternalId, admission: Admission): State
    requires e in s.wires.channels
  {
    match admission
    case Admitted(k) =>
      s.(core := s.core.AddChat(e, k), book := SetFate(s.book, e, Active).(issued := s.book.issued + {k}))
    case Rejected(message) =>
      s.(book := SetFate(s.book, e, Refused(message)), wires := TrySend(s.wires, s.capacity, e, Error(message)))
  }

  function HandleSubmitDecision(s: State, e: ExternalId, admission: Admission): State
    requires e in s.wires.slots
  {
    match admission
    case Admitted(k) =>
      s.(core := s.core.AddDecision(e, k), book := SetFate(s.book, e, Active).(issued := s.book.issued + {k}))
    case Rejected(message) =>
      s.(book := SetFate(s.book, e, Refused(message)), wires := Resolve(s.wires, e, Undecided(message)))
  }

  /** Cancelling an unknown or finished request does nothing. */
  function HandleCancel(s: State, e: ExternalId): State {
    if e in s.core.byExternal then CancelRequest(s, s.core.byExternal[e]) else s
  }

  predicate CanHandle(s: State, admission: Admission) {
    && s.queue != [] && (s.phase.Drain? || (s.phase.Top? && s.core.Idle()))
    && (s.queue[0].Submit? ==> s.queue[0].id in s.wires.channels)
    && (s.queue[0].SubmitDecision? ==> s.queue[0].id in s.wires.slots)
    && (admission.Admitted? ==> admission.id !in s.book.issued)
  }

  function Handled(s: State, admission: Admission): State
    requires CanHandle(s, admission)
  {
    var t := s.(queue := s.queue[1..], phase := Drain);
    match s.queue[0]
    case Submit(e) => HandleSubmit(t, e, admission)
    case SubmitDecision(e) => HandleSubmitDecision(t, e, admission)
    case Cancel(e) => HandleCancel(t, e)
    case Shutdown => t.(phase := Stopping(t.core.Ids()))
  }

  // ---------------------------------------------------------------- control flow of the loop

  datatype Control =
    | StartDraining
    | NothingToDo
    | TickDone(work: Work)
    | TickFailed(message: string)
    | Sweep(seen: set<EngineId>)
    | EndTick
    | NotifiedAll
    | FailedAll
    | ChannelClosed
    | ShutDownService

  predicate CanControl(s: State, c: Control) {
    match c
    case StartDraining => s.phase.Top? && !s.core.Idle()
    case NothingToDo => s.phase.Drain? && s.queue == [] && s.core.Idle()
    case TickDone(_) => s.phase.Drain? && s.queue == [] && !s.core.Idle()
    case TickFailed(_) => s.phase.Drain? && s.queue == [] && !s.core.Idle()
    case Sweep(seen) => s.phase.Tick? && s.phase.work == Work([], [], [], []) && seen <= Deserted(s)
    case EndTick => s.phase.Cancelling? && s.phase.left == {}
    case NotifiedAll => s.phase.Notifying? && s.phase.left == {}
    case FailedAll => s.phase.Failing? && s.phase.left == {}
    case ChannelClosed => s.phase.Top? && s.core.Idle() && s.queue == [] && s.closed
    case ShutDownService => s.phase.Stopping? && s.phase.left == {}
  }

  /** Decisions whose handler is gone. */
  function Deserted(s: State): set<EngineId> {
    set k | k in s.core.decisions && s.core.decisions[k] in s.wires.slots && !s.wires.slots[s.core.decisions[k]].open
  }

  function Controlled(s: State, c: Control): State
    requires CanControl(s, c)
  {
    match c
    case StartDraining => s.(phase := Drain)
    case NothingToDo => s.(phase := Top)
    case TickDone(work) => s.(phase := Tick(work, {}), wires := EngineEmits(s.wires, s.core, work.output))
    case TickFailed(message) => s.(phase := Notifying(s.core.active.Keys, message))
    case Sweep(seen) => s.(phase := Cancelling(s.phase.disconnected + seen))
    case EndTick => s.(phase := Top)
    case NotifiedAll => s.(phase := Failing(s.core.Ids(), s.phase.message))
    case FailedAll => s.(phase := Top)
    case ChannelClosed => s.(phase := Stopping({}))
    case ShutDownService => s.(phase := Stopped, shutdowns := s.shutdowns + 1)
  }

  // ---------------------------------------------------------------- fanning out a tick

  datatype Fan = SendDelta | SendFinished | SendVerdict | SendRefusal

  predicate CanFan(s: State, f: Fan) {
    && s.phase.Tick?
    && var w := s.phase.work;
    match f
    case SendDelta =>
      w.output != [] && (w.output[0].id in s.core.active ==> s.core.active[w.output[0].id] in s.wires.channels)
    case SendFinished =>
      && w.output == [] && w.finished != []
      && (w.finished[0].id in s.core.active ==> s.core.active[w.finished[0].id] in s.wires.channels)
    case SendVerdict =>
      && w.output == [] && w.finished == [] && w.decided != []
      && (w.decided[0].id in s.core.decisions ==> s.core.decisions[w.decided[0].id] in s.wires.slots)
    case SendRefusal =>
      && w.output == [] && w.finished == [] && w.decided == [] && w.undecided != []
      && (w.undecided[0].id in s.core.decisions ==> s.core.decisions[w.undecided[0].id] in s.wires.slots)
  }

  function DeltaSent(s: State): State
    requires CanFan(s, SendDelta)
  {
    var w := s.phase.work;
    var d, rest := w.output[0], w.(output := w.output[1..]);
    if d.id !in s.core.active then s.(phase := Tick(rest, s.phase.disconnected))
    else
      var e := s.core.active[d.id];
      s.(phase := Tick(rest, s.phase.disconnected + (if Refuses(s.wires, s.capacity, e) then {d.id} else {})),
         wires := TrySend(s.wires, s.capacity, e, Output(d.event)))
  }

  function FinishedSent(s: State): State
    requires CanFan(s, SendFinished)
  {
    var w := s.phase.work;
    var f, phase := w.finished[0], Tick(w.(finished := w.finished[1..]), s.phase.disconnected);
    if f.id !in s.core.active then s.(phase := phase)
    else
      var e := s.core.active[f.id];
      s.(phase := phase, core := s.core.DropChat(f.id).Bump(1, 0, 0),
         book := SetFate(s.book, e, Ended(f.reason, f.usage)),
         wires := TrySend(s.wires, s.capacity, e, Finished(f.reason, f.usage)))
  }

  function VerdictSent(s: State): State
    requires CanFan(s, SendVerdict)
  {
    var w := s.phase.work;
    var v, phase := w.decided[0], Tick(w.(decided := w.decided[1..]), s.phase.disconnected);
    if v.id !in s.core.decisions then s.(phase := phase)
    else
      var e := s.core.decisions[v.id];
      s.(phase := phase, core := s.core.DropDecision(v.id).Bump(1, 0, 0),
         book := SetFate(s.book, e, Answered(v.completion)),
         wires := Resolve(s.wires, e, Decided(v.completion)))
  }

  function RefusalSent(s: State): State
    requires CanFan(s, SendRefusal)
  {
    var w := s.phase.work;
    var r, phase := w.undecided[0], Tick(w.(undecided := w.undecided[1..]), s.phase.disconnected);
    if r.id !in s.core.decisions then s.(phase := phase)
    else
      var e := s.core.decisions[r.id];
      s.(phase := phase, core := s.core.DropDecision(r.id).Bump(0, 1, 0),
         book := SetFate(s.book, e, Broken(r.message)),
         wires := Resolve(s.wires, e, Undecided(r.message)))
  }

  function Fanned(s: State, f: Fan): State
    requires CanFan(s, f)
  {
    match f
    case SendDelta => DeltaSent(s)
    case SendFinished => FinishedSent(s)
    case SendVerdict => VerdictSent(s)
    case SendRefusal => RefusalSent(s)
  }

  // ---------------------------------------------------------------- working through a set of requests

  datatype Purge = CancelOne(k: EngineId) | NotifyOne(k: EngineId) | FailOne(k: EngineId) | StopOne(k: EngineId)

  predicate CanPurge(s: State, p: Purge) {
    match p
    case CancelOne(k) => s.phase.Cancelling? && k in s.phase.left
    case NotifyOne(k) =>
      s.phase.Notifying? && k in s.phase.left && k in s.core.active && s.core.active[k] in s.wires.channels
    case FailOne(k) => s.phase.Failing? && k in s.phase.left
    case StopOne(k) => s.phase.Stopping? && k in s.phase.left
  }

  function Purged(s: State, p: Purge): State
    requires CanPurge(s, p)
  {
    match p
    case CancelOne(k) => CancelRequest(s, k).(phase := Cancelling(s.phase.left - {k}))
    case NotifyOne(k) =>
      s.(wires := TrySend(s.wires, s.capacity, s.core.active[k], Error(s.phase.message)),
         phase := Notifying(s.phase.left - {k}, s.phase.message))
    case FailOne(k) => FailRequest(s, k, s.phase.message).(phase := Failing(s.phase.left - {k}, s.phase.message))
    case StopOne(k) => CancelRequest(s, k).(phase := Stopping(s.phase.left - {k}))
  }

  // ---------------------------------------------------------------- everybody else

  datatype Outside =
    | NewChat
    | NewDecision
    | Begin(e: ExternalId)
    | GiveUpEarly(e: ExternalId)
    | Receive(e: ExternalId)
    | ReceiveOutcome(e: ExternalId)
    | Disarm(e: ExternalId)
    | DropGuard(e: ExternalId)
    | AskShutdown
    | CloseCommands

  predicate CanAct(s: State, o: Outside) {
    match o
    case NewChat => !s.phase.Stopped? && !s.closed
    case NewDecision => !s.phase.Stopped? && !s.closed
    case Begin(e) => e in s.clients && s.clients[e].Queued?
    case GiveUpEarly(e) => e in s.clients && s.clients[e].Queued?
    case Receive(e) =>
      && e in s.clients && s.clients[e].Running? && e in s.wires.channels
      && s.wires.channels[e].taken < |s.wires.channels[e].sent|
    case ReceiveOutcome(e) =>
      && e in s.clients && s.clients[e].Running? && e in s.wires.slots
      && s.wires.slots[e].value.Some? && !s.wires.slots[e].taken
    case Disarm(e) =>
      && e in s.clients && s.clients[e].Satisfied?
      && !(e in s.wires.slots && s.wires.slots[e].value.Some? && s.wires.slots[e].value.value.Undecided?)
    case DropGuard(e) => e in s.clients && (s.clients[e].Running? || s.clients[e].Satisfied?)
    case AskShutdown => !s.closed
    case CloseCommands =>
      !s.closed && forall e :: e in s.clients ==> s.clients[e].Over? || s.clients[e].NeverStarted?
  }

  /** The book after the next identity was given to a new submission. */
  function BookNew(b: Book, kind: Kind): Book {
    Book(b.next + 1, b.kinds[b.next := kind], b.fates[b.next := Waiting], b.issued)
  }

  function WiresNew(w: Wires, e: ExternalId, kind: Kind): Wires {
    Wires(if kind.Chat? then w.channels[e := Channel([], [], 0, true, false)] else w.channels,
          if kind.Decision? then w.slots[e := Slot(None, false, true)] else w.slots,
          w.emitted[e := []])
  }

  /** The counter gives the submission its identity, and the command is queued before the caller gets it back. */
  function Submitted(s: State, kind: Kind): State {
    var e := s.book.next;
    s.(book := BookNew(s.book, kind), wires := WiresNew(s.wires, e, kind), clients := s.clients[e := Queued],
       queue := Enqueue(s, if kind.Chat? then Submit(e) else SubmitDecision(e)))
  }

  /** Takes the next event; a terminal one ends the loop, leaving the guard to be disarmed. */
  function Taken(s: State, e: ExternalId): State
    requires CanAct(s, Receive(e))
  {
    var c := s.wires.channels[e];
    s.(wires := s.wires.(channels := s.wires.channels[e := c.(taken := c.taken + 1)]),
       clients := if c.sent[c.taken].Terminal() then s.clients[e := Satisfied] else s.clients)
  }

  function OutcomeTaken(s: State, e: ExternalId): State
    requires CanAct(s, ReceiveOutcome(e))
  {
    s.(wires := s.wires.(slots := s.wires.slots[e := s.wires.slots[e].(taken := true)]),
       clients := s.clients[e := Satisfied])
  }

  function Acted(s: State, o: Outside): State
    requires CanAct(s, o)
  {
    match o
    case NewChat => Submitted(s, Chat)
    case NewDecision => Submitted(s, Decision)
    case Begin(e) => s.(clients := s.clients[e := Running])
    case GiveUpEarly(e) => s.(clients := s.clients[e := NeverStarted], wires := Hang(s.wires, e))
    case Receive(e) => Taken(s, e)
    case ReceiveOutcome(e) => OutcomeTaken(s, e)
    case Disarm(e) => s.(clients := s.clients[e := Over(true)], wires := Hang(s.wires, e))
    case DropGuard(e) =>
      s.(clients := s.clients[e := Over(s.clients[e].Satisfied?)], wires := Hang(s.wires, e),
          queue := Enqueue(s, Cancel(e)))
    case AskShutdown => s.(queue := Enqueue(s, Shutdown))
    case CloseCommands => s.(closed := true)
  }

  // ---------------------------------------------------------------- runs

  datatype Action =
    | ByControl(control: Control)
    | ByCommand(admission: Admission)
    | ByFan(fan: Fan)
    | ByPurge(purge: Purge)
    | ByOutside(outside: Outside)

  predicate Enabled(s: State, a: Action) {
    match a
    case ByControl(c) => CanControl(s, c)
    case ByCommand(admission) => CanHandle(s, admission)
    case ByFan(f) => CanFan(s, f)
    case ByPurge(p) => CanPurge(s, p)
    case ByOutside(o) => CanAct(s, o)
  }

  function Apply(s: State, a: Action): State
    requires Enabled(s, a)
  {
    match a
    case ByControl(c) => Controlled(s, c)
    case ByCommand(admission) => Handled(s, admission)
    case ByFan(f) => Fanned(s, f)
    case ByPurge(p) => Purged(s, p)
    case ByOutside(o) => Acted(s, o)
  }

  predicate StepOf(s: State, a: Action, t: State) {
    Enabled(s, a) && t == Apply(s, a)
  }

  /** A run: every step enabled, every state the result of the step before it. */
  ghost predicate IsRun(states: seq<State>, actions: seq<Action>) {
    && |states| == |actions| + 1
    && states[0] == Init(states[0].capacity)
    && forall i {:trigger actions[i]} :: 0 <= i < |actions| ==> StepOf(states[i], actions[i], states[i + 1])
  }

  /** The two ways a state comes into a run. */
  lemma InRun(states: seq<State>, actions: seq<Action>, i: nat)
    requires IsRun(states, actions) && i < |states|
    ensures i == 0 ==> states[i] == Init(states[i].capacity)
    ensures i > 0 ==> i - 1 < |actions| && StepOf(states[i - 1], actions[i - 1], states[i])
  {
    hide StepOf, Init;
    if i > 0 { assert StepOf(states[i - 1], actions[i - 1], states[i - 1 + 1]); }
  }
}
