/** Interval accounting: every report covers exactly the tokens since the report before it. */
module Metrics {
  import opened Wrappers

  // ---------------------------------------------------------------- one reported counter

  /** When a counter was last reported, and its value then. */
  datatype Mark = Mark(at: nat, value: nat)

  datatype Sample = Sample(now: nat, value: nat)

  function Since(now: nat, earlier: nat): nat { if now < earlier then 0 else now - earlier }

  function Gain(value: nat, last: nat): nat { if value < last then 0 else value - last }

  /** A sample is reported when the interval since the last report is long enough; the report covers the gain since
      then. */
  function Report(m: Mark, interval: nat, s: Sample): (Mark, Option<nat>) {
    if Since(s.now, m.at) < interval then (m, None)
    else (Mark(s.now, s.value), Some(Gain(s.value, m.value)))
  }

  /** What a run of samples reports in all. */
  function Reported(m: Mark, interval: nat, samples: seq<Sample>): (r: (Mark, nat)) {
    if samples == [] then (m, 0)
    else
      var (before, total) := Reported(m, interval, samples[..|samples| - 1]);
      var (after, amount) := Report(before, interval, samples[|samples| - 1]);
      (after, total + amount.GetOr(0))
  }

  lemma NothingYet(m: Mark, interval: nat, samples: seq<Sample>)
    ensures Reported(m, interval, samples[..0]) == (m, 0)
  {
  }

  lemma ReportedNext(m: Mark, interval: nat, samples: seq<Sample>, i: nat)
    requires i < |samples|
    ensures var (before, total) := Reported(m, interval, samples[..i]);
      var (after, amount) := Report(before, interval, samples[i]);
      Reported(m, interval, samples[..i + 1]) == (after, total + amount.GetOr(0))
  {
    assert samples[..i + 1][..i] == samples[..i];
  }

  /** No report finds the counter below the one before it. */
  predicate NeverFalls(m: Mark, interval: nat, samples: seq<Sample>) {
    samples == [] ||
    (NeverFalls(m, interval, samples[..|samples| - 1]) &&
     var before := Reported(m, interval, samples[..|samples| - 1]).0;
     Report(before, interval, samples[|samples| - 1]).0.value >= before.value)
  }

  /** The reports add up to the last reported value minus the baseline exactly when the counter never falls between
      reports; otherwise they add up to more. */
  lemma {:induction false} ReportsTelescope(m: Mark, interval: nat, samples: seq<Sample>)
    ensures var (last, total) := Reported(m, interval, samples);
      && total + m.value >= last.value
      && (total + m.value == last.value <==> NeverFalls(m, interval, samples))
  {
    if samples != [] { ReportsTelescope(m, interval, samples[..|samples| - 1]); }
  }

  /** How many reports a run of samples makes. */
  function Reports(m: Mark, interval: nat, samples: seq<Sample>): nat {
    if samples == [] then 0
    else
      var before := Reported(m, interval, samples[..|samples| - 1]).0;
      Reports(m, interval, samples[..|samples| - 1])
      + if Report(before, interval, samples[|samples| - 1]).1.Some? then 1 else 0
  }

  lemma StepIsSpaced(start: nat, n: nat, m: Mark, interval: nat, s: Sample)
    requires interval > 0 && m.at >= start + n * interval
    ensures var (after, amount) := Report(m, interval, s);
      && after.at >= start + (if amount.Some? then n + 1 else n) * interval
      && s.now < after.at + interval
  {
    assert (n + 1) * interval == n * interval + interval;
  }

  /** Reports are a full interval apart, and after any sample the last report is less than an interval old. */
  lemma {:induction false} ReportsAreSpaced(m: Mark, interval: nat, samples: seq<Sample>)
    requires interval > 0
    ensures var last := Reported(m, interval, samples).0;
      && last.at >= m.at + Reports(m, interval, samples) * interval
      && (samples != [] ==> samples[|samples| - 1].now < last.at + interval)
  {
    hide Report;
    if samples == [] {
      assert Reports(m, interval, samples) * interval == 0;
    } else {
      hide Reported;
      var front, sample := samples[..|samples| - 1], samples[|samples| - 1];
      ReportsAreSpaced(m, interval, front);
      StepIsSpaced(m.at, Reports(m, interval, front), Reported(m, interval, front).0, interval, sample);
      ReportedNext(m, interval, samples, |front|);
      assert samples[..|samples|] == samples;
    }
  }

  predicate Nondecreasing(first: nat, samples: seq<Sample>) {
    (forall i :: 0 <= i < |samples| ==> first <= samples[i].value)
    && forall i, j :: 0 <= i < j < |samples| ==> samples[i].value <= samples[j].value
  }

  /** With a counter that never decreases nothing is lost or counted twice: what was reported and what is still to be
      reported add up to the whole gain. */
  lemma {:induction false} NothingLost(m: Mark, interval: nat, samples: seq<Sample>)
    requires Nondecreasing(m.value, samples)
    ensures NeverFalls(m, interval, samples)
    ensures var (last, total) := Reported(m, interval, samples);
      && total == last.value - m.value
      && (samples != [] ==>
          total + (samples[|samples| - 1].value - last.value) == samples[|samples| - 1].value - m.value)
      && m.value <= last.value && (samples != [] ==> last.value <= samples[|samples| - 1].value)
  {
    if samples != [] {
      var front := samples[..|samples| - 1];
      NothingLost(m, interval, front);
      assert front != [] ==> front[|front| - 1] == samples[|samples| - 2];
    }
  }

  // ---------------------------------------------------------------- the session's counters

  /** Ten seconds, in the clock's unit. */
  const SESSION_METRICS_INTERVAL: nat := 10_000_000_000

  datatype DraftStats = DraftStats(
    cycles: nat, draftedTokens: nat, acceptedDrafts: nat, emittedTokens: nat, cycleDuration: nat,
    targetPosition: nat, draftPosition: nat)

  /** A report is due ten seconds after the last one. */
  predicate Due(m: Mark, now: nat) { now >= m.at + 10_000_000_000 }

  /** A report, if there is one, covers what was counted since the last report, and never less than nothing. */
  predicate Covers(report: Option<nat>, last: nat, value: nat) {
    report.Some? ==> report.value + last == if value >= last then value else last
  }

  const NO_DRAFTS := DraftStats(0, 0, 0, 0, 0, 0, 0)

  function DraftStatsDelta(current: DraftStats, previous: DraftStats): DraftStats {
    DraftStats(
      Gain(current.cycles, previous.cycles), Gain(current.draftedTokens, previous.draftedTokens),
      Gain(current.acceptedDrafts, previous.acceptedDrafts), Gain(current.emittedTokens, previous.emittedTokens),
      Gain(current.cycleDuration, previous.cycleDuration), current.targetPosition, current.draftPosition)
  }

  datatype DraftProgress = DraftProgress(cumulative: DraftStats, lastReportAt: nat, lastReport: DraftStats)

  class SessionMetrics {
    var prefillStartedAt: Option<nat>
    var cachedPromptTokens: nat
    var prefilledTokens: nat
    var lastPrefillReportAt: nat
    var lastPrefillReportTokens: nat
    var firstTokenAt: Option<nat>
    var lastTokenAt: Option<nat>
    var lastReportAt: Option<nat>
    var lastReportTokens: nat
    var generatedTokens: nat
    var draftProgress: Option<DraftProgress>

    /** The marks of the two token counters. */
    ghost function PrefillMark(): Mark
      reads this
    {
      Mark(lastPrefillReportAt, lastPrefillReportTokens)
    }

    ghost function DecodeMark(): Mark
      requires lastReportAt.Some?
      reads this
    {
      Mark(lastReportAt.value, lastReportTokens)
    }

    /** Decoding has a report mark once there was a first token, and never reports ahead of the counter. */
    ghost predicate Valid()
      reads this
    {
      (firstTokenAt.Some? <==> lastReportAt.Some?) && lastReportTokens <= generatedTokens
    }

    constructor (submittedAt: nat)
      ensures Valid() && PrefillMark() == Mark(submittedAt, 0) && generatedTokens == 0
      ensures cachedPromptTokens == prefilledTokens == 0 && lastTokenAt == None
      ensures firstTokenAt == None && draftProgress == None && prefillStartedAt == None
    {
      prefillStartedAt, cachedPromptTokens, prefilledTokens := None, 0, 0;
      lastPrefillReportAt, lastPrefillReportTokens := submittedAt, 0;
      firstTokenAt, lastTokenAt, lastReportAt, lastReportTokens, generatedTokens := None, None, None, 0, 0;
      draftProgress := None;
    }

    /** Cached prompt tokens are the baseline of prefill: they are never reported as work. */
    method RecordAdmission(now: nat, cached: nat)
      requires Valid()
      modifies `cachedPromptTokens, `prefilledTokens, `lastPrefillReportTokens, `lastPrefillReportAt
      ensures Valid() && cachedPromptTokens == prefilledTokens == cached
      ensures PrefillMark() == Mark(if prefillStartedAt.None? then now else old(lastPrefillReportAt), cached)
    {
      cachedPromptTokens, prefilledTokens, lastPrefillReportTokens := cached, cached, cached;
      if prefillStartedAt.None? { lastPrefillReportAt := now; }
    }

    method RecordPrefillStart(now: nat) returns (started: bool)
      requires Valid()
      modifies `prefillStartedAt, `lastPrefillReportAt
      ensures Valid() && started == old(prefillStartedAt).None?
      ensures prefillStartedAt == if started then Some(now) else old(prefillStartedAt)
      ensures PrefillMark() == if started then Mark(now, lastPrefillReportTokens) else old(PrefillMark())
    {
      if prefillStartedAt.Some? { return false; }
      prefillStartedAt, lastPrefillReportAt := Some(now), now;
      started := true;
    }

    /** The tokens of the interval, if one is reported. */
    method RecordPrefill(now: nat, promptPosition: nat) returns (tokens: Option<nat>)
      requires Valid()
      modifies `prefilledTokens, `lastPrefillReportAt, `lastPrefillReportTokens
      ensures Valid() && prefilledTokens == promptPosition
      ensures (PrefillMark(), tokens)
          == Report(old(PrefillMark()), SESSION_METRICS_INTERVAL, Sample(now, promptPosition))
      ensures Due(old(PrefillMark()), now) <==> tokens.Some?
      ensures Covers(tokens, old(lastPrefillReportTokens), promptPosition)
    {
      prefilledTokens := promptPosition;
      var interval := Since(now, lastPrefillReportAt);
      if interval < SESSION_METRICS_INTERVAL { return None; }
      tokens := Some(Gain(promptPosition, lastPrefillReportTokens));
      lastPrefillReportAt, lastPrefillReportTokens := now, promptPosition;
    }

    /** The first token only sets the mark, so decoding is measured from it. */
    method RecordToken(now: nat) returns (tokens: Option<nat>)
      requires Valid()
      modifies `generatedTokens, `lastTokenAt, `firstTokenAt, `lastReportAt, `lastReportTokens
      ensures Valid() && generatedTokens == old(generatedTokens) + 1 && lastTokenAt == Some(now) && lastReportAt.Some?
      ensures
        if old(firstTokenAt).None?
            then DecodeMark() == Mark(now, generatedTokens) && tokens == None && firstTokenAt == Some(now)
        else (DecodeMark(), tokens) == Report(old(DecodeMark()), SESSION_METRICS_INTERVAL, Sample(now, generatedTokens))
             && firstTokenAt == old(firstTokenAt)
      ensures old(firstTokenAt).Some? ==> (Due(old(DecodeMark()), now) <==> tokens.Some?)
      ensures Covers(tokens, old(lastReportTokens), generatedTokens)
    {
      generatedTokens, lastTokenAt := generatedTokens + 1, Some(now);
      if firstTokenAt.None? {
        firstTokenAt, lastReportAt, lastReportTokens := Some(now), Some(now), generatedTokens;
        return None;
      }
      var interval := Since(now, lastReportAt.value);
      if interval < SESSION_METRICS_INTERVAL { return None; }
      tokens := Some(generatedTokens - lastReportTokens);
      lastReportAt, lastReportTokens := Some(now), generatedTokens;
    }

    /** The first progress only starts the clock, with nothing reported yet; each report is the gain since the last
        one. */
    method RecordDraftProgress(now: nat, stats: DraftStats) returns (interval: Option<DraftStats>)
      modifies `draftProgress
      ensures draftProgress.Some? && draftProgress.value.cumulative == stats
      ensures
        if old(draftProgress).None?
        then draftProgress.value == DraftProgress(stats, now, NO_DRAFTS) && interval == None
        else
          var p := old(draftProgress).value;
          if Since(now, p.lastReportAt) < SESSION_METRICS_INTERVAL
          then draftProgress.value == p.(cumulative := stats) && interval == None
          else
            && draftProgress.value == DraftProgress(stats, now, stats)
            && interval == Some(DraftStatsDelta(stats, p.lastReport))
      ensures old(draftProgress).Some? ==>
                (Due(Mark(old(draftProgress).value.lastReportAt, 0), now) <==> interval.Some?)
      ensures interval.Some? ==>
                interval.value.targetPosition == stats.targetPosition
                    && interval.value.draftPosition == stats.draftPosition
    {
      if draftProgress.None? {
        draftProgress := Some(DraftProgress(stats, now, NO_DRAFTS));
        return None;
      }
      var p := draftProgress.value;
      if Since(now, p.lastReportAt) < SESSION_METRICS_INTERVAL {
        draftProgress := Some(p.(cumulative := stats));
        return None;
      }
      interval := Some(DraftStatsDelta(stats, p.lastReport));
      draftProgress := Some(DraftProgress(stats, now, stats));
    }
  }

  // ---------------------------------------------------------------- a whole prefill

  /** What happens to a session between its submission and its first token: its prefill is announced, or has moved
      on. */
  datatype PrefillEvent = Start(now: nat) | Position(now: nat, position: nat)

  datatype Prefill = Prefill(startedAt: Option<nat>, mark: Mark, reported: nat)

  /** The first start moves the time of the mark; only positions are reported. */
  function PrefillStep(p: Prefill, e: PrefillEvent): Prefill {
    match e
    case Start(now) => if p.startedAt.Some? then p else p.(startedAt := Some(now), mark := Mark(now, p.mark.value))
    case Position(now, position) =>
      var (mark, amount) := Report(p.mark, SESSION_METRICS_INTERVAL, Sample(now, position));
      p.(mark := mark, reported := p.reported + amount.GetOr(0))
  }

  function PrefillAfter(p: Prefill, events: seq<PrefillEvent>): Prefill {
    if events == [] then p else PrefillStep(PrefillAfter(p, events[..|events| - 1]), events[|events| - 1])
  }

  /** No report finds the position below the one before it. */
  predicate NeverFallsBack(p: Prefill, events: seq<PrefillEvent>) {
    events == [] ||
    (var front, last := events[..|events| - 1], events[|events| - 1];
     NeverFallsBack(p, front)
         && PrefillAfter(p, front).mark.value <= PrefillStep(PrefillAfter(p, front), last).mark.value)
  }

  /** Where starts fall among the positions changes which positions report, but not the sum: the reports add up to the
      position last reported minus the baseline exactly when no report falls back, and to more otherwise. */
  lemma {:induction false} PrefillTelescopes(p: Prefill, events: seq<PrefillEvent>)
    ensures var after := PrefillAfter(p, events);
      && after.reported - p.reported >= after.mark.value - p.mark.value
      && (after.reported - p.reported == after.mark.value - p.mark.value <==> NeverFallsBack(p, events))
  {
    if events != [] { PrefillTelescopes(p, events[..|events| - 1]); }
  }

  /** The positions start at the cached prefix and never go back. */
  predicate PositionsGrow(cached: nat, events: seq<PrefillEvent>) {
    (forall i :: 0 <= i < |events| && events[i].Position? ==> cached <= events[i].position)
    && forall i, j :: 0 <= i < j < |events| && events[i].Position? && events[j].Position? ==>
         events[i].position <= events[j].position
  }

  function LastPosition(cached: nat, events: seq<PrefillEvent>): nat {
    if events == [] then cached
    else if events[|events| - 1].Position? then events[|events| - 1].position
    else LastPosition(cached, events[..|events| - 1])
  }

  function FirstStart(before: Option<nat>, events: seq<PrefillEvent>): Option<nat>
    decreases events
  {
    if before.Some? || events == [] then before
    else FirstStart(if events[0].Start? then Some(events[0].now) else None, events[1..])
  }

  lemma {:induction false} LastPositionAmong(cached: nat, events: seq<PrefillEvent>)
    ensures LastPosition(cached, events) == cached
            || exists i :: 0 <= i < |events| && events[i].Position?
                && events[i].position == LastPosition(cached, events)
  {
    if events != [] && events[|events| - 1].Start? {
      var front := events[..|events| - 1];
      LastPositionAmong(cached, front);
      if i :| 0 <= i < |front| && front[i].Position? && front[i].position == LastPosition(cached, front) {
        assert events[i] == front[i];
      }
    }
  }

  /** With positions that never go back, no report falls back, and the mark is never ahead of the last position. */
  lemma {:induction false} GrowingNeverFallsBack(p: Prefill, events: seq<PrefillEvent>)
    requires PositionsGrow(p.mark.value, events)
    ensures NeverFallsBack(p, events)
    ensures p.mark.value <= PrefillAfter(p, events).mark.value <= LastPosition(p.mark.value, events)
  {
    if events != [] {
      var front := events[..|events| - 1];
      GrowingNeverFallsBack(p, front);
      LastPositionAmong(p.mark.value, front);
    }
  }

  /** The session's start time is that of the first start, wherever it comes. */
  lemma {:induction false} StartedFirst(p: Prefill, events: seq<PrefillEvent>)
    ensures PrefillAfter(p, events).startedAt == FirstStart(p.startedAt, events)
  {
    if events != [] {
      StartedFirst(p, events[..|events| - 1]);
      FirstStartOfFront(p.startedAt, events);
    }
  }

  lemma {:induction false} FirstStartOfFront(before: Option<nat>, events: seq<PrefillEvent>)
    requires events != []
    ensures var early, last := FirstStart(before, events[..|events| - 1]), events[|events| - 1];
      FirstStart(before, events) == if early.None? && last.Start? then Some(last.now) else early
    decreases events
  {
    if before.None? && |events| > 1 {
      assert events[1..][..|events| - 2] == events[..|events| - 1][1..];
      FirstStartOfFront(if events[0].Start? then Some(events[0].now) else None, events[1..]);
    }
  }

  lemma {:induction false} FirstStartConcat(before: Option<nat>, a: seq<PrefillEvent>, b: seq<PrefillEvent>)
    ensures FirstStart(before, a + b) == FirstStart(FirstStart(before, a), b)
    decreases a
  {
    if a == [] {
      assert a + b == b;
    } else if before.None? {
      assert (a + b)[1..] == a[1..] + b;
      FirstStartConcat(if a[0].Start? then Some(a[0].now) else None, a[1..], b);
    }
  }

  /** A session's prefill state, with what has been reported so far. */
  ghost function PrefillState(session: SessionMetrics, reported: nat): Prefill
    reads session
  {
    Prefill(session.prefillStartedAt, session.PrefillMark(), reported)
  }

  method ReplayPrefill(session: SessionMetrics, events: seq<PrefillEvent>) returns (total: nat)
    requires session.Valid()
    modifies session`prefillStartedAt, session`prefilledTokens, session`lastPrefillReportAt,
      session`lastPrefillReportTokens
    ensures session.Valid() && session.prefilledTokens == LastPosition(old(session.prefilledTokens), events)
    ensures PrefillState(session, total) == PrefillAfter(old(PrefillState(session, 0)), events)
  {
    total := 0;
    for i := 0 to |events|
      invariant session.Valid() && session.prefilledTokens == LastPosition(old(session.prefilledTokens), events[..i])
      invariant PrefillState(session, total) == PrefillAfter(old(PrefillState(session, 0)), events[..i])
    {
      assert events[..i + 1][..i] == events[..i];
      match events[i]
      case Start(now) =>
        var started := session.RecordPrefillStart(now);
      case Position(now, position) =>
        var tokens := session.RecordPrefill(now, position);
        total := total + tokens.GetOr(0);
    }
    assert events[..|events|] == events;
  }

  /** Whole prefill: starts before the admission, the admission with its cached prefix, then any starts and positions
      in any order. If the positions start at the cached prefix and never go back, the reports add up to the position
      last reported minus the cached prefix; and only the very first start counts. */
  method PrefillRun(session: SessionMetrics, early: seq<nat>, admittedAt: nat, cached: nat, events: seq<PrefillEvent>)
    returns (total: nat)
    requires session.Valid()
    modifies session
    ensures session.Valid() && total + cached >= session.lastPrefillReportTokens
    ensures PositionsGrow(cached, events) ==>
              total + cached == session.lastPrefillReportTokens <= session.prefilledTokens
    ensures session.cachedPromptTokens == cached && session.prefilledTokens == LastPosition(cached, events)
    ensures session.prefillStartedAt
            == FirstStart(old(session.prefillStartedAt),
                seq(|early|, i requires 0 <= i < |early| => Start(early[i])) + events)
  {
    ghost var first := old(session.prefillStartedAt);
    ghost var starts := seq(|early|, i requires 0 <= i < |early| => Start(early[i]));
    for i := 0 to |early|
      invariant session.Valid() && session.prefillStartedAt == FirstStart(first, starts[..i])
    {
      assert starts[..i + 1][..i] == starts[..i];
      FirstStartOfFront(first, starts[..i + 1]);
      var started := session.RecordPrefillStart(early[i]);
    }
    assert starts[..|early|] == starts;
    session.RecordAdmission(admittedAt, cached);
    ghost var admitted := PrefillState(session, 0);
    total := ReplayPrefill(session, events);
    PrefillTelescopes(admitted, events);
    if PositionsGrow(cached, events) { GrowingNeverFallsBack(admitted, events); }
    StartedFirst(admitted, events);
    FirstStartConcat(first, starts, events);
  }

  function Ticks(times: seq<nat>, from: nat): (samples: seq<Sample>)
    ensures |samples| == |times|
  {
    seq(|times|, i requires 0 <= i < |times| => Sample(times[i], from + i + 1))
  }

  /** Whole decoding: whatever the times of the tokens, the reports add up to the count last reported minus the first
      token. */
  method DecodeRun(session: SessionMetrics, first: nat, times: seq<nat>) returns (total: nat)
    requires session.Valid() && session.firstTokenAt.None? && session.generatedTokens == 0
    modifies session
    ensures session.Valid() && session.generatedTokens == |times| + 1
    ensures total + 1 == session.lastReportTokens <= session.generatedTokens
  {
    var none := session.RecordToken(first);
    ghost var start := session.DecodeMark();
    ghost var samples := Ticks(times, 1);
    total := 0;
    for i := 0 to |times|
      invariant session.Valid() && session.firstTokenAt.Some? && session.generatedTokens == i + 1
      invariant (session.DecodeMark(), total) == Reported(start, SESSION_METRICS_INTERVAL, samples[..i])
    {
      assert samples[..i + 1][..i] == samples[..i];
      var tokens := session.RecordToken(times[i]);
      total := total + tokens.GetOr(0);
    }
    assert samples[..|times|] == samples;
    NothingLost(start, SESSION_METRICS_INTERVAL, samples);
  }

  // ---------------------------------------------------------------- drafts, field by field

  /** The reports of a run of draft progress, and the last reported statistics. */
  function DraftsReported(at: nat, last: DraftStats, stats: seq<(nat, DraftStats)>): (nat, DraftStats, DraftStats) {
    if stats == [] then (at, last, NO_DRAFTS)
    else
      var (t, l, total) := DraftsReported(at, last, stats[..|stats| - 1]);
      var (now, s) := stats[|stats| - 1];
      if Since(now, t) < SESSION_METRICS_INTERVAL then (t, l, total)
      else (now, s, Added(total, DraftStatsDelta(s, l)))
  }

  /** Adds the five counters; positions are not accumulated. */
  function Added(a: DraftStats, b: DraftStats): DraftStats {
    DraftStats(a.cycles + b.cycles, a.draftedTokens + b.draftedTokens, a.acceptedDrafts + b.acceptedDrafts,
               a.emittedTokens + b.emittedTokens, a.cycleDuration + b.cycleDuration, 0, 0)
  }

  predicate AtMost(a: DraftStats, b: DraftStats) {
    a.cycles <= b.cycles && a.draftedTokens <= b.draftedTokens && a.acceptedDrafts <= b.acceptedDrafts
    && a.emittedTokens <= b.emittedTokens && a.cycleDuration <= b.cycleDuration
  }

  predicate SameCounters(a: DraftStats, b: DraftStats) { AtMost(a, b) && AtMost(b, a) }

  predicate DraftsGrow(last: DraftStats, stats: seq<(nat, DraftStats)>) {
    (forall i :: 0 <= i < |stats| ==> AtMost(last, stats[i].1))
    && forall i, j :: 0 <= i < j < |stats| ==> AtMost(stats[i].1, stats[j].1)
  }

  /** From the zero baseline, the interval statistics of all draft reports add up to the statistics last reported. */
  lemma {:induction false} DraftReportsTelescope(at: nat, stats: seq<(nat, DraftStats)>)
    requires DraftsGrow(NO_DRAFTS, stats)
    ensures var (_, last, total) := DraftsReported(at, NO_DRAFTS, stats);
      SameCounters(total, last) && (stats == [] || AtMost(last, stats[|stats| - 1].1))
  {
    if stats != [] {
      var front := stats[..|stats| - 1];
      DraftReportsTelescope(at, front);
      assert front != [] ==> front[|front| - 1] == stats[|stats| - 2];
    }
  }

  method DraftRun(session: SessionMetrics, start: nat, opening: DraftStats, stats: seq<(nat, DraftStats)>)
    returns (total: DraftStats)
    requires session.draftProgress.None? && DraftsGrow(NO_DRAFTS, stats)
    modifies session
    ensures session.draftProgress.Some? && SameCounters(total, session.draftProgress.value.lastReport)
  {
    var none := session.RecordDraftProgress(start, opening);
    total := NO_DRAFTS;
    for i := 0 to |stats|
      invariant session.draftProgress.Some?
      invariant var p := session.draftProgress.value;
        (p.lastReportAt, p.lastReport, total) == DraftsReported(start, NO_DRAFTS, stats[..i])
    {
      assert stats[..i + 1][..i] == stats[..i];
      var interval := session.RecordDraftProgress(stats[i].0, stats[i].1);
      if interval.Some? { total := Added(total, interval.value); }
    }
    assert stats[..|stats|] == stats;
    DraftReportsTelescope(start, stats);
  }

  // ---------------------------------------------------------------- the rate sampler

  const ISIZE_MAX: int := 0x7FFF_FFFF_FFFF_FFFF
  const ISIZE_MIN: int := -0x8000_0000_0000_0000

  function Clamped(n: int): int {
    if n > ISIZE_MAX then ISIZE_MAX else if n < ISIZE_MIN then ISIZE_MIN else n
  }

  /** What a sample adds to a counter: the saturated difference, and never less than nothing. */
  function SampledDelta(value: int, last: int): nat {
    if Clamped(value - last) > 0 then Clamped(value - last) else 0
  }

  /** The growth of a counter, cut off at the largest machine integer and at zero. */
  predicate Grew(delta: nat, last: int, value: int) {
    delta == if value <= last then 0 else if value - last < 0x8000_0000_0000_0000 then value - last
      else 0x7FFF_FFFF_FFFF_FFFF
  }

  class TokenRateSampler {
    var sampledAt: nat
    var prefillTokens: int
    var generatedTokens: int

    constructor (sampledAt: nat, prefillTokens: int, generatedTokens: int)
      ensures this.sampledAt == sampledAt && this.prefillTokens == prefillTokens
          && this.generatedTokens == generatedTokens
    {
      this.sampledAt, this.prefillTokens, this.generatedTokens := sampledAt, prefillTokens, generatedTokens;
    }

    /** The tokens of the interval since the last sample, with its length; a sample at the same instant reports
        nothing and leaves the sampler as it was, so its tokens go to the next one. */
    method Sample(now: nat, prefill: int, generated: int) returns (prefillDelta: nat, generatedDelta: nat, elapsed: nat)
      modifies this
      ensures elapsed == Since(now, old(sampledAt))
      ensures elapsed == 0 ==>
                prefillDelta == generatedDelta == 0 && (sampledAt, prefillTokens, generatedTokens)
                == (old(sampledAt), old(prefillTokens), old(generatedTokens))
      ensures elapsed > 0 ==>
                && prefillDelta == SampledDelta(prefill, old(prefillTokens))
                && generatedDelta == SampledDelta(generated, old(generatedTokens))
                && (sampledAt, prefillTokens, generatedTokens) == (now, prefill, generated)
                && Grew(prefillDelta, old(prefillTokens), prefill)
                && Grew(generatedDelta, old(generatedTokens), generated)
      ensures elapsed > 0 <==> now > old(sampledAt)
      ensures elapsed > 0 ==> old(sampledAt) + elapsed == now
    {
      elapsed := Since(now, sampledAt);
      if elapsed == 0 { return 0, 0, 0; }
      prefillDelta := SampledDelta(prefill, prefillTokens);
      generatedDelta := SampledDelta(generated, generatedTokens);
      sampledAt, prefillTokens, generatedTokens := now, prefill, generated;
    }
  }

  datatype Reading = Reading(now: nat, prefill: nat, generated: nat)

  function PrefillOf(readings: seq<Reading>): (s: seq<Sample>)
    ensures |s| == |readings|
  {
    seq(|readings|, i requires 0 <= i < |readings| => Sample.Sample(readings[i].now, readings[i].prefill))
  }

  function GeneratedOf(readings: seq<Reading>): (s: seq<Sample>)
    ensures |s| == |readings|
  {
    seq(|readings|, i requires 0 <= i < |readings| => Sample.Sample(readings[i].now, readings[i].generated))
  }

  predicate Counters(readings: seq<Reading>) {
    forall i :: 0 <= i < |readings| ==> readings[i].prefill <= ISIZE_MAX && readings[i].generated <= ISIZE_MAX
  }

  /** For counters that are never negative the sampler is the same accounting, with one tick of the clock as its
      interval. */
  lemma SampledIsGain(value: nat, last: nat)
    requires value <= ISIZE_MAX
    ensures SampledDelta(value, last) == Gain(value, last)
  {
  }

  /** Sampling as often and as irregularly as one likes attributes every token once: both totals are the last sampled
      counter minus the initial one, even when samples share an instant. */
  method SampleRun(sampler: TokenRateSampler, readings: seq<Reading>) returns (prefill: nat, generated: nat)
    requires sampler.prefillTokens >= 0 && sampler.generatedTokens >= 0 && Counters(readings)
    requires Nondecreasing(sampler.prefillTokens, PrefillOf(readings))
        && Nondecreasing(sampler.generatedTokens, GeneratedOf(readings))
    modifies sampler
    ensures prefill == sampler.prefillTokens - old(sampler.prefillTokens)
    ensures generated == sampler.generatedTokens - old(sampler.generatedTokens)
  {
    hide Nondecreasing, SampledDelta, Reported;
    ghost var p, g := Mark(sampler.sampledAt, sampler.prefillTokens), Mark(sampler.sampledAt, sampler.generatedTokens);
    prefill, generated := 0, 0;
    NothingYet(p, 1, PrefillOf(readings));
    NothingYet(g, 1, GeneratedOf(readings));
    for i := 0 to |readings|
      invariant sampler.prefillTokens >= 0 && sampler.generatedTokens >= 0
      invariant (Mark(sampler.sampledAt, sampler.prefillTokens), prefill) == Reported(p, 1, PrefillOf(readings)[..i])
      invariant (Mark(sampler.sampledAt, sampler.generatedTokens), generated)
        == Reported(g, 1, GeneratedOf(readings)[..i])
    {
      ReportedNext(p, 1, PrefillOf(readings), i);
      ReportedNext(g, 1, GeneratedOf(readings), i);
      SampledIsGain(readings[i].prefill, sampler.prefillTokens);
      SampledIsGain(readings[i].generated, sampler.generatedTokens);
      var x, y, elapsed := sampler.Sample(readings[i].now, readings[i].prefill, readings[i].generated);
      prefill, generated := prefill + x, generated + y;
    }
    assert PrefillOf(readings)[..|readings|] == PrefillOf(readings)
        && GeneratedOf(readings)[..|readings|] == GeneratedOf(readings);
    NothingLost(p, 1, PrefillOf(readings));
    NothingLost(g, 1, GeneratedOf(readings));
  }
}
