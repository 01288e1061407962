/**
 How long events live: the hysteresis of the policy engine on every run in which time does not run
 backwards, under any keys, whatever database calls fail and whenever the process restarts.
 */
module PolicyTimes {
  import opened Options
  import opened LeakyBucket
  import opened PolicyModel
  import opened PolicyRuns

  /** Thresholds and periods that make sense; services/argus/runner.go deploys such values. */
  ghost predicate Reasonable(cfg: Config) {
    && cfg.bucket.decay > 0.0 && 0.0 < cfg.bucket.close <= cfg.bucket.open
    && cfg.quietPeriod >= 0.0 && cfg.confirmWindow >= 0.0
  }

  /** A report happens at the time of its finding, a visit at the sweep's clock reading. */
  function TimeOf(step: Step, clock: real): real {
    match step
    case Reported(_, f, _, _) => f.ts
    case Visited(_, now, _, _) => now
    case _ => clock
  }

  function ClockAfter(steps: seq<Step>): real {
    if steps == [] then 0.0
    else TimeOf(steps[|steps| - 1], ClockAfter(steps[..|steps| - 1]))
  }

  ghost predicate Forward(steps: seq<Step>) {
    steps == [] ||
    var before := steps[..|steps| - 1];
    Forward(before) && ClockAfter(before) <= TimeOf(steps[|steps| - 1], ClockAfter(before))
  }

  /** What the bucket would hold had it not leaked since t0. */
  function Potential(cfg: BucketConfig, b: BucketState, t0: real): real {
    b.score + cfg.decay * (b.updatedAt - t0)
  }

  lemma DecayKeepsPotential(cfg: BucketConfig, b: BucketState, now: real, t0: real)
    requires cfg.decay >= 0.0 && b.score >= 0.0 && b.updatedAt <= now
    ensures Potential(cfg, Decay(cfg, b, now).newState, t0) >= Potential(cfg, b, t0)
  {
    LeakBounds(cfg, b, now);
    LeakSplits(cfg.decay, t0, b.updatedAt, now);
  }

  lemma AddKeepsPotential(cfg: BucketConfig, b: BucketState, severity: real, ts: real, t0: real)
    requires cfg.decay >= 0.0 && b.score >= 0.0 && b.updatedAt <= ts
    ensures Potential(cfg, Add(cfg, b, severity, ts).newState, t0) >= Potential(cfg, b, t0)
  {
    LeakBounds(cfg, b, ts);
    LeakSplits(cfg.decay, t0, b.updatedAt, ts);
  }

  // ---------------------------------------------------------------- invariant

  ghost predicate Clocked(s: PolicyState, clock: real) {
    s.bucket.score >= 0.0 && s.bucket.updatedAt <= clock && s.since <= clock
  }

  /** The score has had to leak from the open to the close threshold since the event opened. */
  ghost predicate LeakedThrough(cfg: Config, openedAt: real, time: real) {
    cfg.bucket.decay * (time - openedAt) > cfg.bucket.open - cfg.bucket.close
  }

  ghost predicate OpenAged(cfg: Config, s: PolicyState, openedAt: real) {
    && Potential(cfg.bucket, s.bucket, openedAt) >= cfg.bucket.open
    && (s.status.Recovering? ==> LeakedThrough(cfg, openedAt, s.since))
  }

  ghost predicate Lives(cfg: Config, s: PolicyState, events: seq<Event>, clock: real) {
    && Placed(s, events) && Clocked(s, clock)
    && (s.openEvent.Some? ==> OpenAged(cfg, s, events[s.openEvent.value].openedAt))
  }

  /** Every closed event had leaked through by its final quiet period. */
  ghost predicate Outlived(cfg: Config, events: seq<Event>) {
    forall v :: 0 <= v < |events| && events[v].closedAt.Some? ==>
      LeakedThrough(cfg, events[v].openedAt, events[v].closedAt.value - cfg.quietPeriod)
  }

  ghost predicate AllLive(cfg: Config, sl: Slice, clock: real) {
    && Outlived(cfg, sl.tables.events) && clock >= 0.0
    && (forall kind :: kind in sl.copies ==> Lives(cfg, sl.copies[kind], sl.tables.events, clock))
    && (sl.tables.row.Some? ==> Lives(cfg, FromRow(sl.tables.row.value), sl.tables.events, clock))
  }

  ghost predicate OpenedStay(events: seq<Event>, events': seq<Event>) {
    |events| <= |events'| && forall v :: 0 <= v < |events| ==> events'[v].openedAt == events[v].openedAt
  }

  lemma LivesLater(cfg: Config, s: PolicyState, events: seq<Event>, clock: real, events': seq<Event>, clock': real)
    requires Lives(cfg, s, events, clock) && OpenedStay(events, events') && clock <= clock'
    ensures Lives(cfg, s, events', clock')
  {
    hide OpenAged;
  }

  lemma RowLives(cfg: Config, s: PolicyState, events: seq<Event>, clock: real)
    requires Lives(cfg, s, events, clock)
    ensures Lives(cfg, FromRow(ToRow(s)), events, clock)
  {
    hide LeakedThrough, Potential;
    RowKeepsPlace(s, events);
  }

  // ------------------------------------------------------------ reports keep it

  lemma LouderLives(cfg: Config, s: PolicyState, events: seq<Event>, clock: real, f: Finding)
    requires cfg.bucket.decay >= 0.0 && Lives(cfg, s, events, clock) && clock <= f.ts
    ensures Lives(cfg, s.(bucket := Add(cfg.bucket, s.bucket, f.severity, f.ts).newState), events, f.ts)
  {
    LeakBounds(cfg.bucket, s.bucket, f.ts);
    if s.openEvent.Some? {
      AddKeepsPotential(cfg.bucket, s.bucket, f.severity, f.ts, events[s.openEvent.value].openedAt);
    }
  }

  lemma OpeningLives(cfg: Config, s: PolicyState, t: Tables, f: Finding)
    requires Outlived(cfg, t.events) && Clocked(s, f.ts)
    requires s.bucket.updatedAt == f.ts && s.bucket.score >= cfg.bucket.open
    ensures
      var events := OpenTables(s, t, f).events;
      Lives(cfg, OpenState(s, t, f), events, f.ts) && Outlived(cfg, events) && OpenedStay(t.events, events)
  {
    hide LeakedThrough;
    assert cfg.bucket.decay * (f.ts - f.ts) == 0.0;
  }

  lemma ApplyLives(cfg: Config, s: PolicyState, t: Tables, clock: real, f: Finding, id: nat, faults: ApplyFaults)
    requires cfg.bucket.decay >= 0.0 && Lives(cfg, s, t.events, clock) && Outlived(cfg, t.events) && clock <= f.ts
    ensures
      var r := ApplyLoaded(cfg, s, t, f, id, faults);
      && r.copy.Some? && Lives(cfg, r.copy.value, r.tables.events, f.ts)
      && Outlived(cfg, r.tables.events) && OpenedStay(t.events, r.tables.events)
  {
    hide LeakedThrough, Potential, Outlived, Leaked;
    var u := Add(cfg.bucket, s.bucket, f.severity, f.ts);
    var s1 := s.(bucket := u.newState);
    var p := Pending(id, Some(f.severity));
    LouderLives(cfg, s, t.events, clock, f);
    if u.crossedOpen {
      OpeningLives(cfg, s1.(status := Watching, since := f.ts, pending := [p]), t, f);
      OpeningLives(cfg, s1.(pending := s.pending + [p]), t, f);
    }
  }

  // -------------------------------------------------------------- visits keep it

  lemma LeakedThroughBy(cfg: Config, b: BucketState, openedAt: real)
    requires Potential(cfg.bucket, b, openedAt) >= cfg.bucket.open && b.score < cfg.bucket.close
    ensures LeakedThrough(cfg, openedAt, b.updatedAt)
  {
  }

  lemma LeakedThroughLater(cfg: Config, openedAt: real, time: real, later: real)
    requires cfg.bucket.decay >= 0.0 && LeakedThrough(cfg, openedAt, time) && time <= later
    ensures LeakedThrough(cfg, openedAt, later)
  {
    LeakSplits(cfg.bucket.decay, openedAt, time, later);
    LeakIsNonNegative(cfg.bucket.decay, later - time);
  }

  lemma LeakingLives(cfg: Config, s: PolicyState, events: seq<Event>, clock: real, now: real)
    requires cfg.bucket.decay >= 0.0 && Lives(cfg, s, events, clock) && clock <= now
    ensures Lives(cfg, s.(bucket := Decay(cfg.bucket, s.bucket, now).newState), events, now)
  {
    LeakBounds(cfg.bucket, s.bucket, now);
    if s.openEvent.Some? {
      DecayKeepsPotential(cfg.bucket, s.bucket, now, events[s.openEvent.value].openedAt);
    }
  }

  /** Closing an event, also one that another state has closed before. */
  lemma ClosingOutlives(cfg: Config, s: PolicyState, events: seq<Event>, clock: real, now: real)
    requires cfg.bucket.decay >= 0.0 && Lives(cfg, s, events, clock) && Outlived(cfg, events) && Closes(cfg, s, now)
    ensures
      var events' := CloseEvent(events, s.openEvent.value, now);
      Outlived(cfg, events') && OpenedStay(events, events')
  {
    LeakedThroughLater(cfg, events[s.openEvent.value].openedAt, s.since, now - cfg.quietPeriod);
    hide LeakedThrough;
  }

  lemma SweptLives(cfg: Config, s: PolicyState, events: seq<Event>, clock: real, now: real)
    requires cfg.bucket.decay >= 0.0 && Lives(cfg, s, events, clock) && clock <= now
    ensures Lives(cfg, Swept(cfg, s, now), events, now)
  {
    LeakingLives(cfg, s, events, clock, now);
    var d := s.(bucket := Decay(cfg.bucket, s.bucket, now).newState);
    if s.status.Firing? && Decay(cfg.bucket, s.bucket, now).crossedClose {
      LeakedThroughBy(cfg, d.bucket, events[s.openEvent.value].openedAt);
    }
    hide LeakedThrough, Potential;
  }

  lemma VisitLives(
    cfg: Config, s: PolicyState, t: Tables, clock: real, now: real, closeFails: bool, saveFails: bool)
    requires cfg.bucket.decay >= 0.0 && Lives(cfg, s, t.events, clock) && Outlived(cfg, t.events) && clock <= now
    ensures
      var v := SweepVisit(cfg, s, t, now, closeFails, saveFails);
      && Lives(cfg, v.state, v.tables.events, now)
      && Outlived(cfg, v.tables.events) && OpenedStay(t.events, v.tables.events)
  {
    hide Lives, Outlived, Swept;
    LeakingLives(cfg, s, t.events, clock, now);
    SweptLives(cfg, s, t.events, clock, now);
    if Closes(cfg, s, now) && !closeFails {
      ClosingOutlives(cfg, s, t.events, clock, now);
      LivesLater(cfg, Swept(cfg, s, now), t.events, now, CloseEvent(t.events, s.openEvent.value, now), now);
    }
  }

  // --------------------------------------------------------------- every run

  lemma OthersLive(cfg: Config, sl: Slice, clock: real, kind: string, s: PolicyState, t: Tables, clock': real)
    requires AllLive(cfg, sl, clock) && clock <= clock' && OpenedStay(sl.tables.events, t.events)
    requires Lives(cfg, s, t.events, clock') && Outlived(cfg, t.events) && RowFollows(sl.tables, s, t)
    ensures AllLive(cfg, Slice(sl.copies[kind := s], t), clock')
  {
    hide Lives, Outlived, ToRow, FromRow;
    RowLives(cfg, s, t.events, clock');
    if sl.tables.row.Some? {
      LivesLater(cfg, FromRow(sl.tables.row.value), sl.tables.events, clock, t.events, clock');
    }
    forall other | other in sl.copies ensures Lives(cfg, sl.copies[other], t.events, clock') {
      LivesLater(cfg, sl.copies[other], sl.tables.events, clock, t.events, clock');
    }
  }

  lemma TimePasses(cfg: Config, sl: Slice, clock: real, clock': real, t: Tables)
    requires AllLive(cfg, sl, clock) && clock <= clock' && t.events == sl.tables.events && t.row == sl.tables.row
    ensures AllLive(cfg, sl.(tables := t), clock')
  {
    hide Lives, Outlived;
    var events := sl.tables.events;
    if sl.tables.row.Some? {
      LivesLater(cfg, FromRow(sl.tables.row.value), events, clock, events, clock');
    }
    forall kind | kind in sl.copies ensures Lives(cfg, sl.copies[kind], events, clock') {
      LivesLater(cfg, sl.copies[kind], events, clock, events, clock');
    }
  }

  lemma FreshLives(cfg: Config, events: seq<Event>, clock: real)
    requires clock >= 0.0
    ensures Lives(cfg, FRESH, events, clock)
  {
  }

  lemma PlacedOf(cfg: Config, s: PolicyState, events: seq<Event>, clock: real)
    requires Lives(cfg, s, events, clock)
    ensures Placed(s, events)
  {
  }

  lemma ReportLives(cfg: Config, sl: Slice, step: Step, clock: real)
    requires cfg.bucket.decay >= 0.0 && AllLive(cfg, sl, clock) && step.Reported? && clock <= step.finding.ts
    ensures AllLive(cfg, Next(cfg, sl, step), step.finding.ts)
  {
    hide Lives, Outlived, ApplyLoaded, OpenedStay;
    var f := step.finding;
    var t := if step.insertFails || Conflicts(sl.tables, f.ts) then sl.tables else InsertFinding(sl.tables, f);
    TimePasses(cfg, sl, clock, f.ts, t);
    if Applies(sl, step) && Load(CopyIn(sl, step.kind), t, step.faults.load).Some? {
      FreshLives(cfg, t.events, clock);
      var s := LoadedFor(sl, step.kind);
      var r := ApplyLoaded(cfg, s, t, f, |sl.tables.findings|, step.faults);
      ApplyLives(cfg, s, t, clock, f, |sl.tables.findings|, step.faults);
      PlacedOf(cfg, s, t.events, clock);
      ApplyKeepsPlace(cfg, s, t, f, |sl.tables.findings|, step.faults);
      OthersLive(cfg, sl.(tables := t), f.ts, step.kind, r.copy.value, r.tables, f.ts);
    }
  }

  lemma StepLives(cfg: Config, sl: Slice, step: Step, clock: real)
    requires cfg.bucket.decay >= 0.0 && AllLive(cfg, sl, clock) && clock <= TimeOf(step, clock)
    ensures AllLive(cfg, Next(cfg, sl, step), TimeOf(step, clock))
  {
    hide Lives, Outlived, SweepVisit, Report;
    match step
    case Reported(_, f, _, _) => ReportLives(cfg, sl, step, clock);
    case Visited(kind, now, closeFails, saveFails) =>
      if kind in sl.copies {
        var s := sl.copies[kind];
        var v := SweepVisit(cfg, s, sl.tables, now, closeFails, saveFails);
        PlacedOf(cfg, s, sl.tables.events, clock);
        VisitLives(cfg, s, sl.tables, clock, now, closeFails, saveFails);
        VisitKeepsPlace(cfg, s, sl.tables, now, closeFails, saveFails);
        OthersLive(cfg, sl, clock, kind, v.state, v.tables, now);
      } else {
        TimePasses(cfg, sl, clock, now, sl.tables);
      }
    case _ =>
  }

  /** On every run forward in time each state, in memory or stored, keeps the relation between its score,
      its event and its last change that bounds the event's life. */
  lemma {:induction false} EveryStateLives(cfg: Config, steps: seq<Step>)
    requires cfg.bucket.decay >= 0.0 && Forward(steps)
    ensures AllLive(cfg, SliceAfter(cfg, steps), ClockAfter(steps))
    decreases |steps|
  {
    hide Next;
    if steps != [] {
      var before := steps[..|steps| - 1];
      EveryStateLives(cfg, before);
      StepLives(cfg, SliceAfter(cfg, before), steps[|steps| - 1], ClockAfter(before));
    }
  }

  lemma LeakTime(cfg: Config, openedAt: real, time: real)
    requires cfg.bucket.decay > 0.0 && LeakedThrough(cfg, openedAt, time)
    ensures time - openedAt > (cfg.bucket.open - cfg.bucket.close) / cfg.bucket.decay
  {
    var q := (cfg.bucket.open - cfg.bucket.close) / cfg.bucket.decay;
    assert q * cfg.bucket.decay == cfg.bucket.open - cfg.bucket.close;
    if time - openedAt <= q {
      LeakIsNonNegative(cfg.bucket.decay, q - (time - openedAt));
    }
  }

  /** On every run forward in time, a closed event lived longer than it takes to leak from open to close
      plus the quiet period, however often it went back and forth between firing and recovering. */
  lemma ClosedEventsLastedLongEnough(cfg: Config, steps: seq<Step>, v: nat)
    requires cfg.bucket.decay > 0.0 && Forward(steps)
    requires
      var t := SliceAfter(cfg, steps).tables;
      v < |t.events| && t.events[v].closedAt.Some?
    ensures
      var event := SliceAfter(cfg, steps).tables.events[v];
      event.closedAt.value - event.openedAt
        > (cfg.bucket.open - cfg.bucket.close) / cfg.bucket.decay + cfg.quietPeriod
  {
    hide SliceAfter, LeakedThrough;
    EveryStateLives(cfg, steps);
    var event := SliceAfter(cfg, steps).tables.events[v];
    LeakTime(cfg, event.openedAt, event.closedAt.value - cfg.quietPeriod);
  }
}
