/**
 The quiet before an event closes: no finding is attached to an event during its final quiet period, on
 runs under keys without a probe type whose restarts find no closed event held and no recovery dated before
 a finding of its event. PolicyKeys shows that it takes such keys.
 */
module PolicyQuiet {
  import opened Options
  import opened LeakyBucket
  import opened PolicyModel
  import opened PolicyRuns
  import opened PolicyTimes

  ghost predicate FindingsBefore(findings: seq<FindingRow>, clock: real) {
    forall i :: 0 <= i < |findings| ==> findings[i].ts <= clock
  }

  ghost predicate AttachedBefore(findings: seq<FindingRow>, event: nat, time: real) {
    forall i :: 0 <= i < |findings| && findings[i].event == Some(event) ==> findings[i].ts <= time
  }

  /** Nothing was attached to the event, if closed, during its final quiet period. */
  ghost predicate ClosedQuietly(cfg: Config, t: Tables, v: nat)
    requires v < |t.events|
  {
    t.events[v].closedAt.Some? ==>
      forall i :: 0 <= i < |t.findings| && t.findings[i].event == Some(v) ==>
        t.findings[i].ts < t.events[v].closedAt.value - cfg.quietPeriod
  }

  /** The held event is open, and none of its findings is later than the start of its recovery. */
  ghost predicate HeldCalmly(s: PolicyState, t: Tables) {
    && HeldIsOpen(s.openEvent, t.events)
    && (s.status.Recovering? && s.openEvent.Some? ==> AttachedBefore(t.findings, s.openEvent.value, s.since))
  }

  ghost predicate Calm(cfg: Config, s: PolicyState, t: Tables, clock: real) {
    && s.since <= clock && FindingsBefore(t.findings, clock) && HeldCalmly(s, t)
    && forall v :: 0 <= v < |t.events| ==> ClosedQuietly(cfg, t, v)
  }

  // ------------------------------------------------------------ reports keep it

  lemma InsertKeepsCalm(cfg: Config, s: PolicyState, t: Tables, clock: real, f: Finding)
    requires Calm(cfg, s, t, clock) && clock <= f.ts
    ensures Calm(cfg, s, InsertFinding(t, f), f.ts)
  {
    var t' := InsertFinding(t, f);
    forall v | 0 <= v < |t'.events| ensures ClosedQuietly(cfg, t', v) {
      assert ClosedQuietly(cfg, t, v);
    }
  }

  /** Only the status, its entry and the event of a state matter, and of the tables not the row. */
  lemma CalmDependsOn(cfg: Config, s: PolicyState, s': PolicyState, t: Tables, t': Tables, clock: real)
    requires Calm(cfg, s, t, clock) && t'.findings == t.findings && t'.events == t.events
    requires s'.since <= clock
    requires s'.openEvent == s.openEvent
    requires s'.status.Recovering? ==> s.status.Recovering? && s'.since == s.since
    ensures Calm(cfg, s', t', clock)
  {
    forall v | 0 <= v < |t'.events| ensures ClosedQuietly(cfg, t', v) {
      assert ClosedQuietly(cfg, t, v);
    }
  }

  lemma OpeningKeepsClosed(cfg: Config, s: PolicyState, t: Tables, f: Finding, v: nat)
    requires v < |t.events| && ClosedQuietly(cfg, t, v)
    ensures ClosedQuietly(cfg, OpenTables(s, t, f), v)
  {
    var t' := OpenTables(s, t, f);
    forall i | 0 <= i < |t'.findings| && t'.findings[i].event == Some(v)
      ensures t.findings[i].event == Some(v) && t'.findings[i].ts == t.findings[i].ts
    {
      AttachAllAt(t.findings, s.pending, |t.events|, i);
    }
  }

  lemma OpeningKeepsFindings(s: PolicyState, t: Tables, f: Finding, clock: real)
    requires FindingsBefore(t.findings, clock)
    ensures FindingsBefore(OpenTables(s, t, f).findings, clock)
  {
    var t' := OpenTables(s, t, f);
    forall i | 0 <= i < |t'.findings| ensures t'.findings[i].ts <= clock {
      AttachAllAt(t.findings, s.pending, |t.events|, i);
    }
  }

  lemma OpeningKeepsCalm(cfg: Config, s: PolicyState, t: Tables, f: Finding)
    requires Calm(cfg, s, t, f.ts)
    ensures Calm(cfg, OpenState(s, t, f), OpenTables(s, t, f), f.ts)
  {
    var t' := OpenTables(s, t, f);
    OpeningKeepsFindings(s, t, f, f.ts);
    forall v | 0 <= v < |t'.events| ensures ClosedQuietly(cfg, t', v) {
      if v < |t.events| {
        OpeningKeepsClosed(cfg, s, t, f, v);
      }
    }
  }

  lemma SavingKeepsCalm(cfg: Config, s: PolicyState, t: Tables, clock: real, fails: bool)
    requires Calm(cfg, s, t, clock)
    ensures Calm(cfg, s, Save(s, t, fails).tables, clock)
  {
    CalmDependsOn(cfg, s, s, t, Save(s, t, fails).tables, clock);
  }

  lemma WatchKeepsCalm(cfg: Config, s: PolicyState, t: Tables, f: Finding, crossed: bool, faults: ApplyFaults)
    requires Calm(cfg, s, t, f.ts)
    ensures
      var r := Watch(s, t, f, crossed, faults);
      r.copy.Some? && Calm(cfg, r.copy.value, r.tables, f.ts)
  {
    hide Calm, OpenTables, OpenState;
    var r := Watch(s, t, f, crossed, faults);
    if crossed && !Aborts(faults.tx, |s.pending|) {
      OpeningKeepsCalm(cfg, s, t, f);
      SavingKeepsCalm(cfg, OpenState(s, t, f), OpenTables(s, t, f), f.ts, faults.save);
    } else {
      SavingKeepsCalm(cfg, s, t, f.ts, faults.save);
    }
  }

  /** A finding is attached only to the open event, which then is firing. */
  lemma AttachKeepsCalm(cfg: Config, s: PolicyState, t: Tables, id: nat, next: PolicyState, clock: real)
    requires Calm(cfg, s, t, clock) && s.openEvent.Some?
    requires next.status.Firing? && next.since <= clock && next.openEvent == s.openEvent
    ensures Calm(cfg, next, t.(findings := Attach(t.findings, id, s.openEvent.value)), clock)
  {
    var t' := t.(findings := Attach(t.findings, id, s.openEvent.value));
    forall v | 0 <= v < |t'.events| ensures ClosedQuietly(cfg, t', v) {
      assert ClosedQuietly(cfg, t, v);
    }
  }

  lemma AttachToKeepsCalm(
    cfg: Config, s: PolicyState, t: Tables, id: nat, next: PolicyState, clock: real, faults: ApplyFaults)
    requires Calm(cfg, s, t, clock)
    requires next.status.Firing? && next.since <= clock && next.openEvent == s.openEvent
    ensures
      var r := AttachTo(s, t, id, next, faults);
      r.copy.Some? && Calm(cfg, r.copy.value, r.tables, clock)
  {
    hide Calm, Attach;
    if s.openEvent.Some? && !faults.attach {
      AttachKeepsCalm(cfg, s, t, id, next, clock);
      SavingKeepsCalm(cfg, next, t.(findings := Attach(t.findings, id, s.openEvent.value)), clock, faults.save);
    }
  }

  lemma CalmIsTimed(cfg: Config, s: PolicyState, t: Tables, clock: real)
    requires Calm(cfg, s, t, clock)
    ensures s.since <= clock
  {
  }

  lemma ApplyKeepsCalm(cfg: Config, s: PolicyState, t: Tables, clock: real, f: Finding, faults: ApplyFaults)
    requires Calm(cfg, s, t, clock) && clock <= f.ts
    ensures
      var r := ApplyLoaded(cfg, s, InsertFinding(t, f), f, |t.findings|, faults);
      r.copy.Some? && Calm(cfg, r.copy.value, r.tables, f.ts)
  {
    hide Calm, Watch, AttachTo;
    var u := Add(cfg.bucket, s.bucket, f.severity, f.ts);
    var s1 := s.(bucket := u.newState);
    var p := Pending(|t.findings|, Some(f.severity));
    var t1 := InsertFinding(t, f);
    InsertKeepsCalm(cfg, s, t, clock, f);
    CalmIsTimed(cfg, s, t, clock);
    CalmDependsOn(cfg, s, s1, t1, t1, f.ts);
    match s.status
    case Clean =>
      var w := s1.(status := Watching, since := f.ts, pending := [p]);
      CalmDependsOn(cfg, s, w, t1, t1, f.ts);
      WatchKeepsCalm(cfg, w, t1, f, u.crossedOpen, faults);
    case Watching =>
      var w := s1.(pending := s.pending + [p]);
      CalmDependsOn(cfg, s, w, t1, t1, f.ts);
      WatchKeepsCalm(cfg, w, t1, f, u.crossedOpen, faults);
    case Firing =>
      AttachToKeepsCalm(cfg, s1, t1, |t.findings|, s1, f.ts, faults);
    case Recovering =>
      AttachToKeepsCalm(cfg, s1, t1, |t.findings|, s1.(status := Firing, since := f.ts), f.ts, faults);
  }

  // -------------------------------------------------------------- visits keep it

  lemma ClosingKeepsCalm(cfg: Config, s: PolicyState, t: Tables, clock: real, now: real, s': PolicyState)
    requires Calm(cfg, s, t, clock) && clock <= now && Closes(cfg, s, now)
    requires s'.status.Clean? && s'.since == now && s'.openEvent.None?
    ensures Calm(cfg, s', t.(events := CloseEvent(t.events, s.openEvent.value, now)), now)
  {
    var t' := t.(events := CloseEvent(t.events, s.openEvent.value, now));
    forall v | 0 <= v < |t'.events| ensures ClosedQuietly(cfg, t', v) {
      assert ClosedQuietly(cfg, t, v);
    }
  }

  lemma SweptKeepsCalm(cfg: Config, s: PolicyState, t: Tables, clock: real, now: real)
    requires Calm(cfg, s, t, clock) && clock <= now && !Closes(cfg, s, now)
    ensures Calm(cfg, Swept(cfg, s, now), t, now)
  {
    hide ClosedQuietly, Leaked;
  }

  lemma VisitKeepsCalm(
    cfg: Config, s: PolicyState, t: Tables, clock: real, now: real, closeFails: bool, saveFails: bool)
    requires Calm(cfg, s, t, clock) && clock <= now
    ensures
      var v := SweepVisit(cfg, s, t, now, closeFails, saveFails);
      Calm(cfg, v.state, v.tables, now)
  {
    if Closes(cfg, s, now) {
      if closeFails {
        hide ClosedQuietly, Leaked;
      } else {
        hide Calm;
        var closed := t.(events := CloseEvent(t.events, s.openEvent.value, now));
        ClosingKeepsCalm(cfg, s, t, clock, now, Swept(cfg, s, now));
        SavingKeepsCalm(cfg, Swept(cfg, s, now), closed, now, saveFails);
      }
    } else {
      hide Calm, Swept;
      SweptKeepsCalm(cfg, s, t, clock, now);
      SavingKeepsCalm(cfg, Swept(cfg, s, now), t, now, saveFails);
    }
  }

  // --------------------------------------------------------------- every run

  ghost predicate AllTimed(sl: Slice, clock: real) {
    && clock >= 0.0 && Stored(sl.tables).since <= clock
    && forall kind :: kind in sl.copies ==> sl.copies[kind].since <= clock
  }

  /** Every restart finds such a row. */
  ghost predicate Punctual(cfg: Config, steps: seq<Step>) {
    forall i :: 0 <= i < |steps| && steps[i].Restarted? ==>
      var t := SliceAfter(cfg, steps[..i]).tables;
      HeldCalmly(Stored(t), t)
  }

  /** A restart keeps the calm exactly if the event that the row holds is open and none of its findings is
      later than the recovery in the row. */
  lemma RestartKeepsCalmIff(cfg: Config, sl: Slice, clock: real)
    requires Calm(cfg, LoadedFor(sl, ""), sl.tables, clock) && Stored(sl.tables).since <= clock
    ensures Calm(cfg, LoadedFor(Restart(sl), ""), sl.tables, clock) <==> HeldCalmly(Stored(sl.tables), sl.tables)
  {
    hide ClosedQuietly, HeldCalmly;
  }

  /** Otherwise, if a finding is later than the recovery in the row, a sweep closes the event a quiet period
      after that finding, on the dot. */
  lemma LateFindingEndsInQuiet(cfg: Config, t: Tables, i: nat, closeFails: bool, saveFails: bool)
    requires
      var s := Stored(t);
      && s.status.Recovering? && s.openEvent.Some? && s.openEvent.value < |t.events|
      && i < |t.findings| && t.findings[i].event == s.openEvent && t.findings[i].ts > s.since
    requires !closeFails
    ensures
      var v := SweepVisit(cfg, Stored(t), t, t.findings[i].ts + cfg.quietPeriod, closeFails, saveFails);
      !ClosedQuietly(cfg, v.tables, Stored(t).openEvent.value)
  {
    hide Swept, FromRow, ToRow;
    var v := SweepVisit(cfg, Stored(t), t, t.findings[i].ts + cfg.quietPeriod, closeFails, saveFails);
    assert v.tables.findings[i] == t.findings[i];
  }

  lemma CalmLater(cfg: Config, s: PolicyState, t: Tables, clock: real, clock': real)
    requires Calm(cfg, s, t, clock) && clock <= clock'
    ensures Calm(cfg, s, t, clock')
  {
    hide ClosedQuietly;
  }

  lemma ReportKeepsCalm(cfg: Config, sl: Slice, step: Step, clock: real)
    requires step.Reported? && step.kind == "" && clock <= step.finding.ts
    requires Calm(cfg, LoadedFor(sl, ""), sl.tables, clock)
    ensures Calm(cfg, LoadedFor(Next(cfg, sl, step), ""), Next(cfg, sl, step).tables, step.finding.ts)
  {
    hide Calm, ApplyLoaded, FromRow;
    var f := step.finding;
    CalmLater(cfg, LoadedFor(sl, ""), sl.tables, clock, f.ts);
    if Applies(sl, step) {
      InsertKeepsCalm(cfg, LoadedFor(sl, ""), sl.tables, clock, f);
      if Load(CopyIn(sl, ""), InsertFinding(sl.tables, f), step.faults.load).Some? {
        ApplyKeepsCalm(cfg, LoadedFor(sl, ""), sl.tables, clock, f, step.faults);
      }
    }
  }

  lemma StepKeepsCalm(cfg: Config, sl: Slice, step: Step, clock: real)
    requires sl.copies.Keys <= {""} && AllTimed(sl, clock)
    requires step.Reported? ==> step.kind == ""
    requires step.Restarted? ==> HeldCalmly(Stored(sl.tables), sl.tables)
    requires Calm(cfg, LoadedFor(sl, ""), sl.tables, clock) && clock <= TimeOf(step, clock)
    ensures
      var sl' := Next(cfg, sl, step);
      sl'.copies.Keys <= {""} && Calm(cfg, LoadedFor(sl', ""), sl'.tables, TimeOf(step, clock))
  {
    hide Calm, SweepVisit, Report;
    match step
    case Reported(_, _, _, _) => ReportKeepsCalm(cfg, sl, step, clock);
    case Listed =>
    case Visited(kind, now, closeFails, saveFails) =>
      if kind in sl.copies {
        VisitKeepsCalm(cfg, LoadedFor(sl, ""), sl.tables, clock, now, closeFails, saveFails);
      } else {
        CalmLater(cfg, LoadedFor(sl, ""), sl.tables, clock, now);
      }
    case Restarted => RestartKeepsCalmIff(cfg, sl, clock);
  }

  lemma ApplyIsTimed(cfg: Config, s: PolicyState, t: Tables, f: Finding, id: nat, faults: ApplyFaults)
    requires s.since <= f.ts
    ensures
      var r := ApplyLoaded(cfg, s, t, f, id, faults);
      r.copy.Some? && r.copy.value.since <= f.ts && RowFollows(t, r.copy.value, r.tables)
  {
    hide AttachAll, PeakSeverity, Leaked;
  }

  lemma VisitIsTimed(cfg: Config, s: PolicyState, t: Tables, now: real, closeFails: bool, saveFails: bool)
    requires s.since <= now
    ensures
      var v := SweepVisit(cfg, s, t, now, closeFails, saveFails);
      v.state.since <= now && RowFollows(t, v.state, v.tables)
  {
    hide Leaked;
  }

  lemma StepIsTimed(cfg: Config, sl: Slice, step: Step, clock: real)
    requires AllTimed(sl, clock) && clock <= TimeOf(step, clock)
    ensures AllTimed(Next(cfg, sl, step), TimeOf(step, clock))
  {
    hide ApplyLoaded, SweepVisit;
    match step
    case Reported(kind, f, _, faults) =>
      if Applies(sl, step) {
        ApplyIsTimed(cfg, LoadedFor(sl, kind), InsertFinding(sl.tables, f), f, |sl.tables.findings|, faults);
      }
    case Visited(kind, now, closeFails, saveFails) =>
      if kind in sl.copies {
        VisitIsTimed(cfg, sl.copies[kind], sl.tables, now, closeFails, saveFails);
      }
    case _ =>
  }

  lemma {:induction false} EveryStateIsTimed(cfg: Config, steps: seq<Step>)
    requires Forward(steps)
    ensures AllTimed(SliceAfter(cfg, steps), ClockAfter(steps))
    decreases |steps|
  {
    hide Next;
    if steps != [] {
      var before := steps[..|steps| - 1];
      EveryStateIsTimed(cfg, before);
      StepIsTimed(cfg, SliceAfter(cfg, before), steps[|steps| - 1], ClockAfter(before));
    }
  }

  lemma PunctualBefore(cfg: Config, steps: seq<Step>)
    requires steps != [] && Punctual(cfg, steps)
    ensures
      var before := steps[..|steps| - 1];
      var t := SliceAfter(cfg, before).tables;
      Punctual(cfg, before) && (steps[|steps| - 1].Restarted? ==> HeldCalmly(Stored(t), t))
  {
    hide SliceAfter, HeldCalmly;
    assert forall i :: 0 <= i < |steps| - 1 ==> steps[..|steps| - 1][..i] == steps[..i];
  }

  lemma NothingIsCalm(cfg: Config)
    ensures EMPTY_SLICE.copies.Keys <= {""} && Calm(cfg, LoadedFor(EMPTY_SLICE, ""), EMPTY_TABLES, 0.0)
  {
  }

  lemma {:induction false} EveryRunIsCalm(cfg: Config, steps: seq<Step>)
    requires ReportedUnder("", steps) && Punctual(cfg, steps) && Forward(steps)
    ensures
      var sl := SliceAfter(cfg, steps);
      sl.copies.Keys <= {""} && Calm(cfg, LoadedFor(sl, ""), sl.tables, ClockAfter(steps))
    decreases |steps|
  {
    hide Next, Calm, AllTimed, Punctual, LoadedFor, HeldCalmly;
    if steps == [] {
      NothingIsCalm(cfg);
    } else {
      var n := |steps| - 1;
      PunctualBefore(cfg, steps);
      EveryRunIsCalm(cfg, steps[..n]);
      EveryStateIsTimed(cfg, steps[..n]);
      StepKeepsCalm(cfg, SliceAfter(cfg, steps[..n]), steps[n], ClockAfter(steps[..n]));
    }
  }

  /** No finding was attached to a closed event during its final quiet period. */
  lemma ClosedEventsWereQuiet(cfg: Config, steps: seq<Step>, v: nat, i: nat)
    requires ReportedUnder("", steps) && Punctual(cfg, steps) && Forward(steps)
    requires
      var t := SliceAfter(cfg, steps).tables;
      && v < |t.events| && t.events[v].closedAt.Some?
      && i < |t.findings| && t.findings[i].event == Some(v)
    ensures
      var t := SliceAfter(cfg, steps).tables;
      t.findings[i].ts < t.events[v].closedAt.value - cfg.quietPeriod
  {
    hide SliceAfter, Punctual;
    EveryRunIsCalm(cfg, steps);
    assert ClosedQuietly(cfg, SliceAfter(cfg, steps).tables, v);
  }
}
