/**
 What the score promises: the edge trigger behaves as a level trigger, and no alarm stays stuck. All of it
 holds of each state, in memory or stored, under any keys.
 */
module PolicyScores {
  import opened Options
  import opened Reals
  import opened LeakyBucket
  import opened PolicyModel
  import opened PolicyRuns
  import opened PolicyTimes

  // ------------------------------------------------------- edge is level

  /** No transaction that opens an event and no attachment fails; loads, saves and closes may. */
  predicate Commits(step: Step) {
    step.Reported? ==> step.faults.tx.NoFault? && !step.faults.attach
  }

  ghost predicate AllCommit(steps: seq<Step>) {
    forall i :: 0 <= i < |steps| ==> Commits(steps[i])
  }

  /** Without an open event the score is below the open threshold. */
  predicate Quiet(cfg: Config, s: PolicyState) {
    && (s.status.Clean? || s.status.Watching? ==> s.bucket.score < cfg.bucket.open)
    && (s.status.Recovering? ==> s.bucket.score < cfg.bucket.close)
  }

  ghost predicate AllQuiet(cfg: Config, sl: Slice) {
    && (forall kind :: kind in sl.copies ==> Quiet(cfg, sl.copies[kind]))
    && (sl.tables.row.Some? ==> Quiet(cfg, FromRow(sl.tables.row.value)))
  }

  lemma ApplyKeepsQuiet(cfg: Config, s: PolicyState, t: Tables, f: Finding, id: nat, faults: ApplyFaults, clock: real)
    requires Reasonable(cfg) && Shape(s) && Quiet(cfg, s) && Clocked(s, clock) && clock <= f.ts
    requires faults.tx.NoFault? && !faults.attach
    ensures
      var r := ApplyLoaded(cfg, s, t, f, id, faults);
      var opens := s.openEvent.None? && Add(cfg.bucket, s.bucket, f.severity, f.ts).newState.score >= cfg.bucket.open;
      && r.copy.Some? && Quiet(cfg, r.copy.value)
      && |r.tables.events| == |t.events| + if opens then 1 else 0
  {
    LeakBounds(cfg.bucket, s.bucket, f.ts);
  }

  lemma VisitKeepsQuiet(
    cfg: Config, s: PolicyState, t: Tables, now: real, closeFails: bool, saveFails: bool, clock: real)
    requires Reasonable(cfg) && Quiet(cfg, s) && Clocked(s, clock) && clock <= now
    ensures Quiet(cfg, SweepVisit(cfg, s, t, now, closeFails, saveFails).state)
  {
    LeakBounds(cfg.bucket, s.bucket, now);
  }

  lemma FreshIsQuiet(cfg: Config)
    requires Reasonable(cfg)
    ensures Quiet(cfg, FRESH)
  {
  }

  lemma LoadedLives(cfg: Config, sl: Slice, kind: string, clock: real)
    requires AllLive(cfg, sl, clock)
    ensures Shape(LoadedFor(sl, kind)) && Placed(LoadedFor(sl, kind), sl.tables.events)
    ensures Clocked(LoadedFor(sl, kind), clock)
  {
    hide OpenAged, Outlived;
  }

  lemma LoadedIsQuiet(cfg: Config, sl: Slice, kind: string)
    requires Reasonable(cfg) && AllQuiet(cfg, sl)
    ensures Quiet(cfg, LoadedFor(sl, kind))
  {
    hide Quiet;
    FreshIsQuiet(cfg);
  }

  lemma StepKeepsQuiet(cfg: Config, sl: Slice, step: Step, clock: real)
    requires Reasonable(cfg) && AllLive(cfg, sl, clock) && AllQuiet(cfg, sl) && Commits(step)
    requires clock <= TimeOf(step, clock)
    ensures AllQuiet(cfg, Next(cfg, sl, step))
  {
    hide ApplyLoaded, SweepVisit, AllLive, Clocked;
    match step
    case Reported(kind, f, _, faults) =>
      if Applies(sl, step) {
        var s, t, id := LoadedFor(sl, kind), InsertFinding(sl.tables, f), |sl.tables.findings|;
        LoadedLives(cfg, sl, kind, clock);
        LoadedIsQuiet(cfg, sl, kind);
        ApplyKeepsPlace(cfg, s, t, f, id, faults);
        ApplyKeepsQuiet(cfg, s, t, f, id, faults, clock);
      }
    case Visited(kind, now, closeFails, saveFails) =>
      if kind in sl.copies {
        LoadedLives(cfg, sl, kind, clock);
        VisitKeepsPlace(cfg, sl.copies[kind], sl.tables, now, closeFails, saveFails);
        VisitKeepsQuiet(cfg, sl.copies[kind], sl.tables, now, closeFails, saveFails, clock);
      }
    case _ =>
  }

  lemma NoStateIsQuiet(cfg: Config)
    ensures AllQuiet(cfg, EMPTY_SLICE)
  {
  }

  /** On every run forward in time in which openings and attachments succeed, a state that is clean or
      watching is below the open threshold and one that is recovering below the close threshold. */
  lemma {:induction false} EveryStateIsQuiet(cfg: Config, steps: seq<Step>)
    requires Reasonable(cfg) && Forward(steps) && AllCommit(steps)
    ensures AllQuiet(cfg, SliceAfter(cfg, steps))
    decreases |steps|
  {
    hide Next, AllQuiet;
    if steps == [] {
      NoStateIsQuiet(cfg);
    } else {
      var before := steps[..|steps| - 1];
      EveryStateIsQuiet(cfg, before);
      EveryStateLives(cfg, before);
      StepKeepsQuiet(cfg, SliceAfter(cfg, before), steps[|steps| - 1], ClockAfter(before));
    }
  }

  /** A finding under any key opens an event exactly when the state it works on has none open and the new
      score reaches the open threshold, although the code only looks for the rising edge. */
  lemma EdgeIsLevel(cfg: Config, steps: seq<Step>, kind: string, f: Finding, faults: ApplyFaults)
    requires Reasonable(cfg) && Forward(steps) && AllCommit(steps)
    requires ClockAfter(steps) <= f.ts && !Conflicts(SliceAfter(cfg, steps).tables, f.ts)
    requires !faults.load && faults.tx.NoFault? && !faults.attach
    ensures
      var sl := SliceAfter(cfg, steps);
      var sl' := Next(cfg, sl, Reported(kind, f, false, faults));
      var s := LoadedFor(sl, kind);
      var score := Add(cfg.bucket, s.bucket, f.severity, f.ts).newState.score;
      |sl'.tables.events| == |sl.tables.events| + if s.openEvent.None? && score >= cfg.bucket.open then 1 else 0
  {
    hide ApplyLoaded, SliceAfter, Add, Quiet, AllLive, AllQuiet;
    EveryStateIsQuiet(cfg, steps);
    EveryStateLives(cfg, steps);
    var sl := SliceAfter(cfg, steps);
    LoadedLives(cfg, sl, kind, ClockAfter(steps));
    LoadedIsQuiet(cfg, sl, kind);
    ApplyKeepsQuiet(cfg, LoadedFor(sl, kind), InsertFinding(sl.tables, f), f, |sl.tables.findings|, faults,
                    ClockAfter(steps));
  }

  lemma AppliedOpensIff(cfg: Config, s: PolicyState, t: Tables, f: Finding, id: nat, faults: ApplyFaults)
    requires Shape(s) && faults.tx.NoFault?
    ensures
      var leaked := Leaked(cfg.bucket, s.bucket, f.ts);
      |ApplyLoaded(cfg, s, t, f, id, faults).tables.events| ==
      |t.events| + if s.openEvent.None? && leaked < cfg.bucket.open <= leaked + Abs(f.severity) then 1 else 0
  {
    hide Leaked, Abs;
  }

  /** On any run, whatever failed and whatever the clocks did: a finding opens an event by that rule exactly
      unless the state it works on has none open and a score that is still, or already, over the threshold. */
  lemma EdgeIsLevelIff(cfg: Config, steps: seq<Step>, kind: string, f: Finding, faults: ApplyFaults)
    requires !Conflicts(SliceAfter(cfg, steps).tables, f.ts) && !faults.load && faults.tx.NoFault?
    ensures
      var sl := SliceAfter(cfg, steps);
      var sl' := Next(cfg, sl, Reported(kind, f, false, faults));
      var s := LoadedFor(sl, kind);
      var score := Add(cfg.bucket, s.bucket, f.severity, f.ts).newState.score;
      |sl'.tables.events| == |sl.tables.events| + (if s.openEvent.None? && score >= cfg.bucket.open then 1 else 0) <==>
      !(s.openEvent.None? && Leaked(cfg.bucket, s.bucket, f.ts) >= cfg.bucket.open)
  {
    hide ApplyLoaded, SliceAfter, Leaked;
    EveryStateIsPlaced(cfg, steps);
    var sl := SliceAfter(cfg, steps);
    AppliedOpensIff(cfg, LoadedFor(sl, kind), InsertFinding(sl.tables, f), f, |sl.tables.findings|, faults);
  }

  const FAILED_OPENING: seq<Step> :=
    [Reported("", Finding(6.0, 10.0), false, NO_APPLY_FAULTS.(tx := AtCommit)),
     Reported("", Finding(6.0, 11.0), false, NO_APPLY_FAULTS)]

  const UNOPENED := PolicyState(Watching, 10.0, BucketState(6.0, 10.0), None, [Pending(0, Some(6.0))])

  lemma OpeningFails()
    ensures Next(DEPLOYED, EMPTY_SLICE, FAILED_OPENING[0]) ==
      Slice(map["" := UNOPENED], Tables([FindingRow(10.0, 6.0, None)], [], None))
  {
    assert InsertFinding(EMPTY_SLICE.tables, Finding(6.0, 10.0)).findings == [FindingRow(10.0, 6.0, None)];
  }

  lemma SecondOpensNothing()
    ensures
      var sl := Slice(map["" := UNOPENED], Tables([FindingRow(10.0, 6.0, None)], [], None));
      var sl' := Next(DEPLOYED, sl, FAILED_OPENING[1]);
      && sl'.tables.events == []
      && "" in sl'.copies && sl'.copies[""].status.Watching? && sl'.copies[""].bucket.score > DEPLOYED.bucket.open
  {
  }

  /** If the transaction that opens an event fails, the next finding finds the score over the threshold and
      opens nothing either. */
  lemma FailedOpeningIsNotRetried()
    ensures
      var sl := SliceAfter(DEPLOYED, FAILED_OPENING);
      && sl.tables.events == []
      && "" in sl.copies && sl.copies[""].status.Watching? && sl.copies[""].bucket.score > DEPLOYED.bucket.open
  {
    hide Next;
    var run := FAILED_OPENING;
    assert run[..1][..0] == [];
    assert SliceAfter(DEPLOYED, run[..1]) == Next(DEPLOYED, SliceAfter(DEPLOYED, []), run[0]);
    assert SliceAfter(DEPLOYED, run) == Next(DEPLOYED, SliceAfter(DEPLOYED, run[..1]), run[1]);
    OpeningFails();
    SecondOpensNothing();
  }

  // --------------------------------------------------------- audible alarms

  /** Every finding weighs at least the close threshold. */
  ghost predicate Loud(cfg: Config, steps: seq<Step>) {
    forall i :: 0 <= i < |steps| && steps[i].Reported? ==> Abs(steps[i].finding.severity) >= cfg.bucket.close
  }

  predicate Audible(cfg: Config, s: PolicyState) {
    s.status.Firing? ==> s.bucket.score >= cfg.bucket.close
  }

  ghost predicate AllAudible(cfg: Config, sl: Slice) {
    && (forall kind :: kind in sl.copies ==> Audible(cfg, sl.copies[kind]))
    && (sl.tables.row.Some? ==> Audible(cfg, FromRow(sl.tables.row.value)))
  }

  lemma ApplyKeepsAudible(cfg: Config, s: PolicyState, t: Tables, f: Finding, id: nat, faults: ApplyFaults)
    requires cfg.bucket.close <= cfg.bucket.open && Abs(f.severity) >= cfg.bucket.close
    ensures
      var r := ApplyLoaded(cfg, s, t, f, id, faults);
      r.copy.Some? && Audible(cfg, r.copy.value) && RowFollows(t, r.copy.value, r.tables)
  {
    hide AttachAll, PeakSeverity;
  }

  lemma VisitKeepsAudible(cfg: Config, s: PolicyState, t: Tables, now: real, closeFails: bool, saveFails: bool)
    requires Audible(cfg, s)
    ensures
      var v := SweepVisit(cfg, s, t, now, closeFails, saveFails);
      Audible(cfg, v.state) && RowFollows(t, v.state, v.tables)
  {
  }

  lemma StepKeepsAudible(cfg: Config, sl: Slice, step: Step)
    requires cfg.bucket.close <= cfg.bucket.open && AllAudible(cfg, sl)
    requires step.Reported? ==> Abs(step.finding.severity) >= cfg.bucket.close
    ensures AllAudible(cfg, Next(cfg, sl, step))
  {
    hide ApplyLoaded, SweepVisit;
    match step
    case Reported(kind, f, _, faults) =>
      if Applies(sl, step) {
        ApplyKeepsAudible(cfg, LoadedFor(sl, kind), InsertFinding(sl.tables, f), f, |sl.tables.findings|, faults);
      }
    case Visited(kind, now, closeFails, saveFails) =>
      if kind in sl.copies {
        VisitKeepsAudible(cfg, sl.copies[kind], sl.tables, now, closeFails, saveFails);
      }
    case _ =>
  }

  /** On every run with loud findings, whatever fails and whatever the clocks do, a firing state has a
      score of at least the close threshold. */
  lemma {:induction false} EveryStateIsAudible(cfg: Config, steps: seq<Step>)
    requires cfg.bucket.close <= cfg.bucket.open && Loud(cfg, steps)
    ensures AllAudible(cfg, SliceAfter(cfg, steps))
    decreases |steps|
  {
    hide Next, Audible;
    if steps != [] {
      var before := steps[..|steps| - 1];
      EveryStateIsAudible(cfg, before);
      StepKeepsAudible(cfg, SliceAfter(cfg, before), steps[|steps| - 1]);
    }
  }

  // ------------------------------------------------------------ no stuck alarm

  /** The state after sweeps at the given times. */
  function SweptAt(cfg: Config, s: PolicyState, ticks: seq<real>): PolicyState {
    if ticks == [] then s else Swept(cfg, SweptAt(cfg, s, ticks[..|ticks| - 1]), ticks[|ticks| - 1])
  }

  function LastTick(ticks: seq<real>, start: real): real {
    if ticks == [] then start else ticks[|ticks| - 1]
  }

  /** Sweeps come in order, at most `gap` apart, from `start` on. */
  ghost predicate Regular(ticks: seq<real>, start: real, gap: real) {
    ticks == [] ||
    var n := |ticks| - 1;
    Regular(ticks[..n], start, gap) && 0.0 <= ticks[n] - LastTick(ticks[..n], start) <= gap
  }

  /** When a firing bucket leaks down to the close threshold. */
  function CrossingTime(cfg: Config, b: BucketState): real
    requires cfg.bucket.decay > 0.0
  {
    b.updatedAt + (b.score - cfg.bucket.close) / cfg.bucket.decay
  }

  /** The time by which sweeps at most `gap` apart have cleaned the state. */
  function Due(cfg: Config, s: PolicyState, time: real, gap: real): real
    requires cfg.bucket.decay > 0.0
  {
    match s.status
    case Clean => time
    case Watching => Max(time, s.since + cfg.confirmWindow) + gap
    case Recovering => Max(time, s.since + cfg.quietPeriod) + gap
    case Firing => Max(time, CrossingTime(cfg, s.bucket)) + gap + cfg.quietPeriod + gap
  }

  lemma DivideOut(d: real, room: real, elapsed: real)
    requires d > 0.0
    ensures (room - d * elapsed) / d == room / d - elapsed
    ensures d * elapsed <= room ==> elapsed <= room / d
  {
    assert d * elapsed / d == elapsed;
    assert (room - d * elapsed) / d == room / d - d * elapsed / d;
    if d * elapsed <= room {
      assert (room - d * elapsed) / d >= 0.0;
    }
  }

  lemma CrossingTimeStays(cfg: Config, b: BucketState, now: real)
    requires cfg.bucket.decay > 0.0 && cfg.bucket.close > 0.0
    requires Leaked(cfg.bucket, b, now) >= cfg.bucket.close
    ensures now <= CrossingTime(cfg, b)
    ensures CrossingTime(cfg, Decay(cfg.bucket, b, now).newState) == CrossingTime(cfg, b)
  {
    var d, room := cfg.bucket.decay, b.score - cfg.bucket.close;
    var lost := d * (now - b.updatedAt);
    assert Leaked(cfg.bucket, b, now) == b.score - lost;
    DivideOut(d, room, now - b.updatedAt);
  }

  lemma SweepApproaches(cfg: Config, s: PolicyState, time: real, now: real, gap: real)
    requires Reasonable(cfg) && gap > 0.0 && Shape(s) && Audible(cfg, s)
    requires !s.status.Clean? && time <= now <= time + gap
    ensures
      var s' := Swept(cfg, s, now);
      s'.status.Clean? || Due(cfg, s', now, gap) <= Due(cfg, s, time, gap)
  {
    if s.status.Firing? && !Decay(cfg.bucket, s.bucket, now).crossedClose {
      CrossingTimeStays(cfg, s.bucket, now);
    }
  }

  lemma SweptKeepsShape(cfg: Config, s: PolicyState, now: real)
    requires Shape(s) && Audible(cfg, s)
    ensures Shape(Swept(cfg, s, now)) && Audible(cfg, Swept(cfg, s, now))
  {
  }

  lemma {:induction false} SweptKeepShape(cfg: Config, s: PolicyState, ticks: seq<real>)
    requires Shape(s) && Audible(cfg, s)
    ensures Shape(SweptAt(cfg, s, ticks)) && Audible(cfg, SweptAt(cfg, s, ticks))
    decreases |ticks|
  {
    hide Shape, Audible, Swept;
    if ticks != [] {
      SweptKeepShape(cfg, s, ticks[..|ticks| - 1]);
      SweptKeepsShape(cfg, SweptAt(cfg, s, ticks[..|ticks| - 1]), ticks[|ticks| - 1]);
    }
  }

  lemma CleanStaysClean(cfg: Config, s: PolicyState, now: real)
    requires s.status.Clean?
    ensures Swept(cfg, s, now).status.Clean?
  {
  }

  /** Under regular sweeps the time by which a state will be clean never moves later. */
  lemma {:induction false} DueNeverSlips(cfg: Config, s: PolicyState, start: real, ticks: seq<real>, gap: real)
    requires Reasonable(cfg) && gap > 0.0 && Shape(s) && Audible(cfg, s) && Regular(ticks, start, gap)
    ensures
      var s' := SweptAt(cfg, s, ticks);
      s'.status.Clean? || Due(cfg, s', LastTick(ticks, start), gap) <= Due(cfg, s, start, gap)
    decreases |ticks|
  {
    hide Shape, Audible, Swept, Due, Reasonable;
    if ticks != [] {
      var n := |ticks| - 1;
      var s1 := SweptAt(cfg, s, ticks[..n]);
      DueNeverSlips(cfg, s, start, ticks[..n], gap);
      SweptKeepShape(cfg, s, ticks[..n]);
      if s1.status.Clean? {
        CleanStaysClean(cfg, s1, ticks[n]);
      } else {
        SweepApproaches(cfg, s1, LastTick(ticks[..n], start), ticks[n], gap);
      }
    }
  }

  /** Sweeps clean a state, in any status, by its due time. */
  lemma SweepsClear(cfg: Config, s: PolicyState, start: real, ticks: seq<real>, gap: real)
    requires Reasonable(cfg) && gap > 0.0 && Shape(s) && Audible(cfg, s) && Regular(ticks, start, gap)
    requires LastTick(ticks, start) >= Due(cfg, s, start, gap)
    ensures SweptAt(cfg, s, ticks).status.Clean?
  {
    DueNeverSlips(cfg, s, start, ticks, gap);
  }

  /** (score - close) / decay, the quiet period and two sweep gaps. */
  function FiringBound(cfg: Config, score: real, gap: real): real
    requires cfg.bucket.decay > 0.0
  {
    (score - cfg.bucket.close) / cfg.bucket.decay + cfg.quietPeriod + 2.0 * gap
  }

  lemma DueOfFiring(cfg: Config, s: PolicyState, time: real, gap: real)
    requires Reasonable(cfg) && s.status.Firing? && Audible(cfg, s) && s.bucket.updatedAt <= time
    ensures Due(cfg, s, time, gap) <= time + FiringBound(cfg, s.bucket.score, gap)
  {
    assert (s.bucket.score - cfg.bucket.close) / cfg.bucket.decay >= 0.0;
  }

  /** A firing state below the close threshold stays firing under any sweeps. */
  lemma {:induction false} SilentAlarmIsStuck(cfg: Config, s: PolicyState, start: real, ticks: seq<real>, gap: real)
    requires cfg.bucket.decay >= 0.0 && 0.0 < cfg.bucket.close
    requires s.status.Firing? && Clocked(s, start) && !Audible(cfg, s) && Regular(ticks, start, gap)
    ensures
      var s' := SweptAt(cfg, s, ticks);
      && s'.status.Firing? && !Audible(cfg, s')
      && s'.bucket.score >= 0.0 && s'.bucket.updatedAt <= LastTick(ticks, start)
    decreases |ticks|
  {
    if ticks != [] {
      var n := |ticks| - 1;
      SilentAlarmIsStuck(cfg, s, start, ticks[..n], gap);
      LeakBounds(cfg.bucket, SweptAt(cfg, s, ticks[..n]).bucket, ticks[n]);
    }
  }

  /** Once (score - close) / decay, the quiet period and two sweep gaps have passed, a firing state is
      clean exactly if its score was at least the close threshold. */
  lemma AlarmEndsIff(cfg: Config, s: PolicyState, start: real, ticks: seq<real>, gap: real)
    requires Reasonable(cfg) && gap > 0.0 && Shape(s) && s.status.Firing? && Clocked(s, start)
    requires Regular(ticks, start, gap) && LastTick(ticks, start) >= start + FiringBound(cfg, s.bucket.score, gap)
    ensures SweptAt(cfg, s, ticks).status.Clean? <==> s.bucket.score >= cfg.bucket.close
  {
    hide SweptAt, Due, FiringBound;
    if Audible(cfg, s) {
      DueOfFiring(cfg, s, start, gap);
      SweepsClear(cfg, s, start, ticks, gap);
    } else {
      SilentAlarmIsStuck(cfg, s, start, ticks, gap);
    }
  }

  /** A finding, a sweep 40 s later that finds the score below the close threshold, and a faint finding. */
  const FAINT_RUN: seq<Step> :=
    [Reported("", Finding(6.0, 10.0), false, NO_APPLY_FAULTS), Listed, Visited("", 50.0, false, false),
     Reported("", Finding(0.5, 51.0), false, NO_APPLY_FAULTS)]

  const CALMED := PolicyState(Recovering, 50.0, BucketState(2.0, 50.0), Some(0), [])
  const FAINT := PolicyState(Firing, 51.0, BucketState(2.4, 51.0), Some(0), [])

  lemma Calms()
    ensures Swept(DEPLOYED, OPENED, 50.0) == CALMED && !Closes(DEPLOYED, OPENED, 50.0)
  {
  }

  lemma FaintReport(t: Tables, id: nat)
    ensures ApplyLoaded(DEPLOYED, CALMED, t, Finding(0.5, 51.0), id, NO_APPLY_FAULTS).copy == Some(FAINT)
  {
    assert Leaked(DEPLOYED.bucket, CALMED.bucket, 51.0) == 1.9;
  }

  /** That run fires again below the close threshold. */
  lemma FaintRunFires()
    ensures CopyIn(SliceAfter(DEPLOYED, FAINT_RUN), "") == Some(FAINT)
  {
    hide ApplyLoaded, Swept, Leaked;
    var run := FAINT_RUN;
    assert run[..0] == [] && run[..1][..0] == [] && run[..2][..1] == run[..1] && run[..3][..2] == run[..2];
    FirstReport("", false);
    assert SliceAfter(DEPLOYED, run[..1]) == Next(DEPLOYED, EMPTY_SLICE, run[0]);
    assert CopyIn(SliceAfter(DEPLOYED, run[..2]), "") == Some(OPENED);
    Calms();
    var sl := SliceAfter(DEPLOYED, run[..3]);
    assert sl == Next(DEPLOYED, SliceAfter(DEPLOYED, run[..2]), run[2]);
    assert CopyIn(sl, "") == Some(CALMED) && sl.tables.findings == [FIRST];
    FaintReport(InsertFinding(sl.tables, Finding(0.5, 51.0)), 1);
    assert !Conflicts(sl.tables, 51.0);
  }

  /** And it stays firing under any sweeps. */
  lemma FaintAlarmIsStuck(ticks: seq<real>, gap: real)
    requires Regular(ticks, 51.0, gap)
    ensures CopyIn(SliceAfter(DEPLOYED, FAINT_RUN), "").Some?
    ensures SweptAt(DEPLOYED, CopyIn(SliceAfter(DEPLOYED, FAINT_RUN), "").value, ticks).status.Firing?
  {
    hide SliceAfter, SweptAt;
    FaintRunFires();
    SilentAlarmIsStuck(DEPLOYED, FAINT, 51.0, ticks, gap);
  }

  // -------------------------------------------------------- along every run

  /** No report under this key, no restart, and no failure to close this state's event. Anything else may
      happen: reports under other keys, failed saves, sweeps that do not get to this state. */
  predicate LeavesAlone(step: Step, kind: string) {
    && (step.Reported? ==> step.kind != kind)
    && (step.Visited? && step.kind == kind ==> !step.closeFails)
    && !step.Restarted?
  }

  ghost predicate Undisturbed(tail: seq<Step>, kind: string) {
    forall i :: 0 <= i < |tail| ==> LeavesAlone(tail[i], kind)
  }

  /** When sweeps get to the state. */
  function VisitTimes(tail: seq<Step>, kind: string): seq<real> {
    if tail == [] then []
    else
      var last := tail[|tail| - 1];
      VisitTimes(tail[..|tail| - 1], kind) + if last.Visited? && last.kind == kind then [last.now] else []
  }

  lemma LastTickApart(ticks: seq<real>, now: real)
    ensures (ticks + [now])[..|ticks + [now]| - 1] == ticks
  {
  }

  lemma StepSweeps(cfg: Config, sl: Slice, step: Step, kind: string)
    requires kind in sl.copies && LeavesAlone(step, kind)
    ensures
      var sl' := Next(cfg, sl, step);
      && kind in sl'.copies
      && sl'.copies[kind] ==
           if step.Visited? && step.kind == kind then Swept(cfg, sl.copies[kind], step.now) else sl.copies[kind]
  {
    hide Report, Swept;
  }

  lemma StepsApart(cfg: Config, steps: seq<Step>, tail: seq<Step>)
    requires tail != []
    ensures
      var n := |tail| - 1;
      SliceAfter(cfg, steps + tail) == Next(cfg, SliceAfter(cfg, steps + tail[..n]), tail[n])
  {
    assert (steps + tail)[..|steps + tail| - 1] == steps + tail[..|tail| - 1];
  }

  /** An undisturbed state is what the sweeps that get to it make of it. */
  lemma {:induction false} StateIsSwept(cfg: Config, steps: seq<Step>, tail: seq<Step>, kind: string)
    requires kind in SliceAfter(cfg, steps).copies && Undisturbed(tail, kind)
    ensures
      var sl := SliceAfter(cfg, steps + tail);
      && kind in sl.copies
      && sl.copies[kind] == SweptAt(cfg, SliceAfter(cfg, steps).copies[kind], VisitTimes(tail, kind))
    decreases |tail|
  {
    hide Next, Swept;
    if tail == [] {
      assert steps + tail == steps;
    } else {
      var n := |tail| - 1;
      StateIsSwept(cfg, steps, tail[..n], kind);
      StepsApart(cfg, steps, tail);
      StepSweeps(cfg, SliceAfter(cfg, steps + tail[..n]), tail[n], kind);
      LastTickApart(VisitTimes(tail[..n], kind), if tail[n].Visited? then tail[n].now else 0.0);
      assert VisitTimes(tail[..n], kind) + [] == VisitTimes(tail[..n], kind);
    }
  }

  lemma ReachedState(cfg: Config, steps: seq<Step>, kind: string)
    requires Reasonable(cfg) && Forward(steps) && Loud(cfg, steps) && kind in SliceAfter(cfg, steps).copies
    ensures
      var s := SliceAfter(cfg, steps).copies[kind];
      Shape(s) && Clocked(s, ClockAfter(steps)) && Audible(cfg, s)
  {
    hide SliceAfter, Audible;
    EveryStateLives(cfg, steps);
    EveryStateIsAudible(cfg, steps);
    LoadedLives(cfg, SliceAfter(cfg, steps), kind, ClockAfter(steps));
  }

  /** No stuck state: after any run forward in time with loud findings, under any keys and whatever failed
      or restarted, an undisturbed in-memory state that sweeps get to regularly is clean by its due time. */
  lemma EveryStateClears(cfg: Config, steps: seq<Step>, kind: string, tail: seq<Step>, gap: real)
    requires Reasonable(cfg) && gap > 0.0 && Forward(steps) && Loud(cfg, steps)
    requires kind in SliceAfter(cfg, steps).copies && Undisturbed(tail, kind)
    requires
      var start, ticks := ClockAfter(steps), VisitTimes(tail, kind);
      && Regular(ticks, start, gap)
      && LastTick(ticks, start) >= Due(cfg, SliceAfter(cfg, steps).copies[kind], start, gap)
    ensures
      var sl := SliceAfter(cfg, steps + tail);
      kind in sl.copies && sl.copies[kind].status.Clean?
  {
    hide SliceAfter, Due, Audible, Clocked, Shape;
    ReachedState(cfg, steps, kind);
    StateIsSwept(cfg, steps, tail, kind);
    SweepsClear(cfg, SliceAfter(cfg, steps).copies[kind], ClockAfter(steps), VisitTimes(tail, kind), gap);
  }

  /** In particular an alarm ends once (score - close) / decay, the quiet period and two sweep gaps have
      passed. */
  lemma FiringEndsInTime(cfg: Config, steps: seq<Step>, kind: string, tail: seq<Step>, gap: real)
    requires Reasonable(cfg) && gap > 0.0 && Forward(steps) && Loud(cfg, steps)
    requires kind in SliceAfter(cfg, steps).copies && Undisturbed(tail, kind)
    requires
      var start, ticks, s := ClockAfter(steps), VisitTimes(tail, kind), SliceAfter(cfg, steps).copies[kind];
      && s.status.Firing? && Regular(ticks, start, gap)
      && LastTick(ticks, start) >= start + FiringBound(cfg, s.bucket.score, gap)
    ensures
      var sl := SliceAfter(cfg, steps + tail);
      kind in sl.copies && sl.copies[kind].status.Clean?
  {
    hide SliceAfter, Due, FiringBound, Shape;
    ReachedState(cfg, steps, kind);
    DueOfFiring(cfg, SliceAfter(cfg, steps).copies[kind], ClockAfter(steps), gap);
    EveryStateClears(cfg, steps, kind, tail, gap);
  }
}
