/**
 The in-memory map is keyed by the series and its probe type, but the sweep loads rows under keys
 without a probe type (services/argus/policy_engine.go:131-137), while the worker's keys always carry
 one (services/argus/worker.go:127-134). A series reported under a typed key therefore gets a second
 in-memory state at the next sweep, which ages on its own and shares the row and the event.

 How long events live, when they open and that alarms end does not suffer from it. On runs of the whole
 engine without a failed call, the quiet before an event closes holds exactly if the keys carry no probe
 type; that a series has one open event and that a finding stays with its event hold exactly if the keys
 carry no probe type or the process never restarts.
 */
module PolicyKeys {
  import opened Options
  import opened LeakyBucket
  import opened PolicyModel
  import opened PolicyRuns
  import opened PolicyTimes
  import opened PolicyQuiet
  import opened PolicyScores
  import opened PolicyProduct

  predicate Succeeds(step: Step) {
    match step
    case Reported(_, _, insertFails, faults) => !insertFails && faults == NO_APPLY_FAULTS
    case Visited(_, _, closeFails, saveFails) => !closeFails && !saveFails
    case _ => true
  }

  ghost predicate Healthy(steps: seq<Step>) {
    forall i :: 0 <= i < |steps| ==> Succeeds(steps[i])
  }

  /** No finding is attached to an event during its final quiet period. */
  ghost predicate QuietBeforeClosing(cfg: Config, t: Tables) {
    forall v, i ::
      (0 <= v < |t.events| && t.events[v].closedAt.Some? && 0 <= i < |t.findings| && t.findings[i].event == Some(v))
      ==> t.findings[i].ts < t.events[v].closedAt.value - cfg.quietPeriod
  }

  // ------------------------------------------------------- untyped keys

  /** The one in-memory state is as saved. */
  ghost predicate InSync(sl: Slice) {
    sl.copies.Keys <= {""} && ("" in sl.copies ==> sl.tables.row == Some(ToRow(sl.copies[""])))
  }

  /** A loaded row saves to itself. */
  lemma RowRoundTrip(r: Row)
    ensures ToRow(FromRow(r)) == r
  {
    assert Ids(FromRow(r).pending) == r.pendingIds;
  }

  lemma ApplySaves(cfg: Config, s: PolicyState, t: Tables, f: Finding, id: nat)
    requires Shape(s)
    ensures
      var r := ApplyLoaded(cfg, s, t, f, id, NO_APPLY_FAULTS);
      r.copy.Some? && r.tables.row == Some(ToRow(r.copy.value))
  {
    hide OpenTables, Leaked, ToRow;
  }

  lemma StepKeepsSync(cfg: Config, sl: Slice, step: Step)
    requires AllPlaced(sl) && InSync(sl) && Succeeds(step) && (step.Reported? ==> step.kind == "")
    ensures InSync(Next(cfg, sl, step))
  {
    hide ApplyLoaded, ToRow, FromRow, Swept;
    match step
    case Reported(kind, f, _, _) =>
      if Applies(sl, step) {
        ApplySaves(cfg, LoadedFor(sl, kind), InsertFinding(sl.tables, f), f, |sl.tables.findings|);
      }
    case Listed =>
      if sl.tables.row.Some? {
        RowRoundTrip(sl.tables.row.value);
      }
    case _ =>
  }

  lemma {:induction false} UntypedRunsAreInSync(cfg: Config, steps: seq<Step>)
    requires Healthy(steps) && ReportedUnder("", steps)
    ensures InSync(SliceAfter(cfg, steps))
    decreases |steps|
  {
    hide Next, Succeeds;
    if steps != [] {
      var before := steps[..|steps| - 1];
      UntypedRunsAreInSync(cfg, before);
      EveryStateIsPlaced(cfg, before);
      StepKeepsSync(cfg, SliceAfter(cfg, before), steps[|steps| - 1]);
    }
  }

  lemma SyncSavesDuties(sl: Slice, ledger: Ledger)
    requires InSync(sl) && Structured(sl, "", ledger)
    ensures DutiesSaved(sl, "")
  {
    if "" in sl.copies {
      RowKeepsIds(sl.copies[""]);
    }
  }

  lemma SyncStaysCalm(cfg: Config, sl: Slice, clock: real)
    requires InSync(sl) && Calm(cfg, LoadedFor(sl, ""), sl.tables, clock)
    ensures HeldCalmly(Stored(sl.tables), sl.tables)
  {
    hide ClosedQuietly, FindingsBefore;
  }

  /** On a run without failures under such keys, restarts find every state saved. */
  lemma {:induction false} UntypedRunsAreSound(cfg: Config, steps: seq<Step>)
    requires Healthy(steps) && ReportedUnder("", steps)
    ensures Sound(cfg, "", steps)
    decreases |steps|
  {
    hide DutiesSaved, Succeeds, SliceAfter, Structured, InSync;
    if steps != [] {
      var n := |steps| - 1;
      var before := steps[..n];
      UntypedRunsAreSound(cfg, before);
      EveryRunIsStructured(cfg, "", before);
      UntypedRunsAreInSync(cfg, before);
      SyncSavesDuties(SliceAfter(cfg, before), LedgerAfter(cfg, "", before));
      assert forall i :: 0 <= i < n ==> before[..i] == steps[..i];
    }
  }

  lemma {:induction false} UntypedRunsArePunctual(cfg: Config, steps: seq<Step>)
    requires Forward(steps) && Healthy(steps) && ReportedUnder("", steps)
    ensures Punctual(cfg, steps)
    decreases |steps|
  {
    hide HeldCalmly, Succeeds, SliceAfter, InSync, Stored, LoadedFor, Calm;
    if steps != [] {
      var n := |steps| - 1;
      var before := steps[..n];
      UntypedRunsArePunctual(cfg, before);
      EveryRunIsCalm(cfg, before);
      UntypedRunsAreInSync(cfg, before);
      SyncStaysCalm(cfg, SliceAfter(cfg, before), ClockAfter(before));
      assert forall i :: 0 <= i < n ==> before[..i] == steps[..i];
    }
  }

  lemma UntypedRunsAreQuiet(cfg: Config, steps: seq<Step>)
    requires Forward(steps) && Healthy(steps) && ReportedUnder("", steps)
    ensures QuietBeforeClosing(cfg, SliceAfter(cfg, steps).tables)
  {
    hide SliceAfter, Punctual;
    UntypedRunsArePunctual(cfg, steps);
    var t := SliceAfter(cfg, steps).tables;
    forall v, i | 0 <= v < |t.events| && t.events[v].closedAt.Some?
                  && 0 <= i < |t.findings| && t.findings[i].event == Some(v)
      ensures t.findings[i].ts < t.events[v].closedAt.value - cfg.quietPeriod
    {
      ClosedEventsWereQuiet(cfg, steps, v, i);
    }
  }

  // ------------------------------------------------- healthy runs of the engine

  const NO_SWEEP_FAULTS := SweepFaults(false, {}, {})

  predicate EngineSucceeds(step: EngineStep) {
    match step
    case EngineReport(_, _, insertFails, faults) => !insertFails && faults == NO_APPLY_FAULTS
    case EngineSweep(_, _, faults) => faults == NO_SWEEP_FAULTS
    case EngineRestart => true
  }

  predicate Fits(step: EngineStep, kind: string, mayRestart: bool) {
    && EngineSucceeds(step)
    && (step.EngineReport? ==> step.key.kind == kind)
    && (step.EngineRestart? ==> mayRestart)
  }

  /** A run of the engine forward in time, without a failed call, reported under keys of one probe type. */
  ghost predicate HealthyRun(es: seq<Engine>, steps: seq<EngineStep>, kind: string, mayRestart: bool) {
    && Run(DEPLOYED, es, steps) && EngineForward(steps)
    && forall i :: 0 <= i < |steps| ==> Fits(steps[i], kind, mayRestart)
  }

  lemma HealthyEither(es: seq<Engine>, steps: seq<EngineStep>, kind: string, mayRestart: bool)
    requires HealthyRun(es, steps, kind, false)
    ensures HealthyRun(es, steps, kind, mayRestart)
  {
  }

  lemma {:induction false} VisitsSucceed(
    cfg: Config, e: Engine, order: seq<SeriesKey>, now: real, series: SeriesId)
    requires forall i :: 0 <= i < |order| ==> order[i] in e.states
    ensures Healthy(Visits(cfg, e, order, now, NO_SWEEP_FAULTS, series))
    decreases |order|
  {
    hide SweepVisit, TablesOf;
    if order != [] {
      var v := VisitKey(cfg, e, order[0], now, NO_SWEEP_FAULTS);
      assert forall i :: 0 <= i < |order[1..]| ==> order[1..][i] == order[i + 1];
      VisitsSucceed(cfg, Put(e, order[0], Some(v.state), v.tables), order[1..], now, series);
    }
  }

  lemma ProjectSucceeds(cfg: Config, e: Engine, step: EngineStep, e': Engine, series: SeriesId)
    requires Steps(cfg, e, step, e') && EngineSucceeds(step)
    ensures Healthy(Project(cfg, e, step, series))
  {
    hide Visits, SweepKeys, Hydrate, ReportStep;
    if step.EngineSweep? {
      VisitsSucceed(cfg, Hydrate(e), step.order, step.now, series);
    }
  }

  lemma HealthyTogether(a: seq<Step>, b: seq<Step>)
    requires Healthy(a) && Healthy(b)
    ensures Healthy(a + b)
  {
  }

  lemma {:induction false} HistoryIsHealthy(cfg: Config, es: seq<Engine>, steps: seq<EngineStep>, series: SeriesId)
    requires Trace(cfg, es, steps) && forall i :: 0 <= i < |steps| ==> EngineSucceeds(steps[i])
    ensures Healthy(History(cfg, es, steps, series))
    decreases |steps|
  {
    hide Project, EngineSucceeds, Succeeds;
    if steps != [] {
      var n := |steps| - 1;
      HistoryIsHealthy(cfg, es[..n + 1], steps[..n], series);
      assert Steps(cfg, es[n], steps[n], es[n + 1]);
      ProjectSucceeds(cfg, es[n], steps[n], es[n + 1], series);
      HealthyTogether(History(cfg, es[..n + 1], steps[..n], series), Project(cfg, es[n], steps[n], series));
    }
  }

  /** Without a probe type, or without restarts, a healthy run is sound for every series. */
  lemma HealthyRunIsSound(
    es: seq<Engine>, steps: seq<EngineStep>, kind: string, mayRestart: bool, series: SeriesId)
    requires HealthyRun(es, steps, kind, mayRestart) && (kind == "" || !mayRestart)
    ensures Sound(DEPLOYED, kind, History(DEPLOYED, es, steps, series))
  {
    hide Steps, Sound, History, EngineForward, AnswersFor, Healthy, ReportedUnder;
    var key := SeriesKey(kind, series);
    if kind == "" {
      HistoryIsHealthy(DEPLOYED, es, steps, series);
      HistoryIsReportedUnder(DEPLOYED, es, steps, key);
      UntypedRunsAreSound(DEPLOYED, History(DEPLOYED, es, steps, series));
    } else {
      assert EngineSound(es, steps, key);
      HistoryIsSound(DEPLOYED, es, steps, key);
    }
  }

  lemma UntypedHealthyRunIsQuiet(es: seq<Engine>, steps: seq<EngineStep>, mayRestart: bool, series: SeriesId)
    requires HealthyRun(es, steps, "", mayRestart)
    ensures QuietBeforeClosing(DEPLOYED, TablesOf(es[|steps|].db, series))
  {
    hide Steps, History, EngineForward, Healthy, ReportedUnder, SliceAfter, Forward, QuietBeforeClosing;
    var run := History(DEPLOYED, es, steps, series);
    HistoryIsHealthy(DEPLOYED, es, steps, series);
    HistoryIsReportedUnder(DEPLOYED, es, steps, SeriesKey("", series));
    HistoryIsForward(DEPLOYED, es, steps, series);
    UntypedRunsAreQuiet(DEPLOYED, run);
    EngineIsProduct(DEPLOYED, es, steps, series);
  }

  lemma HealthyRunHasOneOpenEvent(
    es: seq<Engine>, steps: seq<EngineStep>, kind: string, mayRestart: bool, series: SeriesId)
    requires HealthyRun(es, steps, kind, mayRestart) && (kind == "" || !mayRestart)
    ensures OneOpenEvent(TablesOf(es[|steps|].db, series))
  {
    hide Steps, Sound, History, SliceAfter, OneOpenEvent, EngineForward;
    HealthyRunIsSound(es, steps, kind, mayRestart, series);
    RunsHaveOneOpenEvent(DEPLOYED, kind, History(DEPLOYED, es, steps, series));
    EngineIsProduct(DEPLOYED, es, steps, series);
  }

  // ------------------------------------------------------ an engine of one series

  /** The engine that has this series only. */
  function Solo(series: SeriesId, sl: Slice): Engine {
    var keys := set kind | kind in sl.copies :: SeriesKey(kind, series);
    Engine(map key | key in keys :: sl.copies[key.kind], map[series := sl.tables])
  }

  lemma SoloAt(series: SeriesId, sl: Slice, key: SeriesKey)
    ensures key in Solo(series, sl).states <==> key.series == series && key.kind in sl.copies
    ensures key in Solo(series, sl).states ==> Solo(series, sl).states[key] == sl.copies[key.kind]
  {
    if key.series == series && key.kind in sl.copies {
      assert key == SeriesKey(key.kind, series);
    }
  }

  lemma SoloTables(series: SeriesId, sl: Slice)
    ensures Solo(series, sl).db == map[series := sl.tables] && TablesOf(Solo(series, sl).db, series) == sl.tables
  {
  }

  lemma SoloEquals(series: SeriesId, sl: Slice, e: Engine)
    requires e.db == map[series := sl.tables]
    requires forall key :: key in e.states <==> key.series == series && key.kind in sl.copies
    requires forall key :: key in e.states ==> e.states[key] == sl.copies[key.kind]
    ensures e == Solo(series, sl)
  {
    hide Solo;
    assert Solo(series, sl).db == e.db by { SoloTables(series, sl); }
    forall key
      ensures key in e.states <==> key in Solo(series, sl).states
      ensures key in e.states ==> e.states[key] == Solo(series, sl).states[key]
    {
      SoloAt(series, sl, key);
    }
    assert e.states == Solo(series, sl).states;
  }

  lemma SoloPut(key: SeriesKey, sl: Slice, copy: Option<PolicyState>, t: Tables)
    ensures Put(Solo(key.series, sl), key, copy, t) == Solo(key.series, PutIn(sl, key.kind, copy, t))
  {
    hide Solo;
    SoloTables(key.series, sl);
    forall k { SoloAt(key.series, sl, k); }
    SoloEquals(key.series, PutIn(sl, key.kind, copy, t), Put(Solo(key.series, sl), key, copy, t));
  }

  lemma SoloCopy(key: SeriesKey, sl: Slice)
    ensures CopyOf(Solo(key.series, sl), key) == CopyIn(sl, key.kind)
    ensures TablesOf(Solo(key.series, sl).db, key.series) == sl.tables
  {
    SoloAt(key.series, sl, key);
  }

  lemma SoloReport(cfg: Config, key: SeriesKey, sl: Slice, f: Finding)
    ensures
      Steps(cfg, Solo(key.series, sl), EngineReport(key, f, false, NO_APPLY_FAULTS),
            Solo(key.series, Next(cfg, sl, Reported(key.kind, f, false, NO_APPLY_FAULTS))))
  {
    hide Solo, Report;
    SoloCopy(key, sl);
    var r := Report(cfg, CopyIn(sl, key.kind), sl.tables, f, false, NO_APPLY_FAULTS);
    SoloPut(key, sl, r.copy, r.tables);
  }

  lemma FirstSoloReport(cfg: Config, key: SeriesKey, f: Finding)
    ensures
      Steps(cfg, EMPTY_ENGINE, EngineReport(key, f, false, NO_APPLY_FAULTS),
            Solo(key.series, Next(cfg, EMPTY_SLICE, Reported(key.kind, f, false, NO_APPLY_FAULTS))))
  {
    hide Report, Solo;
    var r := Report(cfg, None, EMPTY_TABLES, f, false, NO_APPLY_FAULTS);
    SoloEquals(key.series, PutIn(EMPTY_SLICE, key.kind, r.copy, r.tables), Put(EMPTY_ENGINE, key, r.copy, r.tables));
  }

  lemma SoloHydrate(cfg: Config, series: SeriesId, sl: Slice)
    ensures Hydrate(Solo(series, sl)) == Solo(series, Next(cfg, sl, Listed))
  {
    var e := Solo(series, sl);
    SoloTables(series, sl);
    assert Hydrate(e).db == e.db;
    hide Solo, Hydrate, FromRow;
    forall key
      ensures key in Hydrate(e).states <==> key.series == series && key.kind in Next(cfg, sl, Listed).copies
      ensures key in Hydrate(e).states ==> Hydrate(e).states[key] == Next(cfg, sl, Listed).copies[key.kind]
    {
      HydrateAt(e, key);
      SoloAt(series, sl, key);
      SoloAt(series, sl, SeriesKey("", series));
    }
    SoloEquals(series, Next(cfg, sl, Listed), Hydrate(e));
  }

  lemma SoloVisit(cfg: Config, key: SeriesKey, sl: Slice, now: real)
    requires key.kind in sl.copies
    ensures key in Solo(key.series, sl).states
    ensures
      var v := VisitKey(cfg, Solo(key.series, sl), key, now, NO_SWEEP_FAULTS);
      && !v.aborted
      && Put(Solo(key.series, sl), key, Some(v.state), v.tables)
           == Solo(key.series, Next(cfg, sl, Visited(key.kind, now, false, false)))
  {
    hide Solo, Swept, Save;
    SoloAt(key.series, sl, key);
    SoloCopy(key, sl);
    var v := SweepVisit(cfg, sl.copies[key.kind], sl.tables, now, false, false);
    SoloPut(key, sl, Some(v.state), v.tables);
  }

  /** After a sweep that visits the state under `a` and then the one under `b`. */
  function SweptSlice(cfg: Config, sl: Slice, a: string, b: string, now: real): Slice {
    Next(cfg, Next(cfg, Next(cfg, sl, Listed), Visited(a, now, false, false)), Visited(b, now, false, false))
  }

  lemma VisitKeepsKeys(cfg: Config, sl: Slice, kind: string, now: real)
    ensures Next(cfg, sl, Visited(kind, now, false, false)).copies.Keys == sl.copies.Keys
  {
    hide SweepVisit;
  }

  lemma SoloSweepKeys(cfg: Config, series: SeriesId, sl: Slice, a: string, b: string, now: real)
    requires a in sl.copies && b in sl.copies
    ensures SeriesKey(a, series) in Solo(series, sl).states && SeriesKey(b, series) in Solo(series, sl).states
    ensures
      var order := [SeriesKey(a, series), SeriesKey(b, series)];
      var sl1 := Next(cfg, sl, Visited(a, now, false, false));
      SweepKeys(cfg, Solo(series, sl), order, now, NO_SWEEP_FAULTS) ==
        Solo(series, Next(cfg, sl1, Visited(b, now, false, false)))
  {
    hide Solo, VisitKey, Next;
    var ka, kb := SeriesKey(a, series), SeriesKey(b, series);
    var sl1 := Next(cfg, sl, Visited(a, now, false, false));
    SoloAt(series, sl, ka);
    SoloAt(series, sl, kb);
    SoloVisit(cfg, ka, sl, now);
    VisitKeepsKeys(cfg, sl, a, now);
    SoloVisit(cfg, kb, sl1, now);
    assert [ka, kb][1..] == [kb] && [kb][1..] == [];
    assert SweepKeys(cfg, Solo(series, sl1), [kb], now, NO_SWEEP_FAULTS) ==
           Solo(series, Next(cfg, sl1, Visited(b, now, false, false)));
  }

  lemma SoloSweep(cfg: Config, series: SeriesId, sl: Slice, a: string, b: string, now: real)
    requires a != b && Next(cfg, sl, Listed).copies.Keys == {a, b}
    ensures
      Steps(cfg, Solo(series, sl), EngineSweep(now, [SeriesKey(a, series), SeriesKey(b, series)], NO_SWEEP_FAULTS),
            Solo(series, SweptSlice(cfg, sl, a, b, now)))
  {
    hide Solo, SweepKeys, Next;
    var sl1 := Next(cfg, sl, Listed);
    SoloHydrate(cfg, series, sl);
    SoloSweepKeys(cfg, series, sl1, a, b, now);
    var order := [SeriesKey(a, series), SeriesKey(b, series)];
    forall key ensures key in Solo(series, sl1).states <==> key in order {
      SoloAt(series, sl1, key);
    }
  }

  lemma SoloRestart(cfg: Config, series: SeriesId, sl: Slice)
    ensures Steps(cfg, Solo(series, sl), EngineRestart, Solo(series, Restart(sl)))
  {
    assert Solo(series, Restart(sl)).states == map[];
  }

  lemma EngineForwardUpTo(steps: seq<EngineStep>, n: nat)
    requires 1 <= n <= |steps|
    ensures EngineClock(steps[..n]) == EngineTime(steps[n - 1], EngineClock(steps[..n - 1]))
    ensures EngineForward(steps[..n]) <==>
            EngineForward(steps[..n - 1]) && EngineClock(steps[..n - 1]) <= EngineClock(steps[..n])
  {
    assert steps[..n][..n - 1] == steps[..n - 1];
  }

  // ------------------------------------------------- a run under a typed key

  /** A finding, a sweep of both in-memory states, a finding, a sweep of both. */
  function TypedRun(key: SeriesKey): seq<EngineStep> {
    var order := [SeriesKey("", key.series), key];
    [EngineReport(key, Finding(6.0, 10.0), false, NO_APPLY_FAULTS), EngineSweep(50.0, order, NO_SWEEP_FAULTS),
     EngineReport(key, Finding(6.0, 60.0), false, NO_APPLY_FAULTS), EngineSweep(171.0, order, NO_SWEEP_FAULTS)]
  }

  const AGAIN := PolicyState(Firing, 60.0, BucketState(7.0, 60.0), Some(0), [])
  const SECOND := FindingRow(60.0, 6.0, Some(0))

  function Stage(copies: map<string, PolicyState>, findings: seq<FindingRow>, event: Event, last: PolicyState): Slice {
    Slice(copies, Tables(findings, [event], Some(ToRow(last))))
  }

  function FirstStage(kind: string): Slice {
    Stage(map[kind := OPENED], [FIRST], OPEN_EVENT, OPENED)
  }

  function CalmedStage(kind: string): Slice {
    Stage(map[kind := CALMED, "" := CALMED], [FIRST], OPEN_EVENT, CALMED)
  }

  function AgainStage(kind: string): Slice {
    Stage(map[kind := AGAIN, "" := CALMED], [FIRST, SECOND], OPEN_EVENT, AGAIN)
  }

  lemma RowOf(s: PolicyState)
    requires s.pending == []
    ensures FromRow(ToRow(s)) == s
  {
  }

  /** The sweep loads the row a second time, under the key without a probe type. */
  lemma TypedRunDuplicates(kind: string)
    requires kind != ""
    ensures Next(DEPLOYED, FirstStage(kind), Listed) ==
      Stage(map[kind := OPENED, "" := OPENED], [FIRST], OPEN_EVENT, OPENED)
  {
    RowOf(OPENED);
  }

  lemma TypedRunCalms(kind: string)
    requires kind != ""
    ensures SweptSlice(DEPLOYED, FirstStage(kind), "", kind, 50.0) == CalmedStage(kind)
  {
    hide ToRow;
    TypedRunDuplicates(kind);
    Calms();
    var sl := Stage(map[kind := OPENED, "" := OPENED], [FIRST], OPEN_EVENT, OPENED);
    assert Next(DEPLOYED, sl, Visited("", 50.0, false, false)) ==
           Stage(map[kind := OPENED, "" := CALMED], [FIRST], OPEN_EVENT, CALMED);
  }

  lemma TypedRunFiresAgain(kind: string)
    requires kind != ""
    ensures Next(DEPLOYED, CalmedStage(kind), Reported(kind, Finding(6.0, 60.0), false, NO_APPLY_FAULTS)) ==
      AgainStage(kind)
  {
    var t := Tables([FIRST], [OPEN_EVENT], Some(ToRow(CALMED)));
    var t1 := InsertFinding(t, Finding(6.0, 60.0));
    assert !Conflicts(t, 60.0);
    assert Attach(t1.findings, 1, 0) == [FIRST, SECOND];
    assert Add(DEPLOYED.bucket, CALMED.bucket, 6.0, 60.0).newState == BucketState(7.0, 60.0);
  }

  /** The second finding is attached at 60 s, 111 s before the stale copy closes the event. */
  lemma TypedRunCloses(kind: string)
    requires kind != ""
    ensures Next(DEPLOYED, AgainStage(kind), Listed) == AgainStage(kind)
    ensures
      var t := SweptSlice(DEPLOYED, AgainStage(kind), "", kind, 171.0).tables;
      t.findings == [FIRST, SECOND] && t.events == [OPEN_EVENT.(closedAt := Some(171.0))]
  {
    hide ToRow;
    var sl := AgainStage(kind);
    assert Closes(DEPLOYED, CALMED, 171.0) && !Closes(DEPLOYED, AGAIN, 171.0);
    var sl1 := Next(DEPLOYED, sl, Visited("", 171.0, false, false));
    assert sl1.tables.events == [OPEN_EVENT.(closedAt := Some(171.0))] && CopyIn(sl1, kind) == Some(AGAIN);
  }

  lemma TypedRunIsForward(key: SeriesKey)
    ensures EngineForward(TypedRun(key))
  {
    var run := TypedRun(key);
    assert run[..0] == [] && run[..4] == run;
    EngineForwardUpTo(run, 1);
    EngineForwardUpTo(run, 2);
    EngineForwardUpTo(run, 3);
    EngineForwardUpTo(run, 4);
  }

  /** A run of the engine without failure or restart that breaks the quiet promise. */
  lemma TypedRunBreaksPromise(key: SeriesKey) returns (es: seq<Engine>)
    requires key.kind != ""
    ensures HealthyRun(es, TypedRun(key), key.kind, false)
    ensures !QuietBeforeClosing(DEPLOYED, TablesOf(es[|TypedRun(key)|].db, key.series))
  {
    hide Solo, Steps, Next, ToRow, EngineForward;
    var kind, series := key.kind, key.series;
    var last := SweptSlice(DEPLOYED, AgainStage(kind), "", kind, 171.0);
    es := [EMPTY_ENGINE, Solo(series, FirstStage(kind)), Solo(series, CalmedStage(kind)),
           Solo(series, AgainStage(kind)), Solo(series, last)];
    FirstReport(kind, false);
    FirstSoloReport(DEPLOYED, key, Finding(6.0, 10.0));
    TypedRunDuplicates(kind);
    TypedRunCalms(kind);
    SoloSweep(DEPLOYED, series, FirstStage(kind), "", kind, 50.0);
    TypedRunFiresAgain(kind);
    SoloReport(DEPLOYED, key, CalmedStage(kind), Finding(6.0, 60.0));
    TypedRunCloses(kind);
    SoloSweep(DEPLOYED, series, AgainStage(kind), "", kind, 171.0);
    TypedRunIsForward(key);
    SoloTables(series, last);
    assert last.tables.findings[1].event == Some(0);
  }

  const SOME_SERIES := SeriesId("", "", 0, "", "")

  /** The quiet promise holds on every healthy run of the engine, with restarts or without, exactly when the
      reports' keys carry no probe type. */
  lemma PromiseHoldsIffUntyped(kind: string, mayRestart: bool)
    ensures
      (forall es: seq<Engine>, steps: seq<EngineStep>, series :: HealthyRun(es, steps, kind, mayRestart) ==>
         QuietBeforeClosing(DEPLOYED, TablesOf(es[|steps|].db, series)))
      <==> kind == ""
  {
    hide QuietBeforeClosing, EngineForward, Fits, Steps, TablesOf;
    if kind == "" {
      forall es: seq<Engine>, steps: seq<EngineStep>, series | HealthyRun(es, steps, "", mayRestart)
        ensures QuietBeforeClosing(DEPLOYED, TablesOf(es[|steps|].db, series))
      {
        UntypedHealthyRunIsQuiet(es, steps, mayRestart, series);
      }
    } else {
      var es := TypedRunBreaksPromise(SeriesKey(kind, SOME_SERIES));
      HealthyEither(es, TypedRun(SeriesKey(kind, SOME_SERIES)), kind, mayRestart);
    }
  }

  // ------------------------------------- a run under a typed key with a restart

  /** A finding, a sweep that loads the row a second time, a finding that opens an event, a sweep that saves
      the second state over the first, a restart, and a finding. */
  function TypedRestart(key: SeriesKey): seq<EngineStep> {
    var own := SeriesKey("", key.series);
    [EngineReport(key, Finding(4.0, 10.0), false, NO_APPLY_FAULTS), EngineSweep(15.0, [own, key], NO_SWEEP_FAULTS),
     EngineReport(key, Finding(4.0, 20.0), false, NO_APPLY_FAULTS), EngineSweep(30.0, [key, own], NO_SWEEP_FAULTS),
     EngineRestart, EngineReport(key, Finding(4.0, 40.0), false, NO_APPLY_FAULTS)]
  }

  const WAITING := PolicyState(Watching, 10.0, BucketState(4.0, 10.0), None, [Pending(0, Some(4.0))])
  const LOADED := PolicyState(Watching, 10.0, BucketState(4.0, 10.0), None, [Pending(0, None)])
  const WAITED := PolicyState(Watching, 10.0, BucketState(3.5, 15.0), None, [Pending(0, Some(4.0))])
  const LOITERED := PolicyState(Watching, 10.0, BucketState(3.5, 15.0), None, [Pending(0, None)])
  const FIRED := PolicyState(Firing, 20.0, BucketState(7.0, 20.0), Some(0), [])
  const BURNED := PolicyState(Firing, 20.0, BucketState(6.0, 30.0), Some(0), [])
  const STALE := PolicyState(Watching, 10.0, BucketState(2.0, 30.0), None, [Pending(0, None)])
  const EARLY := FindingRow(10.0, 4.0, None)
  const TAKEN := [FindingRow(10.0, 4.0, Some(0)), FindingRow(20.0, 4.0, Some(0))]
  const TAKEN_AGAIN := [FindingRow(10.0, 4.0, Some(1)), FindingRow(20.0, 4.0, Some(0)), FindingRow(40.0, 4.0, Some(1))]
  const ONE_EVENT := Event(20.0, None, 2, 4.0)
  const TWO_EVENTS := [Event(20.0, None, 2, 4.0), Event(40.0, None, 2, 4.0)]

  function WaitingStage(kind: string): Slice {
    Slice(map[kind := WAITING], Tables([EARLY], [], Some(ToRow(WAITING))))
  }

  function LoadedStage(kind: string): Slice {
    Slice(map[kind := WAITING, "" := LOADED], Tables([EARLY], [], Some(ToRow(WAITING))))
  }

  function WaitedStage(kind: string): Slice {
    Slice(map[kind := WAITED, "" := LOITERED], Tables([EARLY], [], Some(ToRow(WAITED))))
  }

  function FiredStage(kind: string): Slice {
    Slice(map[kind := FIRED, "" := LOITERED], Tables(TAKEN, [ONE_EVENT], Some(ToRow(FIRED))))
  }

  function StaleStage(kind: string): Slice {
    Slice(map[kind := BURNED, "" := STALE], Tables(TAKEN, [ONE_EVENT], Some(ToRow(STALE))))
  }

  lemma Waits(kind: string)
    ensures Next(DEPLOYED, EMPTY_SLICE, Reported(kind, Finding(4.0, 10.0), false, NO_APPLY_FAULTS)) ==
      WaitingStage(kind)
  {
    assert InsertFinding(EMPTY_TABLES, Finding(4.0, 10.0)) == Tables([EARLY], [], None);
  }

  lemma LoadsAgain(kind: string)
    requires kind != ""
    ensures Next(DEPLOYED, WaitingStage(kind), Listed) == LoadedStage(kind)
  {
    assert FromRow(ToRow(WAITING)) == LOADED;
  }

  lemma BothWait(kind: string)
    requires kind != ""
    ensures SweptSlice(DEPLOYED, WaitingStage(kind), "", kind, 15.0) == WaitedStage(kind)
  {
    hide ToRow;
    LoadsAgain(kind);
    assert Next(DEPLOYED, LoadedStage(kind), Visited("", 15.0, false, false)) ==
      Slice(map[kind := WAITING, "" := LOITERED], Tables([EARLY], [], Some(ToRow(LOITERED))));
  }

  lemma AttachesBoth()
    ensures AttachAll([EARLY, FindingRow(20.0, 4.0, None)], [Pending(0, Some(4.0)), Pending(1, Some(4.0))], 0) == TAKEN
  {
    var p := [Pending(0, Some(4.0)), Pending(1, Some(4.0))];
    var rows := [EARLY, FindingRow(20.0, 4.0, None)];
    assert p[..1] == [Pending(0, Some(4.0))] && p[..1][..0] == [];
    assert AttachAll(rows, p[..1], 0) == Attach(rows, 0, 0);
  }

  lemma PeakOfTwo(a: Pending, b: Pending)
    requires a.severity == None || a.severity == Some(4.0)
    requires b.severity == Some(4.0)
    ensures PeakSeverity([a, b], 4.0) == 4.0
  {
    var both := [a, b];
    assert forall i :: 0 <= i < 2 ==> both[i].severity == None || both[i].severity == Some(4.0);
  }

  lemma Opens(kind: string)
    requires kind != ""
    ensures Next(DEPLOYED, WaitedStage(kind), Reported(kind, Finding(4.0, 20.0), false, NO_APPLY_FAULTS)) ==
      FiredStage(kind)
  {
    var f := Finding(4.0, 20.0);
    var t := WaitedStage(kind).tables;
    var p := [Pending(0, Some(4.0)), Pending(1, Some(4.0))];
    assert InsertFinding(t, f).findings == [EARLY, FindingRow(20.0, 4.0, None)];
    assert WAITED.pending + [Pending(1, Some(4.0))] == p;
    AttachesBoth();
    PeakOfTwo(p[0], p[1]);
  }

  lemma SavesOver(kind: string)
    requires kind != ""
    ensures Next(DEPLOYED, FiredStage(kind), Listed) == FiredStage(kind)
    ensures SweptSlice(DEPLOYED, FiredStage(kind), kind, "", 30.0) == StaleStage(kind)
  {
    hide ToRow;
    assert Next(DEPLOYED, FiredStage(kind), Visited(kind, 30.0, false, false)) ==
      Slice(map[kind := BURNED, "" := LOITERED], Tables(TAKEN, [ONE_EVENT], Some(ToRow(BURNED))));
  }

  lemma AttachesAgain()
    ensures
      AttachAll(TAKEN + [FindingRow(40.0, 4.0, None)], [Pending(0, None), Pending(2, Some(4.0))], 1) == TAKEN_AGAIN
  {
    var p := [Pending(0, None), Pending(2, Some(4.0))];
    var rows := TAKEN + [FindingRow(40.0, 4.0, None)];
    assert p[..1] == [Pending(0, None)] && p[..1][..0] == [];
    assert AttachAll(rows, p[..1], 1) == Attach(rows, 0, 1);
  }

  lemma OpensAgain(kind: string)
    ensures
      var report := Reported(kind, Finding(4.0, 40.0), false, NO_APPLY_FAULTS);
      var after := Next(DEPLOYED, Restart(StaleStage(kind)), report);
      after.tables.events == TWO_EVENTS && after.tables.findings == TAKEN_AGAIN
  {
    var t := StaleStage(kind).tables;
    var p := [Pending(0, None), Pending(2, Some(4.0))];
    assert !Conflicts(t, 40.0);
    assert FromRow(ToRow(STALE)) == STALE;
    assert STALE.pending + [Pending(2, Some(4.0))] == p;
    AttachesAgain();
    PeakOfTwo(p[0], p[1]);
  }

  lemma TypedRestartIsForward(key: SeriesKey)
    ensures EngineForward(TypedRestart(key))
  {
    var run := TypedRestart(key);
    assert run[..0] == [] && run[..6] == run;
    EngineForwardUpTo(run, 1);
    EngineForwardUpTo(run, 2);
    EngineForwardUpTo(run, 3);
    EngineForwardUpTo(run, 4);
    EngineForwardUpTo(run, 5);
    EngineForwardUpTo(run, 6);
  }

  /** A run of the engine without failures whose one restart ends in two open events, the first finding having
      moved from one to the other. */
  lemma TypedRestartBreaksStructure(key: SeriesKey) returns (es: seq<Engine>)
    requires key.kind != ""
    ensures HealthyRun(es, TypedRestart(key), key.kind, true)
    ensures TablesOf(es[3].db, key.series).findings == TAKEN
    ensures
      var t := TablesOf(es[|TypedRestart(key)|].db, key.series);
      t.events == TWO_EVENTS && t.findings == TAKEN_AGAIN
  {
    hide Solo, Steps, Next, ToRow, EngineForward;
    var kind, series := key.kind, key.series;
    var last := Next(DEPLOYED, Restart(StaleStage(kind)), Reported(kind, Finding(4.0, 40.0), false, NO_APPLY_FAULTS));
    es := [EMPTY_ENGINE, Solo(series, WaitingStage(kind)), Solo(series, WaitedStage(kind)),
           Solo(series, FiredStage(kind)), Solo(series, StaleStage(kind)),
           Solo(series, Restart(StaleStage(kind))), Solo(series, last)];
    Waits(kind);
    FirstSoloReport(DEPLOYED, key, Finding(4.0, 10.0));
    LoadsAgain(kind);
    BothWait(kind);
    SoloSweep(DEPLOYED, series, WaitingStage(kind), "", kind, 15.0);
    Opens(kind);
    SoloReport(DEPLOYED, key, WaitedStage(kind), Finding(4.0, 20.0));
    SavesOver(kind);
    SoloSweep(DEPLOYED, series, FiredStage(kind), kind, "", 30.0);
    SoloRestart(DEPLOYED, series, StaleStage(kind));
    OpensAgain(kind);
    SoloReport(DEPLOYED, key, Restart(StaleStage(kind)), Finding(4.0, 40.0));
    TypedRestartIsForward(key);
    SoloTables(series, FiredStage(kind));
    SoloTables(series, last);
  }

  /** A series has at most one open event on every healthy run of the engine exactly when the reports' keys
      carry no probe type or the process is not restarted. */
  lemma StructureHoldsIff(kind: string, mayRestart: bool)
    ensures
      (forall es: seq<Engine>, steps: seq<EngineStep>, series :: HealthyRun(es, steps, kind, mayRestart) ==>
         OneOpenEvent(TablesOf(es[|steps|].db, series)))
      <==> kind == "" || !mayRestart
  {
    hide EngineForward, Fits, Steps, TablesOf;
    if kind == "" || !mayRestart {
      forall es: seq<Engine>, steps: seq<EngineStep>, series | HealthyRun(es, steps, kind, mayRestart)
        ensures OneOpenEvent(TablesOf(es[|steps|].db, series))
      {
        HealthyRunHasOneOpenEvent(es, steps, kind, mayRestart, series);
      }
    } else {
      var key := SeriesKey(kind, SOME_SERIES);
      var es := TypedRestartBreaksStructure(key);
      var t := TablesOf(es[|TypedRestart(key)|].db, SOME_SERIES);
      assert t.events[0].closedAt.None? && t.events[1].closedAt.None?;
    }
  }

  /** Attachments are final on every healthy run of the engine under the same condition. */
  lemma AttachmentIsFinalIff(kind: string, mayRestart: bool)
    ensures
      (forall es: seq<Engine>, steps: seq<EngineStep>, series, upTo: nat ::
         HealthyRun(es, steps, kind, mayRestart) && upTo <= |steps| ==> AttachmentsStay(es, upTo, series))
      <==> kind == "" || !mayRestart
  {
    hide EngineForward, Fits, Steps, TablesOf, Sound, History;
    if kind == "" || !mayRestart {
      forall es: seq<Engine>, steps: seq<EngineStep>, series, upTo: nat
        | HealthyRun(es, steps, kind, mayRestart) && upTo <= |steps|
        ensures AttachmentsStay(es, upTo, series)
      {
        HealthyRunIsSound(es, steps, kind, mayRestart, series);
        SoundAttachmentsStay(DEPLOYED, es, steps, kind, series, upTo);
      }
    } else {
      var key := SeriesKey(kind, SOME_SERIES);
      var es := TypedRestartBreaksStructure(key);
      assert TAKEN[0].event == Some(0) && TAKEN_AGAIN[0].event == Some(1);
      assert !AttachmentsStay(es, 3, SOME_SERIES);
    }
  }
}
