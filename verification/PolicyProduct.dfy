/**
 The whole engine is the product of its series: in every run of the engine, with any number of
 series, each series goes through one of the runs of PolicyRuns. What is proved of those runs
 therefore holds of every series of the engine.
 */
module PolicyProduct {
  import opened Options
  import opened Sequences
  import opened Reals
  import opened PolicyModel
  import opened PolicyRuns
  import opened PolicyTimes
  import opened PolicyQuiet
  import opened PolicyScores

  datatype EngineStep =
    | EngineReport(key: SeriesKey, finding: Finding, insertFails: bool, faults: ApplyFaults)
    | EngineSweep(now: real, order: seq<SeriesKey>, sweepFaults: SweepFaults)
    | EngineRestart

  const EMPTY_ENGINE := Engine(map[], map[])

  /** One call of Report or Sweep, as PolicyEngineObject proves them to behave, or a restart. */
  ghost predicate Steps(cfg: Config, e: Engine, step: EngineStep, e': Engine) {
    match step
    case EngineReport(key, f, insertFails, faults) => e' == ReportStep(cfg, e, key, f, insertFails, faults)
    case EngineSweep(now, order, faults) =>
      if faults.list then e' == e
      else Enumerates(order, Hydrate(e).states.Keys) && e' == SweepKeys(cfg, Hydrate(e), order, now, faults)
    case EngineRestart => e' == e.(states := map[])
  }

  /** es is the sequence of engine states along the steps. */
  ghost predicate Trace(cfg: Config, es: seq<Engine>, steps: seq<EngineStep>) {
    |es| == |steps| + 1 && forall i :: 0 <= i < |steps| ==> Steps(cfg, es[i], steps[i], es[i + 1])
  }

  /** The same, from an empty engine on. */
  ghost predicate Run(cfg: Config, es: seq<Engine>, steps: seq<EngineStep>) {
    Trace(cfg, es, steps) && es[0] == EMPTY_ENGINE
  }

  // -------------------------------------------------------------- projection

  /** The slice holds exactly what the engine has for the series. */
  ghost predicate Holds(sl: Slice, e: Engine, series: SeriesId) {
    && (forall kind :: kind in sl.copies <==> SeriesKey(kind, series) in e.states)
    && (forall kind :: kind in sl.copies ==> sl.copies[kind] == e.states[SeriesKey(kind, series)])
    && sl.tables == TablesOf(e.db, series)
  }

  lemma HoldsCopy(sl: Slice, e: Engine, key: SeriesKey)
    requires Holds(sl, e, key.series)
    ensures CopyIn(sl, key.kind) == CopyOf(e, key)
  {
    assert SeriesKey(key.kind, key.series) == key;
  }

  function PutIn(sl: Slice, kind: string, copy: Option<PolicyState>, t: Tables): Slice {
    Slice(if copy.Some? then sl.copies[kind := copy.value] else sl.copies, t)
  }

  lemma PutHolds(sl: Slice, e: Engine, series: SeriesId, key: SeriesKey, copy: Option<PolicyState>, t: Tables)
    requires Holds(sl, e, series)
    ensures Holds(if series == key.series then PutIn(sl, key.kind, copy, t) else sl, Put(e, key, copy, t), series)
  {
  }

  predicate SweepParts(parts: seq<Step>, now: real) {
    forall i :: 0 <= i < |parts| ==> parts[i].Listed? || (parts[i].Visited? && parts[i].now == now)
  }

  /** What a sweep's visits look like to one series. */
  function Visits(cfg: Config, e: Engine, order: seq<SeriesKey>, now: real, faults: SweepFaults, series: SeriesId)
    : (visits: seq<Step>)
    requires forall i :: 0 <= i < |order| ==> order[i] in e.states
    ensures SweepParts(visits, now)
    decreases |order|
  {
    if order == [] then []
    else
      var key := order[0];
      var v := VisitKey(cfg, e, key, now, faults);
      var visit := Visited(key.kind, now, key in faults.close, key in faults.save);
      var mine := if key.series == series then [visit] else [];
      if v.aborted then mine
      else
        assert forall i :: 0 <= i < |order[1..]| ==> order[1..][i] == order[i + 1];
        mine + Visits(cfg, Put(e, key, Some(v.state), v.tables), order[1..], now, faults, series)
  }

  ghost function Project(cfg: Config, e: Engine, step: EngineStep, series: SeriesId): seq<Step>
    requires exists e' :: Steps(cfg, e, step, e')
  {
    match step
    case EngineReport(key, f, insertFails, faults) =>
      if key.series == series then [Reported(key.kind, f, insertFails, faults)] else []
    case EngineSweep(now, order, faults) =>
      if faults.list then [] else [Listed] + Visits(cfg, Hydrate(e), order, now, faults, series)
    case EngineRestart => [Restarted]
  }

  /** The run of one series inside a run of the engine. */
  ghost function History(cfg: Config, es: seq<Engine>, steps: seq<EngineStep>, series: SeriesId): seq<Step>
    requires Trace(cfg, es, steps)
  {
    if steps == [] then []
    else
      var n := |steps| - 1;
      assert Steps(cfg, es[n], steps[n], es[n + 1]);
      History(cfg, es[..n + 1], steps[..n], series) + Project(cfg, es[n], steps[n], series)
  }

  // -------------------------------------------------------------- the product

  function RunFrom(cfg: Config, sl: Slice, steps: seq<Step>): Slice
    decreases |steps|
  {
    if steps == [] then sl else RunFrom(cfg, Next(cfg, sl, steps[0]), steps[1..])
  }

  lemma RunFromHead(cfg: Config, sl: Slice, step: Step, rest: seq<Step>)
    ensures RunFrom(cfg, sl, [step] + rest) == RunFrom(cfg, Next(cfg, sl, step), rest)
  {
    assert ([step] + rest)[0] == step && ([step] + rest)[1..] == rest;
  }

  lemma RunFromOne(cfg: Config, sl: Slice, step: Step)
    ensures RunFrom(cfg, sl, [step]) == Next(cfg, sl, step)
  {
    assert [step][1..] == [];
    assert RunFrom(cfg, Next(cfg, sl, step), []) == Next(cfg, sl, step);
  }

  lemma {:induction false} RunFromAppend(cfg: Config, sl: Slice, steps: seq<Step>, step: Step)
    ensures RunFrom(cfg, sl, steps + [step]) == Next(cfg, RunFrom(cfg, sl, steps), step)
    decreases |steps|
  {
    if steps == [] {
      assert RunFrom(cfg, Next(cfg, sl, step), []) == Next(cfg, sl, step);
      assert (steps + [step])[0] == step && (steps + [step])[1..] == [];
    } else {
      RunFromAppend(cfg, Next(cfg, sl, steps[0]), steps[1..], step);
      assert (steps + [step])[1..] == steps[1..] + [step];
    }
  }

  lemma SliceAfterOne(cfg: Config, steps: seq<Step>, step: Step)
    ensures SliceAfter(cfg, steps + [step]) == Next(cfg, SliceAfter(cfg, steps), step)
  {
    assert (steps + [step])[..|steps + [step]| - 1] == steps;
  }

  lemma {:induction false} SliceAfterAppend(cfg: Config, steps: seq<Step>, more: seq<Step>)
    ensures SliceAfter(cfg, steps + more) == RunFrom(cfg, SliceAfter(cfg, steps), more)
    decreases |more|
  {
    if more == [] {
      assert steps + more == steps;
    } else {
      var n := |more| - 1;
      SliceAfterAppend(cfg, steps, more[..n]);
      RunFromAppend(cfg, SliceAfter(cfg, steps), more[..n], more[n]);
      SliceAfterOne(cfg, steps + more[..n], more[n]);
      LastApart(steps, more);
    }
  }

  lemma HydrateAt(e: Engine, key: SeriesKey)
    ensures key in Hydrate(e).states <==> key in e.states || (key.kind == "" && Loads(e, key.series))
    ensures key in e.states ==> Hydrate(e).states[key] == e.states[key]
    ensures key !in e.states && key in Hydrate(e).states ==>
              Hydrate(e).states[key] == FromRow(e.db[key.series].row.value)
  {
    if key.kind == "" && Loads(e, key.series) {
      assert key == SeriesKey("", key.series);
    }
  }

  lemma HydrateHolds(cfg: Config, sl: Slice, e: Engine, series: SeriesId)
    requires Holds(sl, e, series)
    ensures Holds(Next(cfg, sl, Listed), Hydrate(e), series)
  {
    assert Hydrate(e).db == e.db;
    hide FromRow, Hydrate;
    forall kind: string
      ensures SeriesKey(kind, series) in Hydrate(e).states
         <==> SeriesKey(kind, series) in e.states || (kind == "" && Loads(e, series))
      ensures SeriesKey(kind, series) in e.states ==>
                Hydrate(e).states[SeriesKey(kind, series)] == e.states[SeriesKey(kind, series)]
    {
      HydrateAt(e, SeriesKey(kind, series));
    }
    HydrateAt(e, SeriesKey("", series));
  }

  lemma VisitHolds(cfg: Config, sl: Slice, e: Engine, series: SeriesId, key: SeriesKey, now: real, faults: SweepFaults)
    requires Holds(sl, e, series) && key in e.states
    ensures
      var v := VisitKey(cfg, e, key, now, faults);
      var visit := Visited(key.kind, now, key in faults.close, key in faults.save);
      Holds(if series == key.series then Next(cfg, sl, visit) else sl, Put(e, key, Some(v.state), v.tables), series)
  {
    var v := VisitKey(cfg, e, key, now, faults);
    PutHolds(sl, e, series, key, Some(v.state), v.tables);
    if series == key.series {
      HoldsCopy(sl, e, key);
    }
  }

  lemma {:induction false} SweepHolds(
    cfg: Config, sl: Slice, e: Engine, order: seq<SeriesKey>, now: real, faults: SweepFaults, series: SeriesId)
    requires Holds(sl, e, series)
    requires forall i :: 0 <= i < |order| ==> order[i] in e.states
    ensures Holds(RunFrom(cfg, sl, Visits(cfg, e, order, now, faults, series)),
                  SweepKeys(cfg, e, order, now, faults), series)
    decreases |order|
  {
    hide Holds, SweepVisit, TablesOf, Next;
    if order != [] {
      var key := order[0];
      var v := VisitKey(cfg, e, key, now, faults);
      var next := Put(e, key, Some(v.state), v.tables);
      var visit := Visited(key.kind, now, key in faults.close, key in faults.save);
      var sl' := if series == key.series then Next(cfg, sl, visit) else sl;
      VisitHolds(cfg, sl, e, series, key, now, faults);
      var rest := [];
      if !v.aborted {
        assert forall i :: 0 <= i < |order[1..]| ==> order[1..][i] == order[i + 1];
        SweepHolds(cfg, sl', next, order[1..], now, faults, series);
        rest := Visits(cfg, next, order[1..], now, faults, series);
      }
      RunFromHead(cfg, sl, visit, rest);
      assert [] + rest == rest && [visit] + [] == [visit];
    }
  }

  lemma StepHolds(cfg: Config, sl: Slice, e: Engine, step: EngineStep, e': Engine, series: SeriesId)
    requires Steps(cfg, e, step, e') && Holds(sl, e, series)
    ensures Holds(RunFrom(cfg, sl, Project(cfg, e, step, series)), e', series)
  {
    match step
    case EngineReport(key, f, insertFails, faults) =>
      var r := Report(cfg, CopyOf(e, key), TablesOf(e.db, key.series), f, insertFails, faults);
      PutHolds(sl, e, series, key, r.copy, r.tables);
      if key.series == series {
        HoldsCopy(sl, e, key);
        RunFromOne(cfg, sl, Reported(key.kind, f, insertFails, faults));
      }
    case EngineSweep(now, order, faults) =>
      if !faults.list {
        HydrateHolds(cfg, sl, e, series);
        SweepHolds(cfg, Next(cfg, sl, Listed), Hydrate(e), order, now, faults, series);
        RunFromHead(cfg, sl, Listed, Visits(cfg, Hydrate(e), order, now, faults, series));
      }
    case EngineRestart =>
      RunFromOne(cfg, sl, Restarted);
  }

  /** From a state where the series is where a run has taken it, the series goes on along its own run. */
  lemma {:induction false} SeriesGoesOn(
    cfg: Config, run: seq<Step>, es: seq<Engine>, steps: seq<EngineStep>, series: SeriesId)
    requires Trace(cfg, es, steps) && Holds(SliceAfter(cfg, run), es[0], series)
    ensures Holds(SliceAfter(cfg, run + History(cfg, es, steps, series)), es[|steps|], series)
    decreases |steps|
  {
    hide Steps, Holds, Project, SliceAfter, RunFrom;
    if steps == [] {
      assert run + [] == run;
    } else {
      var n := |steps| - 1;
      SeriesGoesOn(cfg, run, es[..n + 1], steps[..n], series);
      assert Steps(cfg, es[n], steps[n], es[n + 1]);
      var before := History(cfg, es[..n + 1], steps[..n], series);
      var more := Project(cfg, es[n], steps[n], series);
      StepHolds(cfg, SliceAfter(cfg, run + before), es[n], steps[n], es[n + 1], series);
      SliceAfterAppend(cfg, run + before, more);
      Regroup(run, before, more);
    }
  }

  /** In every run of the engine, each series is where its own run takes it. */
  lemma EngineIsProduct(cfg: Config, es: seq<Engine>, steps: seq<EngineStep>, series: SeriesId)
    requires Run(cfg, es, steps)
    ensures Holds(SliceAfter(cfg, History(cfg, es, steps, series)), es[|steps|], series)
  {
    SeriesGoesOn(cfg, [], es, steps, series);
    assert [] + History(cfg, es, steps, series) == History(cfg, es, steps, series);
  }

  // ------------------------------------------- what engine runs are to a series

  function EngineTime(step: EngineStep, clock: real): real {
    match step
    case EngineReport(_, f, _, _) => f.ts
    case EngineSweep(now, _, _) => now
    case EngineRestart => clock
  }

  function EngineClock(steps: seq<EngineStep>): real {
    if steps == [] then 0.0
    else EngineTime(steps[|steps| - 1], EngineClock(steps[..|steps| - 1]))
  }

  ghost predicate EngineForward(steps: seq<EngineStep>) {
    steps == [] ||
    var before := steps[..|steps| - 1];
    EngineForward(before) && EngineClock(before) <= EngineTime(steps[|steps| - 1], EngineClock(before))
  }

  lemma ForwardOneMore(run: seq<Step>, step: Step)
    requires Forward(run) && ClockAfter(run) <= TimeOf(step, ClockAfter(run))
    ensures Forward(run + [step]) && ClockAfter(run + [step]) == TimeOf(step, ClockAfter(run))
  {
    assert (run + [step])[..|run + [step]| - 1] == run;
  }

  lemma {:induction false} SweepPartsKeepForward(run: seq<Step>, parts: seq<Step>, now: real)
    requires Forward(run) && ClockAfter(run) <= now && SweepParts(parts, now)
    ensures Forward(run + parts) && ClockAfter(run + parts) <= now
    decreases |parts|
  {
    if parts == [] {
      assert run + parts == run;
    } else {
      var n := |parts| - 1;
      SweepPartsKeepForward(run, parts[..n], now);
      ForwardOneMore(run + parts[..n], parts[n]);
      LastApart(run, parts);
    }
  }

  lemma ProjectKeepsForward(
    cfg: Config, run: seq<Step>, e: Engine, step: EngineStep, e': Engine, series: SeriesId, clock: real)
    requires Forward(run) && Steps(cfg, e, step, e')
    requires ClockAfter(run) <= clock <= EngineTime(step, clock)
    ensures
      var run' := run + Project(cfg, e, step, series);
      Forward(run') && ClockAfter(run') <= EngineTime(step, clock)
  {
    match step
    case EngineReport(key, f, insertFails, faults) =>
      if key.series == series {
        ForwardOneMore(run, Reported(key.kind, f, insertFails, faults));
      } else {
        assert run + [] == run;
      }
    case EngineSweep(now, order, faults) =>
      if faults.list {
        assert run + [] == run;
      } else {
        SweepPartsKeepForward(run, [Listed] + Visits(cfg, Hydrate(e), order, now, faults, series), now);
      }
    case EngineRestart =>
      ForwardOneMore(run, Restarted);
  }

  lemma {:induction false} HistoryIsForward(cfg: Config, es: seq<Engine>, steps: seq<EngineStep>, series: SeriesId)
    requires Trace(cfg, es, steps) && EngineForward(steps)
    ensures Forward(History(cfg, es, steps, series))
    ensures ClockAfter(History(cfg, es, steps, series)) <= EngineClock(steps)
    decreases |steps|
  {
    if steps != [] {
      var n := |steps| - 1;
      HistoryIsForward(cfg, es[..n + 1], steps[..n], series);
      assert Steps(cfg, es[n], steps[n], es[n + 1]);
      ProjectKeepsForward(cfg, History(cfg, es[..n + 1], steps[..n], series), es[n], steps[n], es[n + 1], series,
                          EngineClock(steps[..n]));
    }
  }

  /** Every finding of the series weighs at least the close threshold. */
  ghost predicate EngineLoud(cfg: Config, steps: seq<EngineStep>, series: SeriesId) {
    forall i :: 0 <= i < |steps| && steps[i].EngineReport? && steps[i].key.series == series ==>
      Abs(steps[i].finding.severity) >= cfg.bucket.close
  }

  lemma NothingIsLoud(cfg: Config)
    ensures Loud(cfg, [])
  {
  }

  lemma ProjectIsLoud(cfg: Config, e: Engine, step: EngineStep, e': Engine, series: SeriesId)
    requires Steps(cfg, e, step, e')
    requires step.EngineReport? && step.key.series == series ==> Abs(step.finding.severity) >= cfg.bucket.close
    ensures Loud(cfg, Project(cfg, e, step, series))
  {
    hide Visits, SweepKeys, Hydrate, ReportStep;
  }

  lemma LoudTogether(cfg: Config, a: seq<Step>, b: seq<Step>)
    requires Loud(cfg, a) && Loud(cfg, b)
    ensures Loud(cfg, a + b)
  {
  }

  lemma {:induction false} HistoryIsLoud(cfg: Config, es: seq<Engine>, steps: seq<EngineStep>, series: SeriesId)
    requires Trace(cfg, es, steps) && EngineLoud(cfg, steps, series)
    ensures Loud(cfg, History(cfg, es, steps, series))
    decreases |steps|
  {
    hide Loud, Project;
    if steps == [] {
      NothingIsLoud(cfg);
    } else {
      var n := |steps| - 1;
      HistoryIsLoud(cfg, es[..n + 1], steps[..n], series);
      assert Steps(cfg, es[n], steps[n], es[n + 1]);
      ProjectIsLoud(cfg, es[n], steps[n], es[n + 1], series);
      LoudTogether(cfg, History(cfg, es[..n + 1], steps[..n], series), Project(cfg, es[n], steps[n], series));
    }
  }

  /** The series of the key is reported under that key only, and restarts find its duties saved. */
  ghost predicate EngineSound(es: seq<Engine>, steps: seq<EngineStep>, key: SeriesKey)
    requires |es| == |steps| + 1
  {
    && (forall i :: 0 <= i < |steps| && steps[i].EngineReport? && steps[i].key.series == key.series ==>
          steps[i].key == key)
    && (forall i :: 0 <= i < |steps| && steps[i].EngineRestart? && key in es[i].states ==>
          AnswersFor(TablesOf(es[i].db, key.series), es[i].states[key], key.kind))
  }

  /** Restarts find no closed event held and no recovery dated before a finding of its event. */
  ghost predicate EnginePunctual(es: seq<Engine>, steps: seq<EngineStep>, series: SeriesId)
    requires |es| == |steps| + 1
  {
    forall i :: 0 <= i < |steps| && steps[i].EngineRestart? ==>
      var t := TablesOf(es[i].db, series);
      HeldCalmly(Stored(t), t)
  }

  lemma SoundMore(cfg: Config, kind: string, run: seq<Step>, more: seq<Step>)
    requires Sound(cfg, kind, run) && ReportedUnder(kind, more)
    requires forall i :: 0 <= i < |more| && more[i].Restarted? ==> i == 0 && DutiesSaved(SliceAfter(cfg, run), kind)
    ensures Sound(cfg, kind, run + more)
  {
    hide DutiesSaved, SliceAfter;
    var all := run + more;
    forall i | 0 <= i < |all| && all[i].Restarted? ensures DutiesSaved(SliceAfter(cfg, all[..i]), kind) {
      if i < |run| {
        assert all[..i] == run[..i];
      } else {
        assert all[i] == more[i - |run|];
        assert all[..|run|] == run;
      }
    }
  }

  lemma PunctualMore(cfg: Config, run: seq<Step>, more: seq<Step>)
    requires Punctual(cfg, run)
    requires
      var t := SliceAfter(cfg, run).tables;
      forall i :: 0 <= i < |more| && more[i].Restarted? ==> i == 0 && HeldCalmly(Stored(t), t)
    ensures Punctual(cfg, run + more)
  {
    hide HeldCalmly, SliceAfter, Stored;
    var all := run + more;
    forall i | 0 <= i < |all| && all[i].Restarted?
      ensures
        var t := SliceAfter(cfg, all[..i]).tables;
        HeldCalmly(Stored(t), t)
    {
      if i < |run| {
        assert all[..i] == run[..i];
      } else {
        assert all[i] == more[i - |run|];
        assert all[..|run|] == run;
      }
    }
  }

  lemma ProjectRestarts(cfg: Config, e: Engine, step: EngineStep, e': Engine, series: SeriesId)
    requires Steps(cfg, e, step, e')
    ensures
      var more := Project(cfg, e, step, series);
      forall i :: 0 <= i < |more| && more[i].Restarted? ==> i == 0 && step.EngineRestart?
  {
    hide Visits, SweepKeys, Hydrate, ReportStep;
  }

  lemma ProjectReports(cfg: Config, e: Engine, step: EngineStep, e': Engine, key: SeriesKey)
    requires Steps(cfg, e, step, e')
    requires step.EngineReport? && step.key.series == key.series ==> step.key == key
    ensures ReportedUnder(key.kind, Project(cfg, e, step, key.series))
  {
    hide Visits, SweepKeys, Hydrate, ReportStep;
  }

  lemma NothingIsSound(cfg: Config, kind: string)
    ensures ReportedUnder(kind, []) && Sound(cfg, kind, []) && Punctual(cfg, [])
  {
  }

  lemma ReportedTogether(kind: string, a: seq<Step>, b: seq<Step>)
    requires ReportedUnder(kind, a) && ReportedUnder(kind, b)
    ensures ReportedUnder(kind, a + b)
  {
  }

  lemma {:induction false} HistoryIsReportedUnder(
    cfg: Config, es: seq<Engine>, steps: seq<EngineStep>, key: SeriesKey)
    requires Trace(cfg, es, steps)
    requires forall i :: 0 <= i < |steps| && steps[i].EngineReport? && steps[i].key.series == key.series ==>
               steps[i].key == key
    ensures ReportedUnder(key.kind, History(cfg, es, steps, key.series))
    decreases |steps|
  {
    hide Project, ReportedUnder;
    if steps == [] {
      NothingIsSound(cfg, key.kind);
    } else {
      var n := |steps| - 1;
      HistoryIsReportedUnder(cfg, es[..n + 1], steps[..n], key);
      assert Steps(cfg, es[n], steps[n], es[n + 1]);
      ProjectReports(cfg, es[n], steps[n], es[n + 1], key);
      ReportedTogether(key.kind, History(cfg, es[..n + 1], steps[..n], key.series),
                       Project(cfg, es[n], steps[n], key.series));
    }
  }

  lemma SoundBeforeLast(es: seq<Engine>, steps: seq<EngineStep>, key: SeriesKey)
    requires steps != [] && |es| == |steps| + 1 && EngineSound(es, steps, key)
    ensures
      var n := |steps| - 1;
      && EngineSound(es[..n + 1], steps[..n], key)
      && (steps[n].EngineReport? && steps[n].key.series == key.series ==> steps[n].key == key)
      && (steps[n].EngineRestart? && key in es[n].states ==>
            AnswersFor(TablesOf(es[n].db, key.series), es[n].states[key], key.kind))
  {
    hide AnswersFor, TablesOf;
  }

  lemma HoldsDuties(sl: Slice, e: Engine, key: SeriesKey)
    requires Holds(sl, e, key.series)
    requires key in e.states ==> AnswersFor(TablesOf(e.db, key.series), e.states[key], key.kind)
    ensures DutiesSaved(sl, key.kind)
  {
    hide AnswersFor, TablesOf;
    HoldsCopy(sl, e, key);
  }

  lemma {:induction false} HistoryIsSound(cfg: Config, es: seq<Engine>, steps: seq<EngineStep>, key: SeriesKey)
    requires Run(cfg, es, steps) && EngineSound(es, steps, key)
    ensures Sound(cfg, key.kind, History(cfg, es, steps, key.series))
    decreases |steps|
  {
    hide Holds, DutiesSaved, Sound, Project, SliceAfter, EngineSound, AnswersFor, TablesOf;
    if steps == [] {
      NothingIsSound(cfg, key.kind);
    } else {
      var n := |steps| - 1;
      var before := History(cfg, es[..n + 1], steps[..n], key.series);
      SoundBeforeLast(es, steps, key);
      HistoryIsSound(cfg, es[..n + 1], steps[..n], key);
      EngineIsProduct(cfg, es[..n + 1], steps[..n], key.series);
      assert Steps(cfg, es[n], steps[n], es[n + 1]);
      if steps[n].EngineRestart? {
        HoldsDuties(SliceAfter(cfg, before), es[n], key);
      }
      ProjectRestarts(cfg, es[n], steps[n], es[n + 1], key.series);
      ProjectReports(cfg, es[n], steps[n], es[n + 1], key);
      SoundMore(cfg, key.kind, before, Project(cfg, es[n], steps[n], key.series));
    }
  }

  lemma HoldsTables(sl: Slice, e: Engine, series: SeriesId)
    requires Holds(sl, e, series)
    ensures sl.tables == TablesOf(e.db, series)
  {
  }

  lemma {:induction false} HistoryIsPunctual(cfg: Config, es: seq<Engine>, steps: seq<EngineStep>, series: SeriesId)
    requires Run(cfg, es, steps) && EnginePunctual(es, steps, series)
    ensures Punctual(cfg, History(cfg, es, steps, series))
    decreases |steps|
  {
    hide Holds, HeldCalmly, Punctual, Project, SliceAfter, Stored, TablesOf;
    if steps == [] {
      NothingIsSound(cfg, "");
    } else {
      var n := |steps| - 1;
      var before := History(cfg, es[..n + 1], steps[..n], series);
      HistoryIsPunctual(cfg, es[..n + 1], steps[..n], series);
      EngineIsProduct(cfg, es[..n + 1], steps[..n], series);
      HoldsTables(SliceAfter(cfg, before), es[n], series);
      assert Steps(cfg, es[n], steps[n], es[n + 1]);
      ProjectRestarts(cfg, es[n], steps[n], es[n + 1], series);
      PunctualMore(cfg, before, Project(cfg, es[n], steps[n], series));
    }
  }

  // --------------------------------------------------------- engine theorems

  /** Every series of an engine run that is reported under one key, with a probe type or without, is structured,
      whatever database calls fail, if restarts find its duties saved. */
  lemma EngineIsStructured(cfg: Config, es: seq<Engine>, steps: seq<EngineStep>, key: SeriesKey)
    requires Run(cfg, es, steps) && EngineSound(es, steps, key)
    ensures
      var run := History(cfg, es, steps, key.series);
      && Holds(SliceAfter(cfg, run), es[|steps|], key.series)
      && Structured(SliceAfter(cfg, run), key.kind, LedgerAfter(cfg, key.kind, run))
  {
    hide Holds, Structured, EngineSound, Sound, SliceAfter, LedgerAfter;
    EngineIsProduct(cfg, es, steps, key.series);
    HistoryIsSound(cfg, es, steps, key);
    EveryRunIsStructured(cfg, key.kind, History(cfg, es, steps, key.series));
  }

  lemma PrefixOfPrefix(a: seq<Step>, b: seq<Step>, more: seq<Step>)
    requires |a| <= |b| && b[..|a|] == a
    ensures |a| <= |b + more| && (b + more)[..|a|] == a
  {
  }

  /** The history of a part of a run is a prefix of the history of the run. */
  lemma {:induction false} HistoryGrows(
    cfg: Config, es: seq<Engine>, steps: seq<EngineStep>, upTo: nat, series: SeriesId)
    requires Trace(cfg, es, steps) && upTo <= |steps|
    ensures
      var part, whole := History(cfg, es[..upTo + 1], steps[..upTo], series), History(cfg, es, steps, series);
      |part| <= |whole| && whole[..|part|] == part
    decreases |steps|
  {
    hide Steps, Project;
    if upTo == |steps| {
      assert es[..upTo + 1] == es && steps[..upTo] == steps;
    } else {
      var n := |steps| - 1;
      HistoryGrows(cfg, es[..n + 1], steps[..n], upTo, series);
      assert es[..n + 1][..upTo + 1] == es[..upTo + 1] && steps[..n][..upTo] == steps[..upTo];
      assert Steps(cfg, es[n], steps[n], es[n + 1]);
      PrefixOfPrefix(History(cfg, es[..upTo + 1], steps[..upTo], series),
                     History(cfg, es[..n + 1], steps[..n], series), Project(cfg, es[n], steps[n], series));
    }
  }

  /** A finding attached in some state of the run is attached to the same event at its end. */
  ghost predicate AttachmentsStay(es: seq<Engine>, upTo: nat, series: SeriesId)
    requires upTo < |es|
  {
    var t, t' := TablesOf(es[upTo].db, series), TablesOf(es[|es| - 1].db, series);
    forall i :: 0 <= i < |t.findings| && t.findings[i].event.Some? ==>
      i < |t'.findings| && t'.findings[i].event == t.findings[i].event
  }

  lemma SoundAttachmentsStay(
    cfg: Config, es: seq<Engine>, steps: seq<EngineStep>, kind: string, series: SeriesId, upTo: nat)
    requires Run(cfg, es, steps) && Sound(cfg, kind, History(cfg, es, steps, series)) && upTo <= |steps|
    ensures AttachmentsStay(es, upTo, series)
  {
    hide Steps, Holds, Sound, SliceAfter, History, TablesOf;
    var part, whole := History(cfg, es[..upTo + 1], steps[..upTo], series), History(cfg, es, steps, series);
    HistoryGrows(cfg, es, steps, upTo, series);
    EngineIsProduct(cfg, es[..upTo + 1], steps[..upTo], series);
    EngineIsProduct(cfg, es, steps, series);
    HoldsTables(SliceAfter(cfg, part), es[upTo], series);
    HoldsTables(SliceAfter(cfg, whole), es[|steps|], series);
    var t := TablesOf(es[upTo].db, series);
    forall i | 0 <= i < |t.findings| && t.findings[i].event.Some?
      ensures
        var t' := TablesOf(es[|steps|].db, series);
        i < |t'.findings| && t'.findings[i].event == t.findings[i].event
    {
      AttachmentIsFinal(cfg, kind, whole, |part|, i);
    }
  }

  /** Attachments are final in the engine, for every series reported under one key. */
  lemma EngineAttachmentsStay(cfg: Config, es: seq<Engine>, steps: seq<EngineStep>, key: SeriesKey, upTo: nat)
    requires Run(cfg, es, steps) && EngineSound(es, steps, key) && upTo <= |steps|
    ensures AttachmentsStay(es, upTo, key.series)
  {
    hide Steps, Sound, EngineSound, History, AttachmentsStay;
    HistoryIsSound(cfg, es, steps, key);
    SoundAttachmentsStay(cfg, es, steps, key.kind, key.series, upTo);
  }

  /** The lifetime bound, for every event in the tables of the engine, on every run forward in time. */
  lemma EngineEventsLastLongEnough(cfg: Config, es: seq<Engine>, steps: seq<EngineStep>, series: SeriesId, v: nat)
    requires cfg.bucket.decay > 0.0 && Run(cfg, es, steps) && EngineForward(steps)
    requires
      var t := TablesOf(es[|steps|].db, series);
      v < |t.events| && t.events[v].closedAt.Some?
    ensures
      var event := TablesOf(es[|steps|].db, series).events[v];
      event.closedAt.value - event.openedAt
        > (cfg.bucket.open - cfg.bucket.close) / cfg.bucket.decay + cfg.quietPeriod
  {
    hide History, Forward, EngineForward, SliceAfter;
    EngineIsProduct(cfg, es, steps, series);
    HistoryIsForward(cfg, es, steps, series);
    ClosedEventsLastedLongEnough(cfg, History(cfg, es, steps, series), v);
  }

  /** The quiet before closing, for every event in the tables of the engine. */
  lemma EngineEventsWereQuiet(
    cfg: Config, es: seq<Engine>, steps: seq<EngineStep>, series: SeriesId, v: nat, i: nat)
    requires Run(cfg, es, steps) && EnginePunctual(es, steps, series) && EngineForward(steps)
    requires forall j :: 0 <= j < |steps| && steps[j].EngineReport? && steps[j].key.series == series ==>
               steps[j].key.kind == ""
    requires
      var t := TablesOf(es[|steps|].db, series);
      && v < |t.events| && t.events[v].closedAt.Some?
      && i < |t.findings| && t.findings[i].event == Some(v)
    ensures
      var t := TablesOf(es[|steps|].db, series);
      t.findings[i].ts < t.events[v].closedAt.value - cfg.quietPeriod
  {
    hide History, Forward, EngineForward, SliceAfter, EnginePunctual, Punctual, ReportedUnder;
    EngineIsProduct(cfg, es, steps, series);
    HistoryIsForward(cfg, es, steps, series);
    HistoryIsReportedUnder(cfg, es, steps, SeriesKey("", series));
    HistoryIsPunctual(cfg, es, steps, series);
    ClosedEventsWereQuiet(cfg, History(cfg, es, steps, series), v, i);
  }

  // ------------------------------------------------- no stuck alarm in the engine

  lemma {:induction false} VisitTimesSplit(a: seq<Step>, b: seq<Step>, kind: string)
    ensures VisitTimes(a + b, kind) == VisitTimes(a, kind) + VisitTimes(b, kind)
    decreases |b|
  {
    if b == [] {
      assert a + b == a;
    } else {
      assert (a + b)[..|a + b| - 1] == a + b[..|b| - 1];
      VisitTimesSplit(a, b[..|b| - 1], kind);
    }
  }

  lemma VisitTimesOfOne(step: Step, kind: string)
    ensures VisitTimes([step], kind) == if step.Visited? && step.kind == kind then [step.now] else []
  {
    assert [step][..0] == [];
    assert VisitTimes([], kind) == [];
  }

  lemma VisitsOfFirst(
    cfg: Config, e: Engine, order: seq<SeriesKey>, now: real, faults: SweepFaults, key: SeriesKey)
    requires forall i :: 0 <= i < |order| ==> order[i] in e.states
    requires order != [] && faults.close == {}
    ensures
      var first := order[0];
      var v := VisitKey(cfg, e, first, now, faults);
      var next := Put(e, first, Some(v.state), v.tables);
      var mine := if first.series == key.series then [Visited(first.kind, now, false, first in faults.save)] else [];
      && (forall i :: 0 <= i < |order[1..]| ==> order[1..][i] in next.states)
      && Visits(cfg, e, order, now, faults, key.series) ==
           mine + Visits(cfg, next, order[1..], now, faults, key.series)
  {
    assert forall i :: 0 <= i < |order[1..]| ==> order[1..][i] == order[i + 1];
  }

  lemma NoVisitTimes(kind: string)
    ensures VisitTimes([], kind) == []
  {
  }

  lemma MineIsSpared(first: SeriesKey, now: real, saveFails: bool, key: SeriesKey)
    ensures
      var mine := if first.series == key.series then [Visited(first.kind, now, false, saveFails)] else [];
      Undisturbed(mine, key.kind) && VisitTimes(mine, key.kind) == if first == key then [now] else []
  {
    hide VisitTimes;
    VisitTimesOfOne(Visited(first.kind, now, false, saveFails), key.kind);
    NoVisitTimes(key.kind);
  }

  /** A sweep that closes what it should gets to every state once. */
  lemma {:induction false} VisitsOfKey(
    cfg: Config, e: Engine, order: seq<SeriesKey>, now: real, faults: SweepFaults, key: SeriesKey)
    requires forall i :: 0 <= i < |order| ==> order[i] in e.states
    requires forall i, j :: 0 <= i < j < |order| ==> order[i] != order[j]
    requires faults.close == {}
    ensures VisitTimes(Visits(cfg, e, order, now, faults, key.series), key.kind) == if key in order then [now] else []
    ensures Undisturbed(Visits(cfg, e, order, now, faults, key.series), key.kind)
    decreases |order|
  {
    hide VisitTimes, LeavesAlone;
    NoVisitTimes(key.kind);
    if order != [] {
      var first, rest := order[0], order[1..];
      var v := VisitKey(cfg, e, first, now, faults);
      var next := Put(e, first, Some(v.state), v.tables);
      assert forall i :: 0 <= i < |rest| ==> rest[i] == order[i + 1];
      VisitsOfKey(cfg, next, rest, now, faults, key);
      VisitsOfFirst(cfg, e, order, now, faults, key);
      var mine := if first.series == key.series then [Visited(first.kind, now, false, first in faults.save)] else [];
      VisitTimesSplit(mine, Visits(cfg, next, rest, now, faults, key.series), key.kind);
      MineIsSpared(first, now, first in faults.save, key);
      assert first !in rest && (key in order <==> key == first || key in rest);
    }
  }

  /** Other series and other keys may report anything and fail anything; sweeps list the rows and close
      the events they should, and may fail to save. */
  predicate Spares(step: EngineStep, key: SeriesKey) {
    match step
    case EngineReport(other, _, _, _) => other != key
    case EngineSweep(_, _, faults) => !faults.list && faults.close == {}
    case EngineRestart => false
  }

  function SweepTimes(steps: seq<EngineStep>): seq<real> {
    if steps == [] then []
    else
      var last := steps[|steps| - 1];
      SweepTimes(steps[..|steps| - 1]) + if last.EngineSweep? then [last.now] else []
  }

  lemma {:induction false} SweepKeepsStates(
    cfg: Config, e: Engine, order: seq<SeriesKey>, now: real, faults: SweepFaults, key: SeriesKey)
    requires forall i :: 0 <= i < |order| ==> order[i] in e.states
    requires key in e.states
    ensures key in SweepKeys(cfg, e, order, now, faults).states
    decreases |order|
  {
    if order != [] {
      var v := VisitKey(cfg, e, order[0], now, faults);
      assert forall i :: 0 <= i < |order[1..]| ==> order[1..][i] == order[i + 1];
      if !v.aborted {
        SweepKeepsStates(cfg, Put(e, order[0], Some(v.state), v.tables), order[1..], now, faults, key);
      }
    }
  }

  lemma ReportSpares(cfg: Config, e: Engine, step: EngineStep, e': Engine, key: SeriesKey)
    requires Steps(cfg, e, step, e') && step.EngineReport? && step.key != key && key in e.states
    ensures
      var more := Project(cfg, e, step, key.series);
      Undisturbed(more, key.kind) && key in e'.states && VisitTimes(more, key.kind) == []
  {
    hide Report, VisitTimes;
    NoVisitTimes(key.kind);
    VisitTimesOfOne(Reported(step.key.kind, step.finding, step.insertFails, step.faults), key.kind);
    if step.key.series == key.series {
      assert step.key.kind != key.kind;
    }
  }

  lemma SweepSpares(cfg: Config, e: Engine, step: EngineStep, e': Engine, key: SeriesKey)
    requires Steps(cfg, e, step, e') && step.EngineSweep? && Spares(step, key) && key in e.states
    ensures
      var more := Project(cfg, e, step, key.series);
      Undisturbed(more, key.kind) && key in e'.states && VisitTimes(more, key.kind) == [step.now]
  {
    hide VisitTimes, Visits, SweepKeys, Hydrate, Loads;
    var visits := Visits(cfg, Hydrate(e), step.order, step.now, step.sweepFaults, key.series);
    HydrateAt(e, key);
    VisitsOfKey(cfg, Hydrate(e), step.order, step.now, step.sweepFaults, key);
    VisitTimesSplit([Listed], visits, key.kind);
    VisitTimesOfOne(Listed, key.kind);
    SweepKeepsStates(cfg, Hydrate(e), step.order, step.now, step.sweepFaults, key);
  }

  lemma SparedStep(cfg: Config, e: Engine, step: EngineStep, e': Engine, key: SeriesKey)
    requires Steps(cfg, e, step, e') && Spares(step, key) && key in e.states
    ensures
      var more := Project(cfg, e, step, key.series);
      && Undisturbed(more, key.kind) && key in e'.states
      && VisitTimes(more, key.kind) == if step.EngineSweep? then [step.now] else []
  {
    hide VisitTimes, Steps, Project, Undisturbed;
    if step.EngineReport? {
      ReportSpares(cfg, e, step, e', key);
    } else {
      SweepSpares(cfg, e, step, e', key);
    }
  }

  lemma {:induction false} TailSpares(cfg: Config, es: seq<Engine>, steps: seq<EngineStep>, key: SeriesKey)
    requires Trace(cfg, es, steps) && key in es[0].states
    requires forall i :: 0 <= i < |steps| ==> Spares(steps[i], key)
    ensures
      var tail := History(cfg, es, steps, key.series);
      Undisturbed(tail, key.kind) && VisitTimes(tail, key.kind) == SweepTimes(steps) && key in es[|steps|].states
    decreases |steps|
  {
    if steps != [] {
      hide VisitTimes, Spares, LeavesAlone;
      var n := |steps| - 1;
      TailSpares(cfg, es[..n + 1], steps[..n], key);
      assert Steps(cfg, es[n], steps[n], es[n + 1]);
      var before, more := History(cfg, es[..n + 1], steps[..n], key.series), Project(cfg, es[n], steps[n], key.series);
      SparedStep(cfg, es[n], steps[n], es[n + 1], key);
      VisitTimesSplit(before, more, key.kind);
    } else {
      NoVisitTimes(key.kind);
    }
  }

  /** While other series and other keys do what they like, a state of the engine is what the sweeps make
      of it. */
  lemma EngineStateIsSwept(
    cfg: Config, es: seq<Engine>, steps: seq<EngineStep>, tail: seq<Engine>, more: seq<EngineStep>, key: SeriesKey)
    requires Run(cfg, es, steps) && Trace(cfg, tail, more) && tail[0] == es[|steps|] && key in tail[0].states
    requires forall i :: 0 <= i < |more| ==> Spares(more[i], key)
    ensures
      && key in tail[|more|].states
      && tail[|more|].states[key] == SweptAt(cfg, tail[0].states[key], SweepTimes(more))
  {
    hide Steps, Spares, LeavesAlone, SweptAt, SliceAfter, History;
    var run := History(cfg, es, steps, key.series);
    var next := History(cfg, tail, more, key.series);
    EngineIsProduct(cfg, es, steps, key.series);
    SeriesGoesOn(cfg, run, tail, more, key.series);
    TailSpares(cfg, tail, more, key);
    HoldsCopy(SliceAfter(cfg, run), tail[0], key);
    HoldsCopy(SliceAfter(cfg, run + next), tail[|more|], key);
    StateIsSwept(cfg, run, next, key.kind);
  }

  lemma ReachedEngineState(cfg: Config, es: seq<Engine>, steps: seq<EngineStep>, key: SeriesKey)
    requires Reasonable(cfg) && Run(cfg, es, steps) && EngineForward(steps) && EngineLoud(cfg, steps, key.series)
    requires key in es[|steps|].states
    ensures
      var s := es[|steps|].states[key];
      Shape(s) && Clocked(s, EngineClock(steps)) && Audible(cfg, s)
  {
    hide Steps, SliceAfter, History, Forward, EngineForward, Loud, EngineLoud, Shape, Audible;
    var run := History(cfg, es, steps, key.series);
    EngineIsProduct(cfg, es, steps, key.series);
    HistoryIsForward(cfg, es, steps, key.series);
    HistoryIsLoud(cfg, es, steps, key.series);
    HoldsCopy(SliceAfter(cfg, run), es[|steps|], key);
    ReachedState(cfg, run, key.kind);
  }

  /** No stuck alarm in the engine: after any run forward in time with loud findings, whatever failed or
      restarted, a firing state that gets no more findings under its key is clean once its bound has
      passed, whatever other series and other keys report and fail meanwhile. */
  lemma EngineFiringEndsInTime(
    cfg: Config, es: seq<Engine>, steps: seq<EngineStep>, tail: seq<Engine>, more: seq<EngineStep>, key: SeriesKey,
    gap: real)
    requires Reasonable(cfg) && gap > 0.0 && Run(cfg, es, steps) && EngineForward(steps)
    requires EngineLoud(cfg, steps, key.series)
    requires Trace(cfg, tail, more) && tail[0] == es[|steps|]
    requires forall i :: 0 <= i < |more| ==> Spares(more[i], key)
    requires
      var start, ticks := EngineClock(steps), SweepTimes(more);
      && key in tail[0].states && tail[0].states[key].status.Firing? && Regular(ticks, start, gap)
      && LastTick(ticks, start) >= start + FiringBound(cfg, tail[0].states[key].bucket.score, gap)
    ensures key in tail[|more|].states && tail[|more|].states[key].status.Clean?
  {
    hide Steps, Spares, SweptAt, Shape, Clocked, FiringBound, EngineForward, EngineLoud;
    EngineStateIsSwept(cfg, es, steps, tail, more, key);
    ReachedEngineState(cfg, es, steps, key);
    AlarmEndsIff(cfg, tail[0].states[key], EngineClock(steps), SweepTimes(more), gap);
  }

  /** A row that is not clean is in memory after any sweep that lists the rows, so the bound applies to it
      from then on, also after a restart. */
  lemma SweepLoadsRows(cfg: Config, e: Engine, step: EngineStep, e': Engine, series: SeriesId)
    requires Steps(cfg, e, step, e') && step.EngineSweep? && !step.sweepFaults.list
    requires TablesOf(e.db, series).row.Some? && !TablesOf(e.db, series).row.value.status.Clean?
    ensures SeriesKey("", series) in e'.states
  {
    var key := SeriesKey("", series);
    HydrateAt(e, key);
    SweepKeepsStates(cfg, Hydrate(e), step.order, step.now, step.sweepFaults, key);
  }
}
