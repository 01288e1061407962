/**
 What reports and sweeps do, read off the states and tables they leave: which status follows which, since when,
 with what score; what an opened event says of its findings; what a saved row says of its state.
 */
module PolicyOutcomes {
  import opened Options
  import opened Reals
  import opened LeakyBucket
  import opened PolicyModel
  import opened PolicyRuns
  import opened PolicyTimes
  import opened PolicyScores

  // ------------------------------------------------------------------ one sweep

  /** Which status a sweep takes a state to. */
  predicate SweepMoves(cfg: Config, s: PolicyState, now: real, closeFails: bool, next: Status) {
    var due := now - s.since;
    match s.status
    case Clean => next.Clean?
    case Watching => if due > cfg.confirmWindow then next.Clean? else next.Watching?
    case Firing =>
      if s.bucket.score >= cfg.bucket.close > Leaked(cfg.bucket, s.bucket, now) then next.Recovering? else next.Firing?
    case Recovering =>
      if due > cfg.quietPeriod && s.openEvent.Some? && !closeFails then next.Clean? else next.Recovering?
  }

  /** A status is entered at the time of the step that changes it, and keeps that time. */
  predicate EnteredAt(s: PolicyState, s': PolicyState, time: real) {
    s'.since == if s'.status == s.status then s.since else time
  }

  /** A sweep that ends a watch empties the bucket; any other leaks it. */
  lemma SweepOutcome(cfg: Config, s: PolicyState, t: Tables, now: real, closeFails: bool, saveFails: bool)
    ensures
      var v := SweepVisit(cfg, s, t, now, closeFails, saveFails);
      var expired := s.status.Watching? && v.state.status.Clean?;
      && SweepMoves(cfg, s, now, closeFails, v.state.status) && EnteredAt(s, v.state, now)
      && v.state.bucket == BucketState(if expired then 0.0 else Leaked(cfg.bucket, s.bucket, now), now)
      && (expired ==> v.state.pending == [])
      && (!v.state.status.Clean? ==> v.state.pending == s.pending && v.state.openEvent == s.openEvent)
      && (v.aborted <==> closeFails && s.status.Recovering? && s.openEvent.Some? && now - s.since > cfg.quietPeriod)
  {
    hide Leaked;
  }

  /** It closes the event of a state that leaves recovery, at its own time, and touches nothing else. */
  lemma SweepClosesOnly(
    cfg: Config, s: PolicyState, t: Tables, now: real, closeFails: bool, saveFails: bool, w: nat)
    requires Shape(s) && w < |t.events|
    ensures
      var v := SweepVisit(cfg, s, t, now, closeFails, saveFails);
      && v.tables.findings == t.findings && |v.tables.events| == |t.events|
      && v.tables.events[w] ==
           (if s.status.Recovering? && v.state.status.Clean? && s.openEvent == Some(w)
            then t.events[w].(closedAt := Some(now)) else t.events[w])
      && (s.status.Recovering? && v.state.status.Clean? ==> v.state.openEvent.None?)
  {
    hide Leaked, ToRow;
  }

  // ----------------------------------------------------------------- one finding

  /** A finding adds to the score in every status, also where a later call fails. */
  lemma FindingRaisesScore(cfg: Config, s: PolicyState, t: Tables, f: Finding, id: nat, faults: ApplyFaults)
    ensures
      var r := ApplyLoaded(cfg, s, t, f, id, faults);
      && r.copy.Some? && EnteredAt(s, r.copy.value, f.ts)
      && r.copy.value.bucket == BucketState(Leaked(cfg.bucket, s.bucket, f.ts) + Abs(f.severity), f.ts)
  {
    hide Leaked, Abs, AttachAll, PeakSeverity;
  }

  /** Without an open event it is watched, and opens one iff the score crosses the threshold and the transaction
      goes through; with one it is attached to it, unless that fails, and the alarm is on again. */
  lemma FindingOutcome(cfg: Config, s: PolicyState, t: Tables, f: Finding, id: nat, faults: ApplyFaults)
    requires Shape(s)
    ensures
      var r := ApplyLoaded(cfg, s, t, f, id, faults);
      var leaked := Leaked(cfg.bucket, s.bucket, f.ts);
      var crosses := leaked < cfg.bucket.open <= leaked + Abs(f.severity);
      var opens := s.openEvent.None? && crosses && !Aborts(faults.tx, |s.pending| + 1);
      && r.copy.Some?
      && |r.tables.events| == |t.events| + (if opens then 1 else 0)
      && (s.openEvent.None? ==> r.copy.value.status == if opens then Firing else Watching)
      && (s.openEvent.None? ==> r.copy.value.openEvent == if opens then Some(|t.events|) else None)
      && (s.openEvent.Some? ==>
            && r.copy.value.openEvent == s.openEvent
            && r.copy.value.status == (if faults.attach then s.status else Firing)
            && r.tables.findings == if faults.attach then t.findings else Attach(t.findings, id, s.openEvent.value))
      && (forall w :: 0 <= w < |t.events| ==> r.tables.events[w] == t.events[w])
  {
    hide Leaked, Abs, AttachAll, PeakSeverity;
  }

  /** What a saved row says when it is read again. */
  lemma SavedReadsBack(s: PolicyState, t: Tables)
    ensures
      var back := Stored(Save(s, t, false).tables);
      && back.status == s.status && back.since == s.since && back.bucket == s.bucket
      && back.openEvent == s.openEvent && Ids(back.pending) == Ids(s.pending)
      && forall i :: 0 <= i < |back.pending| ==> back.pending[i].severity == None
  {
  }

  ghost predicate SavedAs(row: Option<Row>, s: PolicyState) {
    && row.Some? && row.value.status == s.status && row.value.since == s.since && row.value.bucket == s.bucket
    && row.value.openEvent == s.openEvent && row.value.pendingIds == Ids(s.pending)
  }

  /** A report succeeds iff none of the calls it makes fails; then the row says what the state is, and otherwise
      what it said before. */
  lemma FindingIsSavedIff(cfg: Config, s: PolicyState, t: Tables, f: Finding, id: nat, faults: ApplyFaults)
    requires Shape(s)
    ensures
      var r := ApplyLoaded(cfg, s, t, f, id, faults);
      var leaked := Leaked(cfg.bucket, s.bucket, f.ts);
      var crosses := leaked < cfg.bucket.open <= leaked + Abs(f.severity);
      && (r.ok <==>
            && !faults.save
            && (if s.openEvent.Some? then !faults.attach else crosses ==> !Aborts(faults.tx, |s.pending| + 1)))
      && r.copy.Some?
      && (r.ok ==> SavedAs(r.tables.row, r.copy.value))
      && (!r.ok ==> r.tables.row == t.row)
  {
    hide Leaked, Abs, AttachAll, PeakSeverity;
  }

  /** So does a visit of the sweep. */
  lemma SweepIsSavedIff(cfg: Config, s: PolicyState, t: Tables, now: real, closeFails: bool, saveFails: bool)
    ensures
      var v := SweepVisit(cfg, s, t, now, closeFails, saveFails);
      if v.aborted || saveFails then v.tables.row == t.row else SavedAs(v.tables.row, v.state)
  {
    hide Leaked;
  }

  /** The sweep adds a state under the key without a probe type exactly for the rows that are not clean and have
      none there, as the row says, and leaves every other state and all tables as they are. */
  lemma SweepLoadsIff(e: Engine, key: SeriesKey)
    ensures
      var row := TablesOf(e.db, key.series).row;
      && Hydrate(e).db == e.db
      && (key in Hydrate(e).states <==>
            key in e.states || (key.kind == "" && row.Some? && row.value.status in {Watching, Firing, Recovering}))
      && (key in e.states ==> Hydrate(e).states[key] == e.states[key])
      && (key !in e.states && key in Hydrate(e).states ==> SavedAs(row, Hydrate(e).states[key]))
  {
    if key.kind == "" && Loads(e, key.series) {
      assert SeriesKey("", key.series) == key;
    }
  }

  // ------------------------------------------------------------ after an expiry

  lemma EmptyLeaksNothing(cfg: BucketConfig, updatedAt: real, ts: real)
    requires cfg.decay >= 0.0 && updatedAt <= ts
    ensures Leaked(cfg, BucketState(0.0, updatedAt), ts) == 0.0
  {
    LeakBounds(cfg, BucketState(0.0, updatedAt), ts);
  }

  /** A clean state with an empty bucket. */
  predicate Emptied(s: PolicyState, clock: real) {
    s.status.Clean? && s.openEvent.None? && s.bucket.score == 0.0 && s.bucket.updatedAt <= clock
  }

  lemma StepKeepsEmptied(cfg: Config, sl: Slice, step: Step, kind: string, clock: real)
    requires cfg.bucket.decay >= 0.0 && kind in sl.copies && LeavesAlone(step, kind) && clock <= TimeOf(step, clock)
    requires Emptied(sl.copies[kind], clock)
    ensures
      var sl' := Next(cfg, sl, step);
      kind in sl'.copies && Emptied(sl'.copies[kind], TimeOf(step, clock))
  {
    hide Leaked, Report;
    if step.Visited? && step.kind == kind {
      EmptyLeaksNothing(cfg.bucket, sl.copies[kind].bucket.updatedAt, step.now);
    }
  }

  lemma ForwardApart(steps: seq<Step>, tail: seq<Step>)
    requires tail != [] && Forward(steps + tail)
    ensures
      var n := |tail| - 1;
      var before := steps + tail[..n];
      && Forward(before) && ClockAfter(steps + tail) == TimeOf(tail[n], ClockAfter(before)) >= ClockAfter(before)
  {
    assert (steps + tail)[..|steps + tail| - 1] == steps + tail[..|tail| - 1];
  }

  lemma {:induction false} EmptiedStays(cfg: Config, steps: seq<Step>, tail: seq<Step>, kind: string)
    requires cfg.bucket.decay >= 0.0 && Forward(steps + tail) && Undisturbed(tail, kind)
    requires kind in SliceAfter(cfg, steps).copies && Emptied(SliceAfter(cfg, steps).copies[kind], ClockAfter(steps))
    ensures
      var sl := SliceAfter(cfg, steps + tail);
      kind in sl.copies && Emptied(sl.copies[kind], ClockAfter(steps + tail))
    decreases |tail|
  {
    hide Next, Emptied, LeavesAlone, SliceAfter, Forward;
    if tail == [] {
      assert steps + tail == steps;
    } else {
      var n := |tail| - 1;
      ForwardApart(steps, tail);
      EmptiedStays(cfg, steps, tail[..n], kind);
      StepsApart(cfg, steps, tail);
      StepKeepsEmptied(cfg, SliceAfter(cfg, steps + tail[..n]), tail[n], kind, ClockAfter(steps + tail[..n]));
    }
  }

  lemma OneStepMore(cfg: Config, steps: seq<Step>, step: Step)
    ensures SliceAfter(cfg, steps + [step]) == Next(cfg, SliceAfter(cfg, steps), step)
  {
    assert (steps + [step])[..|steps + [step]| - 1] == steps;
  }

  lemma ExpiryEmpties(cfg: Config, steps: seq<Step>, visit: Step)
    requires visit.Visited? && visit.kind in SliceAfter(cfg, steps).copies
    requires SliceAfter(cfg, steps).copies[visit.kind].status.Watching?
    requires visit.kind in SliceAfter(cfg, steps + [visit]).copies
    requires SliceAfter(cfg, steps + [visit]).copies[visit.kind].status.Clean?
    ensures
      var s := SliceAfter(cfg, steps + [visit]).copies[visit.kind];
      Emptied(s, ClockAfter(steps + [visit]))
  {
    hide SliceAfter, SweepVisit, Leaked, SweepMoves;
    var sl := SliceAfter(cfg, steps);
    OneStepMore(cfg, steps, visit);
    SweepOutcome(cfg, sl.copies[visit.kind], sl.tables, visit.now, visit.closeFails, visit.saveFails);
    EveryStateIsPlaced(cfg, steps + [visit]);
  }

  /** After a sweep that ended a watch, and whatever happens under other keys, the next finding starts afresh: the
      score is its own severity, and it opens an event iff that alone reaches the threshold. */
  lemma ExpiredStartsAfresh(
    cfg: Config, steps: seq<Step>, visit: Step, tail: seq<Step>, f: Finding, faults: ApplyFaults)
    requires Reasonable(cfg) && visit.Visited? && visit.kind in SliceAfter(cfg, steps).copies
    requires SliceAfter(cfg, steps).copies[visit.kind].status.Watching?
    requires visit.kind in SliceAfter(cfg, steps + [visit]).copies
    requires SliceAfter(cfg, steps + [visit]).copies[visit.kind].status.Clean?
    requires Undisturbed(tail, visit.kind) && Forward(steps + [visit] + tail)
    requires ClockAfter(steps + [visit] + tail) <= f.ts && faults.tx.NoFault?
    requires !Conflicts(SliceAfter(cfg, steps + [visit] + tail).tables, f.ts)
    ensures
      var sl := SliceAfter(cfg, steps + [visit] + tail);
      var sl' := Next(cfg, sl, Reported(visit.kind, f, false, faults));
      && visit.kind in sl'.copies && sl'.copies[visit.kind].bucket == BucketState(Abs(f.severity), f.ts)
      && |sl'.tables.events| == |sl.tables.events| + if Abs(f.severity) >= cfg.bucket.open then 1 else 0
  {
    hide SliceAfter, Forward, Undisturbed, Leaked, Abs, ApplyLoaded;
    var kind := visit.kind;
    var sl := SliceAfter(cfg, steps + [visit] + tail);
    ExpiryEmpties(cfg, steps, visit);
    EmptiedStays(cfg, steps + [visit], tail, kind);
    EveryStateIsPlaced(cfg, steps + [visit] + tail);
    var s, t := sl.copies[kind], InsertFinding(sl.tables, f);
    EmptyLeaksNothing(cfg.bucket, s.bucket.updatedAt, f.ts);
    FindingRaisesScore(cfg, s, t, f, |sl.tables.findings|, faults);
    FindingOutcome(cfg, s, t, f, |sl.tables.findings|, faults);
  }

  // ------------------------------------------------- what an opened event says

  /** The known severities of pending findings are those of their rows. */
  ghost predicate Remembered(pending: seq<Pending>, findings: seq<FindingRow>) {
    forall i :: 0 <= i < |pending| && pending[i].severity.Some? ==>
      pending[i].id < |findings| && findings[pending[i].id].severity == pending[i].severity.value
  }

  ghost predicate AllRemembered(sl: Slice) {
    forall kind :: kind in sl.copies ==> Remembered(sl.copies[kind].pending, sl.tables.findings)
  }

  ghost predicate SameSeverities(findings: seq<FindingRow>, findings': seq<FindingRow>) {
    |findings| <= |findings'| && forall i :: 0 <= i < |findings| ==> findings'[i].severity == findings[i].severity
  }

  lemma RememberedLater(pending: seq<Pending>, findings: seq<FindingRow>, findings': seq<FindingRow>)
    requires Remembered(pending, findings) && SameSeverities(findings, findings')
    ensures Remembered(pending, findings')
  {
  }

  lemma AttachAllKeepsSeverities(findings: seq<FindingRow>, pending: seq<Pending>, event: nat)
    ensures SameSeverities(findings, AttachAll(findings, pending, event))
  {
    forall i | 0 <= i < |findings| ensures AttachAll(findings, pending, event)[i].severity == findings[i].severity {
      AttachAllAt(findings, pending, event, i);
    }
  }

  lemma ApplyKeepsSeverities(cfg: Config, s: PolicyState, t: Tables, f: Finding, id: nat, faults: ApplyFaults)
    ensures SameSeverities(t.findings, ApplyLoaded(cfg, s, t, f, id, faults).tables.findings)
  {
    hide AttachAll, Leaked, PeakSeverity;
    AttachAllKeepsSeverities(t.findings, [Pending(id, Some(f.severity))], |t.events|);
    AttachAllKeepsSeverities(t.findings, s.pending + [Pending(id, Some(f.severity))], |t.events|);
  }

  lemma ApplyRemembers(cfg: Config, s: PolicyState, t: Tables, f: Finding, faults: ApplyFaults)
    requires Remembered(s.pending, t.findings)
    ensures
      var r := ApplyLoaded(cfg, s, InsertFinding(t, f), f, |t.findings|, faults);
      r.copy.Some? && Remembered(r.copy.value.pending, InsertFinding(t, f).findings)
  {
    hide AttachAll, Leaked, PeakSeverity;
  }

  lemma NoChangeOfSeverities(findings: seq<FindingRow>)
    ensures SameSeverities(findings, findings)
  {
  }

  lemma InsertKeepsSeverities(t: Tables, f: Finding)
    ensures SameSeverities(t.findings, InsertFinding(t, f).findings)
  {
  }

  lemma StoredIsRemembered(t: Tables)
    ensures Remembered(Stored(t).pending, t.findings)
  {
  }

  lemma ReportRemembers(cfg: Config, sl: Slice, step: Step)
    requires AllRemembered(sl) && step.Reported?
    ensures AllRemembered(Next(cfg, sl, step))
  {
    hide ApplyLoaded, Remembered, SameSeverities;
    var f := step.finding;
    var t := InsertFinding(sl.tables, f);
    var sl' := Next(cfg, sl, step);
    if Applies(sl, step) {
      InsertKeepsSeverities(sl.tables, f);
      if Load(CopyIn(sl, step.kind), t, step.faults.load).Some? {
        var s := LoadedFor(sl, step.kind);
        StoredIsRemembered(sl.tables);
        ApplyRemembers(cfg, s, sl.tables, f, step.faults);
        ApplyKeepsSeverities(cfg, s, t, f, |sl.tables.findings|, step.faults);
      } else {
        NoChangeOfSeverities(t.findings);
      }
      forall kind | kind in sl'.copies ensures Remembered(sl'.copies[kind].pending, sl'.tables.findings) {
        if kind != step.kind || kind !in sl.copies || sl'.copies[kind] == sl.copies[kind] {
          if kind in sl.copies {
            RememberedLater(sl.copies[kind].pending, sl.tables.findings, t.findings);
          }
        }
        RememberedLater(sl'.copies[kind].pending, t.findings, sl'.tables.findings);
      }
    }
  }

  lemma StepRemembers(cfg: Config, sl: Slice, step: Step)
    requires AllRemembered(sl)
    ensures AllRemembered(Next(cfg, sl, step))
  {
    match step
    case Reported(_, _, _, _) => ReportRemembers(cfg, sl, step);
    case Visited(kind, now, closeFails, saveFails) =>
      if kind in sl.copies {
        hide Leaked, ToRow;
        var v := SweepVisit(cfg, sl.copies[kind], sl.tables, now, closeFails, saveFails);
        assert v.state.pending == [] || v.state.pending == sl.copies[kind].pending;
      }
    case _ =>
  }

  lemma {:induction false} EveryStateRemembers(cfg: Config, steps: seq<Step>)
    ensures AllRemembered(SliceAfter(cfg, steps))
  {
    hide Next;
    if steps != [] {
      EveryStateRemembers(cfg, steps[..|steps| - 1]);
      StepRemembers(cfg, SliceAfter(cfg, steps[..|steps| - 1]), steps[|steps| - 1]);
    }
  }

  /** The findings attached to an event. */
  ghost function AttachedTo(findings: seq<FindingRow>, event: nat): set<nat> {
    set i: nat | i < |findings| && findings[i].event == Some(event)
  }

  /** The state has the severity of the finding in memory. */
  ghost predicate Knows(pending: seq<Pending>, id: nat) {
    exists j :: 0 <= j < |pending| && pending[j].id == id && pending[j].severity.Some?
  }

  ghost function Members(ids: seq<nat>): set<nat> {
    set id | id in ids
  }

  lemma MembersOneMore(ids: seq<nat>)
    requires ids != []
    ensures Members(ids) == Members(ids[..|ids| - 1]) + {ids[|ids| - 1]}
  {
    var n := |ids| - 1;
    forall id ensures id in ids <==> id in ids[..n] || id == ids[n] {
      assert ids == ids[..n] + [ids[n]];
    }
  }

  lemma {:induction false} DistinctCount(ids: seq<nat>)
    requires Distinct(ids)
    ensures |Members(ids)| == |ids|
    decreases |ids|
  {
    if ids == [] {
      assert Members(ids) == {};
    } else {
      var n := |ids| - 1;
      DistinctCount(ids[..n]);
      MembersOneMore(ids);
      assert ids[n] !in Members(ids[..n]);
    }
  }

  lemma OpeningAttachesPending(s: PolicyState, t: Tables, f: Finding, ledger: Ledger)
    requires Core(s, t, ledger)
    ensures AttachedTo(OpenTables(s, t, f).findings, |t.events|) == Members(Ids(s.pending))
    ensures |AttachedTo(OpenTables(s, t, f).findings, |t.events|)| == |s.pending|
  {
    var after := OpenTables(s, t, f).findings;
    forall i: nat
      ensures i in AttachedTo(after, |t.events|) <==> i in Ids(s.pending)
    {
      if i < |t.findings| {
        AttachAllAt(t.findings, s.pending, |t.events|, i);
      }
    }
    DistinctCount(Ids(s.pending));
  }

  /** The event opened for a watching state whose last finding is the trigger. */
  ghost predicate SaysAll(t: Tables, v: nat, pending: seq<Pending>, f: Finding, trigger: nat) {
    v < |t.events| &&
    var event, attached := t.events[v], AttachedTo(t.findings, v);
    && event.openedAt == f.ts && event.closedAt.None?
    && attached == {trigger} + Members(Ids(pending)) && event.findingCount == |attached|
    && (exists i :: i in attached && t.findings[i].severity == event.peakSeverity)
    && forall i :: i in attached && (i == trigger || Knows(pending, i)) ==>
         t.findings[i].severity <= event.peakSeverity
  }

  lemma OpeningSaysAll(s: PolicyState, t: Tables, f: Finding, ledger: Ledger, trigger: nat)
    requires Core(s, t, ledger) && Remembered(s.pending, t.findings)
    requires s.pending != [] && s.pending[|s.pending| - 1] == Pending(trigger, Some(f.severity))
    ensures SaysAll(OpenTables(s, t, f), |t.events|, s.pending, f, trigger)
  {
    hide Core, PeakSeverity;
    var v, t' := |t.events|, OpenTables(s, t, f);
    var attached, peak := AttachedTo(t'.findings, v), PeakSeverity(s.pending, f.severity);
    OpeningAttachesPending(s, t, f, ledger);
    AttachAllKeepsSeverities(t.findings, s.pending, v);
    var n := |s.pending| - 1;
    assert Ids(s.pending)[n] == trigger;
    if peak != f.severity {
      var i :| 0 <= i < |s.pending| && s.pending[i].severity == Some(peak);
      assert Ids(s.pending)[i] in attached && t'.findings[s.pending[i].id].severity == peak;
    } else {
      assert trigger in attached && t'.findings[trigger].severity == peak;
    }
    forall i | i in attached && (i == trigger || Knows(s.pending, i))
      ensures t'.findings[i].severity <= peak
    {
      if i != trigger {
        var j :| 0 <= j < |s.pending| && s.pending[j].id == i && s.pending[j].severity.Some?;
        assert t'.findings[i].severity == s.pending[j].severity.value;
      }
    }
  }

  /** The watching state that a finding makes of a state without an open event. */
  function Watched(cfg: Config, s: PolicyState, f: Finding, id: nat): PolicyState {
    var p := Pending(id, Some(f.severity));
    s.(bucket := Add(cfg.bucket, s.bucket, f.severity, f.ts).newState, status := Watching,
       since := if s.status.Clean? then f.ts else s.since, pending := s.pending + [p])
  }

  lemma OpenedByWatching(cfg: Config, s: PolicyState, t: Tables, f: Finding, id: nat, faults: ApplyFaults)
    requires Shape(s) && |ApplyLoaded(cfg, s, t, f, id, faults).tables.events| > |t.events|
    ensures s.status.Clean? || s.status.Watching?
    ensures
      var open := OpenTables(Watched(cfg, s, f, id), t, f);
      var t' := ApplyLoaded(cfg, s, t, f, id, faults).tables;
      t'.events == open.events && t'.findings == open.findings
  {
    hide Leaked, Abs, AttachAll, PeakSeverity, ToRow;
    if s.status.Clean? {
      assert s.pending + [Pending(id, Some(f.severity))] == [Pending(id, Some(f.severity))];
    }
  }

  lemma WatchedRemembers(cfg: Config, s: PolicyState, t: Tables, f: Finding)
    requires Remembered(s.pending, t.findings)
    ensures Remembered(Watched(cfg, s, f, |t.findings|).pending, InsertFinding(t, f).findings)
  {
  }

  lemma KnowsMore(pending: seq<Pending>, longer: seq<Pending>)
    requires pending <= longer
    ensures forall i :: Knows(pending, i) ==> Knows(longer, i)
  {
    forall i | Knows(pending, i) ensures Knows(longer, i) {
      var j :| 0 <= j < |pending| && pending[j].id == i && pending[j].severity.Some?;
      assert longer[j].id == i;
    }
  }

  lemma SaysAllOf(t: Tables, t': Tables, v: nat, longer: seq<Pending>, pending: seq<Pending>, f: Finding, trigger: nat)
    requires SaysAll(t, v, longer, f, trigger) && t'.events == t.events && t'.findings == t.findings
    requires forall i :: Knows(pending, i) ==> Knows(longer, i)
    requires {trigger} + Members(Ids(longer)) == {trigger} + Members(Ids(pending))
    ensures SaysAll(t', v, pending, f, trigger)
  {
    hide Knows;
  }

  lemma ApplySaysAll(
    cfg: Config, s: PolicyState, t: Tables, ledger: Ledger, f: Finding, faults: ApplyFaults)
    requires Core(s, t, ledger) && !Conflicts(t, f.ts) && Remembered(s.pending, t.findings)
    requires
      |ApplyLoaded(cfg, s, InsertFinding(t, f), f, |t.findings|, faults).tables.events| > |t.events|
    ensures
      var t' := ApplyLoaded(cfg, s, InsertFinding(t, f), f, |t.findings|, faults).tables;
      SaysAll(t', |t.events|, s.pending, f, |t.findings|)
  {
    hide ApplyLoaded, OpenTables, Conserved, Remembered;
    var t1, id := InsertFinding(t, f), |t.findings|;
    OpenedByWatching(cfg, s, t1, f, id, faults);
    var w := Watched(cfg, s, f, id);
    assert Ids(w.pending) == Ids(s.pending) + [id];
    WatchingConserved(s, t, ledger, w, f);
    WatchedRemembers(cfg, s, t, f);
    OpeningSaysAll(w, t1, f, ledger, id);
    var t' := ApplyLoaded(cfg, s, t1, f, id, faults).tables;
    KnowsMore(s.pending, w.pending);
    assert {id} + Members(Ids(w.pending)) == {id} + Members(Ids(s.pending));
    SaysAllOf(OpenTables(w, t1, f), t', |t.events|, w.pending, s.pending, f, id);
  }

  /** On every run that reports a series under one key and whose restarts find the duties saved: an event that a
      finding opens is opened at its time, counts the findings attached to it, and its peak is the severity of one
      of them and at least that of the trigger and of all whose severity the state knows. */
  lemma OpenedEventSaysAll(
    cfg: Config, kind: string, steps: seq<Step>, f: Finding, insertFails: bool, faults: ApplyFaults)
    requires Sound(cfg, kind, steps)
    requires
      var sl := SliceAfter(cfg, steps);
      |Next(cfg, sl, Reported(kind, f, insertFails, faults)).tables.events| > |sl.tables.events|
    ensures
      var sl := SliceAfter(cfg, steps);
      SaysAll(Next(cfg, sl, Reported(kind, f, insertFails, faults)).tables, |sl.tables.events|,
              LoadedFor(sl, kind).pending, f, |sl.tables.findings|)
  {
    hide SliceAfter, Sound, LedgerAfter, ApplyLoaded, SaysAll, Remembered, Core;
    var sl := SliceAfter(cfg, steps);
    EveryRunIsStructured(cfg, kind, steps);
    EveryStateRemembers(cfg, steps);
    StoredIsRemembered(sl.tables);
    ApplySaysAll(cfg, LoadedFor(sl, kind), sl.tables, LedgerAfter(cfg, kind, steps), f, faults);
  }

  /** Without restarts the state knows them all. */
  ghost predicate AllKnown(sl: Slice, kind: string) {
    && (kind in sl.copies ==>
          forall i :: 0 <= i < |sl.copies[kind].pending| ==> sl.copies[kind].pending[i].severity.Some?)
    && (kind !in sl.copies ==> sl.copies == map[] && sl.tables.row.None?)
  }

  lemma ApplyKnows(cfg: Config, s: PolicyState, t: Tables, f: Finding, id: nat, faults: ApplyFaults)
    requires forall i :: 0 <= i < |s.pending| ==> s.pending[i].severity.Some?
    ensures
      var r := ApplyLoaded(cfg, s, t, f, id, faults);
      r.copy.Some? && forall i :: 0 <= i < |r.copy.value.pending| ==> r.copy.value.pending[i].severity.Some?
  {
    hide AttachAll, Leaked, PeakSeverity;
  }

  lemma StepKnows(cfg: Config, sl: Slice, kind: string, step: Step)
    requires AllKnown(sl, kind) && !step.Restarted? && (step.Reported? ==> step.kind == kind)
    ensures AllKnown(Next(cfg, sl, step), kind)
  {
    match step
    case Reported(_, f, _, faults) =>
      hide ApplyLoaded, SweepVisit;
      ApplyKnows(cfg, LoadedFor(sl, kind), InsertFinding(sl.tables, f), f, |sl.tables.findings|, faults);
    case _ =>
      hide Leaked, ToRow;
  }

  lemma {:induction false} UnrestartedRunsKnow(cfg: Config, kind: string, steps: seq<Step>)
    requires ReportedUnder(kind, steps) && forall i :: 0 <= i < |steps| ==> !steps[i].Restarted?
    ensures AllKnown(SliceAfter(cfg, steps), kind)
    decreases |steps|
  {
    hide Next;
    if steps != [] {
      UnrestartedRunsKnow(cfg, kind, steps[..|steps| - 1]);
      StepKnows(cfg, SliceAfter(cfg, steps[..|steps| - 1]), kind, steps[|steps| - 1]);
    }
  }

  /** Then the peak of an opened event is the greatest severity of its findings. */
  lemma OpenedEventHasPeak(
    cfg: Config, kind: string, steps: seq<Step>, f: Finding, insertFails: bool, faults: ApplyFaults)
    requires ReportedUnder(kind, steps) && forall i :: 0 <= i < |steps| ==> !steps[i].Restarted?
    requires
      var sl := SliceAfter(cfg, steps);
      |Next(cfg, sl, Reported(kind, f, insertFails, faults)).tables.events| > |sl.tables.events|
    ensures
      var sl := SliceAfter(cfg, steps);
      var t := Next(cfg, sl, Reported(kind, f, insertFails, faults)).tables;
      var event, attached := t.events[|sl.tables.events|], AttachedTo(t.findings, |sl.tables.events|);
      && (exists i :: i in attached && t.findings[i].severity == event.peakSeverity)
      && forall i :: i in attached ==> t.findings[i].severity <= event.peakSeverity
  {
    hide SliceAfter, Next;
    var sl := SliceAfter(cfg, steps);
    var t := Next(cfg, sl, Reported(kind, f, insertFails, faults)).tables;
    OpenedEventSaysAll(cfg, kind, steps, f, insertFails, faults);
    UnrestartedRunsKnow(cfg, kind, steps);
    var pending := LoadedFor(sl, kind).pending;
    forall i | i in AttachedTo(t.findings, |sl.tables.events|)
      ensures i == |sl.tables.findings| || Knows(pending, i)
    {
      if i in Ids(pending) {
        var j :| 0 <= j < |pending| && Ids(pending)[j] == i;
        assert pending[j].id == i;
      }
    }
  }
}
