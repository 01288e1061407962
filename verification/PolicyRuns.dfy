/**
 Whole runs of the policy engine as seen by one series, and what every such run keeps.

 Each engine step acts on a series through four small steps: a report for the series, the start of a
 sweep (which may load the policy row), the sweep's visit of one of the in-memory states, and a
 process restart. PolicyProduct shows that every run of the whole engine is, for each series, such a run.
 */
module PolicyRuns {
  import opened Options
  import opened LeakyBucket
  import opened PolicyModel

  /** What belongs to one series: its in-memory states by probe type, and its tables. */
  datatype Slice = Slice(copies: map<string, PolicyState>, tables: Tables)

  datatype Step =
    | Reported(kind: string, finding: Finding, insertFails: bool, faults: ApplyFaults)
    | Listed
    | Visited(kind: string, now: real, closeFails: bool, saveFails: bool)
    | Restarted

  const EMPTY_SLICE := Slice(map[], EMPTY_TABLES)

  function CopyIn(sl: Slice, kind: string): Option<PolicyState> {
    if kind in sl.copies then Some(sl.copies[kind]) else None
  }

  /** The state as the database has it. */
  function Stored(t: Tables): PolicyState {
    if t.row.Some? then FromRow(t.row.value) else FRESH
  }

  /** The state that a report under a key works on, wherever it is kept. */
  function LoadedFor(sl: Slice, kind: string): PolicyState {
    if kind in sl.copies then sl.copies[kind] else Stored(sl.tables)
  }

  function Next(cfg: Config, sl: Slice, step: Step): Slice {
    match step
    case Reported(kind, f, insertFails, faults) =>
      var r := Report(cfg, CopyIn(sl, kind), sl.tables, f, insertFails, faults);
      Slice(if r.copy.Some? then sl.copies[kind := r.copy.value] else sl.copies, r.tables)
    case Listed =>
      if sl.tables.row.Some? && !sl.tables.row.value.status.Clean? && "" !in sl.copies
      then sl.(copies := sl.copies["" := FromRow(sl.tables.row.value)])
      else sl
    case Visited(kind, now, closeFails, saveFails) =>
      if kind !in sl.copies then sl
      else
        var v := SweepVisit(cfg, sl.copies[kind], sl.tables, now, closeFails, saveFails);
        Slice(sl.copies[kind := v.state], v.tables)
    case Restarted => sl.(copies := map[])
  }

  /** What became of findings that are neither pending nor attached. */
  datatype Ledger = Ledger(expired: set<nat>, refused: set<nat>)

  /** The finding was inserted, but its state could not be loaded or it could not be attached. */
  predicate Refuses(sl: Slice, kind: string, faults: ApplyFaults) {
    var s := Load(CopyIn(sl, kind), sl.tables, faults.load);
    s.None? || ((s.value.status.Firing? || s.value.status.Recovering?) && (faults.attach || s.value.openEvent.None?))
  }

  function IdSet(s: PolicyState): set<nat> {
    set id | id in Ids(s.pending)
  }

  /** The step takes the state of the key out of watching. */
  predicate EndsWatch(cfg: Config, kind: string, sl: Slice, step: Step) {
    LoadedFor(sl, kind).status.Watching? && !LoadedFor(Next(cfg, sl, step), kind).status.Watching?
  }

  /** The ledger of the one key that a series is reported under. */
  function Account(cfg: Config, kind: string, sl: Slice, ledger: Ledger, step: Step): Ledger {
    match step
    case Reported(_, f, insertFails, faults) =>
      if insertFails || Conflicts(sl.tables, f.ts) || !Refuses(sl, kind, faults) then ledger
      else ledger.(refused := ledger.refused + {|sl.tables.findings|})
    case Visited(_, _, _, _) =>
      if EndsWatch(cfg, kind, sl, step)
      then ledger.(expired := ledger.expired + IdSet(LoadedFor(sl, kind)))
      else ledger
    case _ => ledger
  }

  function SliceAfter(cfg: Config, steps: seq<Step>): Slice {
    if steps == [] then EMPTY_SLICE
    else Next(cfg, SliceAfter(cfg, steps[..|steps| - 1]), steps[|steps| - 1])
  }

  function LedgerAfter(cfg: Config, kind: string, steps: seq<Step>): Ledger {
    if steps == [] then Ledger({}, {})
    else
      var before := steps[..|steps| - 1];
      Account(cfg, kind, SliceAfter(cfg, before), LedgerAfter(cfg, kind, before), steps[|steps| - 1])
  }

  // ------------------------------------------------------ where a state stands

  /** An event is recorded exactly when firing or recovering; findings wait exactly when watching. */
  predicate Shape(s: PolicyState) {
    && (s.openEvent.Some? <==> s.status.Firing? || s.status.Recovering?)
    && (s.pending != [] <==> s.status.Watching?)
  }

  /** The recorded event exists. */
  predicate Placed(s: PolicyState, events: seq<Event>) {
    Shape(s) && (s.openEvent.Some? ==> s.openEvent.value < |events|)
  }

  /** So do those of all in-memory states and of the row. */
  ghost predicate AllPlaced(sl: Slice) {
    && (forall kind :: kind in sl.copies ==> Placed(sl.copies[kind], sl.tables.events))
    && (sl.tables.row.Some? ==> Placed(FromRow(sl.tables.row.value), sl.tables.events))
  }

  lemma RowKeepsPlace(s: PolicyState, events: seq<Event>)
    requires Placed(s, events)
    ensures Placed(FromRow(ToRow(s)), events)
  {
    assert |FromRow(ToRow(s)).pending| == |s.pending|;
  }

  /** The row is as it was or as the state is now. */
  predicate RowFollows(t: Tables, s: PolicyState, t': Tables) {
    t'.row == t.row || t'.row == Some(ToRow(s))
  }

  lemma ApplyKeepsPlace(cfg: Config, s: PolicyState, t: Tables, f: Finding, id: nat, faults: ApplyFaults)
    requires Placed(s, t.events)
    ensures
      var r := ApplyLoaded(cfg, s, t, f, id, faults);
      && r.copy.Some? && Placed(r.copy.value, r.tables.events)
      && |t.events| <= |r.tables.events| && RowFollows(t, r.copy.value, r.tables)
  {
  }

  lemma VisitKeepsPlace(cfg: Config, s: PolicyState, t: Tables, now: real, closeFails: bool, saveFails: bool)
    requires Placed(s, t.events)
    ensures
      var v := SweepVisit(cfg, s, t, now, closeFails, saveFails);
      Placed(v.state, v.tables.events) && |t.events| <= |v.tables.events| && RowFollows(t, v.state, v.tables)
  {
  }

  lemma StepKeepsPlaces(cfg: Config, sl: Slice, step: Step)
    requires AllPlaced(sl)
    ensures AllPlaced(Next(cfg, sl, step))
  {
    hide ApplyLoaded, SweepVisit, ToRow, FromRow;
    match step
    case Reported(kind, f, insertFails, faults) =>
      if !insertFails && !Conflicts(sl.tables, f.ts) && Load(CopyIn(sl, kind), sl.tables, faults.load).Some? {
        var s, t := LoadedFor(sl, kind), InsertFinding(sl.tables, f);
        ApplyKeepsPlace(cfg, s, t, f, |sl.tables.findings|, faults);
        RowKeepsPlace(ApplyLoaded(cfg, s, t, f, |sl.tables.findings|, faults).copy.value,
                      ApplyLoaded(cfg, s, t, f, |sl.tables.findings|, faults).tables.events);
      }
    case Visited(kind, now, closeFails, saveFails) =>
      if kind in sl.copies {
        VisitKeepsPlace(cfg, sl.copies[kind], sl.tables, now, closeFails, saveFails);
        var v := SweepVisit(cfg, sl.copies[kind], sl.tables, now, closeFails, saveFails);
        RowKeepsPlace(v.state, v.tables.events);
      }
    case _ =>
  }

  lemma NoStateIsPlaced()
    ensures AllPlaced(EMPTY_SLICE)
  {
  }

  /** On every run whatever, under any keys: each in-memory state and the row record an event, which
      exists, iff firing or recovering, and pending findings iff watching. */
  lemma {:induction false} EveryStateIsPlaced(cfg: Config, steps: seq<Step>)
    ensures AllPlaced(SliceAfter(cfg, steps))
  {
    hide Next, AllPlaced;
    if steps == [] {
      NoStateIsPlaced();
    } else {
      EveryStateIsPlaced(cfg, steps[..|steps| - 1]);
      StepKeepsPlaces(cfg, SliceAfter(cfg, steps[..|steps| - 1]), steps[|steps| - 1]);
    }
  }

  // ------------------------------------------------------ structural invariant

  /** At most one event is open, and it is the held one. */
  ghost predicate OpenIsHeld(held: Option<nat>, events: seq<Event>) {
    && (held.Some? ==> held.value < |events|)
    && forall v :: 0 <= v < |events| && events[v].closedAt.None? ==> held == Some(v)
  }

  /** The held event exists and is open. */
  predicate HeldIsOpen(held: Option<nat>, events: seq<Event>) {
    held.Some? ==> held.value < |events| && events[held.value].closedAt.None?
  }

  predicate ExactlyOne(a: bool, b: bool, c: bool, d: bool) {
    && (a || b || c || d)
    && (a ==> !b && !c && !d) && (b ==> !c && !d) && (c ==> !d)
  }

  predicate Fate(ids: seq<nat>, findings: seq<FindingRow>, ledger: Ledger, i: nat)
    requires i < |findings|
  {
    ExactlyOne(i in ids, findings[i].event.Some?, i in ledger.expired, i in ledger.refused)
  }

  ghost predicate Distinct(ids: seq<nat>) {
    forall i, j :: 0 <= i < j < |ids| ==> ids[i] != ids[j]
  }

  /** Every finding is pending once, attached to one event, expired or refused: exactly one of them. */
  ghost predicate Conserved(ids: seq<nat>, findings: seq<FindingRow>, ledger: Ledger) {
    && Distinct(ids)
    && (forall i :: 0 <= i < |ids| ==> ids[i] < |findings|)
    && (forall id :: id in ledger.expired + ledger.refused ==> id < |findings|)
    && forall i :: 0 <= i < |findings| ==> Fate(ids, findings, ledger, i)
  }

  ghost predicate AttachedToKnown(findings: seq<FindingRow>, eventCount: nat) {
    forall i :: 0 <= i < |findings| && findings[i].event.Some? ==> findings[i].event.value < eventCount
  }

  ghost predicate DistinctTimes(findings: seq<FindingRow>) {
    forall i, j :: 0 <= i < j < |findings| ==> findings[i].ts != findings[j].ts
  }

  ghost predicate Core(s: PolicyState, t: Tables, ledger: Ledger) {
    && Shape(s)
    && OpenIsHeld(s.openEvent, t.events)
    && Conserved(Ids(s.pending), t.findings, ledger)
    && AttachedToKnown(t.findings, |t.events|)
    && DistinctTimes(t.findings)
  }

  /** The sweep's own state, when it is the only one in memory: it holds what the row does, but for findings it
      let expire and an event it closed that a failed save left in the row. */
  ghost predicate Trails(s: PolicyState, stored: PolicyState, events: seq<Event>) {
    && (Ids(s.pending) == Ids(stored.pending) || s.pending == [])
    && (s.openEvent == stored.openEvent || s.openEvent.None?)
    && (s.openEvent.None? && stored.openEvent.Some? ==>
          stored.openEvent.value < |events| && events[stored.openEvent.value].closedAt.Some?)
  }

  /** The state a series is reported to holds the one open event and accounts for all findings. */
  ghost predicate Accounted(sl: Slice, kind: string, ledger: Ledger) {
    && sl.copies.Keys <= {kind, ""}
    && Core(LoadedFor(sl, kind), sl.tables, ledger)
    && (kind !in sl.copies && "" in sl.copies ==>
          sl.tables.row.Some? && Trails(sl.copies[""], Stored(sl.tables), sl.tables.events))
  }

  /** The structure of a series reported under one key, with a probe type or without. With one, the sweep's own
      state may have closed the event that the reported state holds. */
  ghost predicate Structured(sl: Slice, kind: string, ledger: Ledger) {
    Accounted(sl, kind, ledger) && (kind == "" ==> HeldIsOpen(LoadedFor(sl, "").openEvent, sl.tables.events))
  }

  // ---------------------------------------------------------------- restarts

  function Restart(sl: Slice): Slice {
    sl.(copies := map[])
  }

  lemma RestartForgets(cfg: Config, sl: Slice)
    ensures Next(cfg, sl, Restarted) == Restart(sl)
  {
  }

  ghost predicate SamePending(s: PolicyState, s': PolicyState) {
    Distinct(Ids(s'.pending)) && forall id :: id in Ids(s.pending) <==> id in Ids(s'.pending)
  }

  /** What the database has answers for the pending findings of the state reported under `kind`, and for the
      event that is open, if one is. The score may lag. */
  ghost predicate AnswersFor(t: Tables, s: PolicyState, kind: string) {
    && SamePending(s, Stored(t)) && OpenIsHeld(Stored(t).openEvent, t.events)
    && (kind == "" ==> HeldIsOpen(Stored(t).openEvent, t.events))
  }

  ghost predicate DutiesSaved(sl: Slice, kind: string) {
    kind in sl.copies ==> AnswersFor(sl.tables, sl.copies[kind], kind)
  }

  lemma SamePendingKeepsCore(s: PolicyState, s': PolicyState, t: Tables, ledger: Ledger)
    requires Core(s, t, ledger) && Shape(s') && SamePending(s, s') && OpenIsHeld(s'.openEvent, t.events)
    ensures Core(s', t, ledger)
  {
    forall i | 0 <= i < |t.findings| ensures Fate(Ids(s'.pending), t.findings, ledger, i) {
      assert Fate(Ids(s.pending), t.findings, ledger, i);
    }
    forall i | 0 <= i < |Ids(s'.pending)| ensures Ids(s'.pending)[i] < |t.findings| {
      assert Ids(s'.pending)[i] in Ids(s.pending);
    }
  }

  lemma CoreFixesPending(s: PolicyState, s': PolicyState, t: Tables, ledger: Ledger)
    requires Core(s, t, ledger) && Core(s', t, ledger)
    ensures SamePending(s, s')
  {
    forall id: nat ensures id in Ids(s.pending) <==> id in Ids(s'.pending) {
      if id < |t.findings| {
        assert Fate(Ids(s.pending), t.findings, ledger, id) && Fate(Ids(s'.pending), t.findings, ledger, id);
      }
    }
  }

  lemma CoreHoldsOpen(s: PolicyState, t: Tables, ledger: Ledger)
    requires Core(s, t, ledger)
    ensures OpenIsHeld(s.openEvent, t.events)
  {
  }

  /** A restart keeps the structure exactly if the row, or its absence, has the pending findings of the
      reported state and the open event. */
  lemma RestartKeepsStructureIff(sl: Slice, kind: string, ledger: Ledger)
    requires Structured(sl, kind, ledger) && AllPlaced(sl)
    ensures Structured(Restart(sl), kind, ledger) <==> DutiesSaved(sl, kind)
  {
    hide Core, SamePending, OpenIsHeld, HeldIsOpen;
    if kind in sl.copies {
      var s, s' := sl.copies[kind], Stored(sl.tables);
      if Core(s', sl.tables, ledger) {
        CoreFixesPending(s, s', sl.tables, ledger);
        CoreHoldsOpen(s', sl.tables, ledger);
      }
      if DutiesSaved(sl, kind) {
        SamePendingKeepsCore(s, s', sl.tables, ledger);
      }
    }
  }

  ghost predicate ReportedUnder(kind: string, steps: seq<Step>) {
    forall i :: 0 <= i < |steps| && steps[i].Reported? ==> steps[i].kind == kind
  }

  /** The series is reported under one key, and a restart finds the duties saved. */
  ghost predicate Sound(cfg: Config, kind: string, steps: seq<Step>) {
    && ReportedUnder(kind, steps)
    && forall i :: 0 <= i < |steps| && steps[i].Restarted? ==> DutiesSaved(SliceAfter(cfg, steps[..i]), kind)
  }

  lemma SoundBefore(cfg: Config, kind: string, steps: seq<Step>)
    requires Sound(cfg, kind, steps) && steps != []
    ensures
      var before, last := steps[..|steps| - 1], steps[|steps| - 1];
      && Sound(cfg, kind, before) && (last.Reported? ==> last.kind == kind)
      && (last.Restarted? ==> DutiesSaved(SliceAfter(cfg, before), kind))
  {
    hide DutiesSaved, SliceAfter;
    assert forall i :: 0 <= i < |steps| - 1 ==> steps[..|steps| - 1][..i] == steps[..i];
  }

  // ------------------------------------------------------------ small effects

  lemma {:induction false} AttachAllAt(findings: seq<FindingRow>, pending: seq<Pending>, event: nat, i: nat)
    requires i < |findings|
    ensures AttachAll(findings, pending, event)[i]
         == if i in Ids(pending) then findings[i].(event := Some(event)) else findings[i]
    decreases |pending|
  {
    if pending != [] {
      var n := |pending| - 1;
      AttachAllAt(findings, pending[..n], event, i);
      assert Ids(pending) == Ids(pending[..n]) + [pending[n].id];
    }
  }

  lemma RowKeepsIds(s: PolicyState)
    ensures Ids(FromRow(ToRow(s)).pending) == Ids(s.pending)
  {
  }

  /** Only status, event, pending ids and the tables matter to the structure. */
  lemma CoreDependsOn(s: PolicyState, s': PolicyState, t: Tables, t': Tables, ledger: Ledger)
    requires Core(s, t, ledger)
    requires s'.status == s.status && s'.openEvent == s.openEvent && Ids(s'.pending) == Ids(s.pending)
    requires t'.findings == t.findings && t'.events == t.events
    ensures Core(s', t', ledger)
  {
    assert |s'.pending| == |Ids(s'.pending)| == |s.pending|;
  }

  lemma InsertKeepsTimes(t: Tables, f: Finding)
    requires DistinctTimes(t.findings) && !Conflicts(t, f.ts)
    ensures DistinctTimes(InsertFinding(t, f).findings)
  {
  }

  /** A new finding is pending, attached or refused, and everything else keeps its fate. */
  lemma NewFindingConserved(
    ids: seq<nat>, findings: seq<FindingRow>, ledger: Ledger, row: FindingRow, ids': seq<nat>, ledger': Ledger)
    requires Conserved(ids, findings, ledger)
    requires ids' == ids || ids' == ids + [|findings|]
    requires ledger' == ledger || ledger' == ledger.(refused := ledger.refused + {|findings|})
    requires ExactlyOne(ids' != ids, row.event.Some?, false, ledger' != ledger)
    ensures Conserved(ids', findings + [row], ledger')
  {
    var n := |findings|;
    assert n !in ledger.expired + ledger.refused;
    assert n !in ids;
    forall i | 0 <= i < n + 1
      ensures Fate(ids', findings + [row], ledger', i)
    {
      if i < n {
        assert Fate(ids, findings, ledger, i);
        assert (findings + [row])[i] == findings[i];
        assert i in ids' <==> i in ids;
        assert i in ledger'.refused <==> i in ledger.refused;
      } else {
        assert (findings + [row])[n] == row;
        assert n in ids' <==> ids' != ids;
        assert n in ledger'.refused <==> ledger' != ledger;
      }
    }
  }

  lemma WatchingConserved(s: PolicyState, t: Tables, ledger: Ledger, s': PolicyState, f: Finding)
    requires Core(s, t, ledger) && !Conflicts(t, f.ts)
    requires s.status.Clean? || s.status.Watching?
    requires s'.status.Watching? && s'.openEvent == s.openEvent
    requires Ids(s'.pending) == Ids(s.pending) + [|t.findings|]
    ensures Core(s', InsertFinding(t, f), ledger)
  {
    InsertKeepsTimes(t, f);
    NewFindingConserved(Ids(s.pending), t.findings, ledger, FindingRow(f.ts, f.severity, None),
                        Ids(s'.pending), ledger);
  }

  lemma RefusedConserved(s: PolicyState, t: Tables, ledger: Ledger, f: Finding)
    requires Core(s, t, ledger) && !Conflicts(t, f.ts)
    ensures Core(s, InsertFinding(t, f), ledger.(refused := ledger.refused + {|t.findings|}))
  {
    InsertKeepsTimes(t, f);
    var ledger' := ledger.(refused := ledger.refused + {|t.findings|});
    assert |t.findings| !in ledger.expired + ledger.refused && |t.findings| in ledger'.refused;
    NewFindingConserved(Ids(s.pending), t.findings, ledger, FindingRow(f.ts, f.severity, None),
                        Ids(s.pending), ledger');
  }

  lemma AttachedConserved(s: PolicyState, t: Tables, ledger: Ledger, f: Finding, t': Tables)
    requires Core(s, t, ledger) && !Conflicts(t, f.ts) && s.openEvent.Some?
    requires
      var inserted := InsertFinding(t, f);
      t' == inserted.(findings := Attach(inserted.findings, |t.findings|, s.openEvent.value))
    ensures Core(s, t', ledger)
  {
    InsertKeepsTimes(t, f);
    var row := FindingRow(f.ts, f.severity, s.openEvent);
    assert t'.findings == t.findings + [row];
    NewFindingConserved(Ids(s.pending), t.findings, ledger, row, Ids(s.pending), ledger);
  }

  lemma OpeningConserves(s: PolicyState, t: Tables, ledger: Ledger, event: nat)
    requires Conserved(Ids(s.pending), t.findings, ledger)
    ensures Conserved([], AttachAll(t.findings, s.pending, event), ledger)
  {
    var after := AttachAll(t.findings, s.pending, event);
    forall i | 0 <= i < |after|
      ensures Fate([], after, ledger, i)
    {
      AttachAllAt(t.findings, s.pending, event, i);
      assert Fate(Ids(s.pending), t.findings, ledger, i);
    }
  }

  lemma OpeningAttachesToKnown(s: PolicyState, t: Tables)
    requires AttachedToKnown(t.findings, |t.events|)
    ensures AttachedToKnown(AttachAll(t.findings, s.pending, |t.events|), |t.events| + 1)
  {
    var after := AttachAll(t.findings, s.pending, |t.events|);
    forall i | 0 <= i < |after| && after[i].event.Some?
      ensures after[i].event.value < |t.events| + 1
    {
      AttachAllAt(t.findings, s.pending, |t.events|, i);
    }
  }

  lemma OpeningKeepsTimes(s: PolicyState, t: Tables, event: nat)
    requires DistinctTimes(t.findings)
    ensures DistinctTimes(AttachAll(t.findings, s.pending, event))
  {
    var after := AttachAll(t.findings, s.pending, event);
    forall i | 0 <= i < |after|
      ensures after[i].ts == t.findings[i].ts
    {
      AttachAllAt(t.findings, s.pending, event, i);
    }
  }

  lemma OpeningKeepsCore(s: PolicyState, t: Tables, ledger: Ledger, f: Finding)
    requires Core(s, t, ledger) && s.status.Watching?
    ensures Core(OpenState(s, t, f), OpenTables(s, t, f), ledger)
  {
    OpeningConserves(s, t, ledger, |t.events|);
    OpeningAttachesToKnown(s, t);
    OpeningKeepsTimes(s, t, |t.events|);
    assert Ids(OpenState(s, t, f).pending) == [];
  }

  lemma WatchKeepsCore(s: PolicyState, t: Tables, ledger: Ledger, f: Finding, crossed: bool, faults: ApplyFaults)
    requires Core(s, t, ledger) && s.status.Watching?
    ensures
      var r := Watch(s, t, f, crossed, faults);
      r.copy.Some? && Core(r.copy.value, r.tables, ledger)
  {
    var r := Watch(s, t, f, crossed, faults);
    if crossed && !Aborts(faults.tx, |s.pending|) {
      OpeningKeepsCore(s, t, ledger, f);
      CoreDependsOn(r.copy.value, r.copy.value, OpenTables(s, t, f), r.tables, ledger);
    } else {
      CoreDependsOn(s, s, t, r.tables, ledger);
    }
  }

  // --------------------------------------------------------- steps keep it

  lemma AttachToKeepsCore(
    s: PolicyState, t: Tables, ledger: Ledger, f: Finding, s1: PolicyState, next: PolicyState, faults: ApplyFaults)
    requires Core(s, t, ledger) && !Conflicts(t, f.ts) && s.openEvent.Some?
    requires Shape(s1) && s1.openEvent == s.openEvent && s1.pending == s.pending && s1.status == s.status
    requires Shape(next) && next.openEvent == s.openEvent && next.pending == s.pending
    ensures
      var r := AttachTo(s1, InsertFinding(t, f), |t.findings|, next, faults);
      var ledger' := if faults.attach then ledger.(refused := ledger.refused + {|t.findings|}) else ledger;
      r.copy.Some? && Core(r.copy.value, r.tables, ledger')
  {
    var r := AttachTo(s1, InsertFinding(t, f), |t.findings|, next, faults);
    if faults.attach {
      RefusedConserved(s, t, ledger, f);
      CoreDependsOn(s, s1, InsertFinding(t, f), r.tables, ledger.(refused := ledger.refused + {|t.findings|}));
    } else {
      var attached := InsertFinding(t, f).(
        findings := Attach(InsertFinding(t, f).findings, |t.findings|, s.openEvent.value));
      AttachedConserved(s, t, ledger, f, attached);
      assert Core(next, r.tables, ledger);
    }
  }

  ghost function AfterApply(s: PolicyState, t: Tables, ledger: Ledger, faults: ApplyFaults): Ledger {
    if (s.status.Firing? || s.status.Recovering?) && (faults.attach || s.openEvent.None?)
    then ledger.(refused := ledger.refused + {|t.findings|})
    else ledger
  }

  lemma ApplyKeepsCore(cfg: Config, s: PolicyState, t: Tables, ledger: Ledger, f: Finding, faults: ApplyFaults)
    requires Core(s, t, ledger) && !Conflicts(t, f.ts)
    ensures
      var r := ApplyLoaded(cfg, s, InsertFinding(t, f), f, |t.findings|, faults);
      r.copy.Some? && Core(r.copy.value, r.tables, AfterApply(s, t, ledger, faults))
  {
    var u := Add(cfg.bucket, s.bucket, f.severity, f.ts);
    var s1 := s.(bucket := u.newState);
    var p := Pending(|t.findings|, Some(f.severity));
    match s.status
    case Clean =>
      var w := s1.(status := Watching, since := f.ts, pending := [p]);
      assert Ids(w.pending) == Ids(s.pending) + [p.id];
      WatchingConserved(s, t, ledger, w, f);
      WatchKeepsCore(w, InsertFinding(t, f), ledger, f, u.crossedOpen, faults);
    case Watching =>
      var w := s1.(pending := s.pending + [p]);
      assert Ids(w.pending) == Ids(s.pending) + [p.id];
      WatchingConserved(s, t, ledger, w, f);
      WatchKeepsCore(w, InsertFinding(t, f), ledger, f, u.crossedOpen, faults);
    case Firing =>
      AttachToKeepsCore(s, t, ledger, f, s1, s1, faults);
    case Recovering =>
      AttachToKeepsCore(s, t, ledger, f, s1, s1.(status := Firing, since := f.ts), faults);
  }

  lemma ReportKeepsAccount(cfg: Config, kind: string, sl: Slice, ledger: Ledger, step: Step)
    requires Accounted(sl, kind, ledger) && step.Reported? && step.kind == kind
    ensures Accounted(Next(cfg, sl, step), kind, Account(cfg, kind, sl, ledger, step))
  {
    hide ApplyLoaded, Conserved, Trails;
    var t, f := sl.tables, step.finding;
    if !step.insertFails && !Conflicts(t, f.ts) {
      var loaded := Load(CopyIn(sl, kind), InsertFinding(t, f), step.faults.load);
      if loaded.None? {
        RefusedConserved(LoadedFor(sl, kind), t, ledger, f);
      } else {
        assert loaded.value == LoadedFor(sl, kind);
        ApplyKeepsCore(cfg, LoadedFor(sl, kind), t, ledger, f, step.faults);
      }
    }
  }

  lemma ClosingKeepsEvents(events: seq<Event>, v: nat, now: real)
    requires OpenIsHeld(Some(v), events)
    ensures OpenIsHeld(None, CloseEvent(events, v, now))
  {
  }

  lemma ExpiryConserves(ids: seq<nat>, findings: seq<FindingRow>, ledger: Ledger, ledger': Ledger)
    requires Conserved(ids, findings, ledger)
    requires ledger' == ledger.(expired := ledger.expired + set id | id in ids)
    ensures Conserved([], findings, ledger')
  {
    forall id | id in ledger'.expired
      ensures id < |findings|
    {
      assert id in ledger.expired + ledger.refused || id in ids;
    }
    assert forall id :: id in ledger.refused ==> id in ledger.expired + ledger.refused;
    forall i | 0 <= i < |findings|
      ensures Fate([], findings, ledger', i)
    {
      assert Fate(ids, findings, ledger, i);
    }
  }

  ghost function AfterVisit(cfg: Config, s: PolicyState, ledger: Ledger, now: real): Ledger {
    if Expires(cfg, s, now) then ledger.(expired := ledger.expired + IdSet(s)) else ledger
  }

  lemma VisitKeepsCore(
    cfg: Config, s: PolicyState, t: Tables, ledger: Ledger, now: real, closeFails: bool, saveFails: bool)
    requires Core(s, t, ledger)
    ensures
      var v := SweepVisit(cfg, s, t, now, closeFails, saveFails);
      Core(v.state, v.tables, AfterVisit(cfg, s, ledger, now))
  {
    var v := SweepVisit(cfg, s, t, now, closeFails, saveFails);
    if Expires(cfg, s, now) {
      ExpiryConserves(Ids(s.pending), t.findings, ledger, AfterVisit(cfg, s, ledger, now));
      assert Ids(v.state.pending) == [];
    } else if Closes(cfg, s, now) && !closeFails {
      ClosingKeepsEvents(t.events, s.openEvent.value, now);
      assert Ids(v.state.pending) == [] == Ids(s.pending);
    } else if s.status.Firing? && v.state.status.Recovering? {
      CoreDependsOn(s, v.state.(status := Firing), t, v.tables, ledger);
    } else {
      CoreDependsOn(s, v.state, t, v.tables, ledger);
    }
  }

  /** Of a state that is not in memory itself, nothing is lost when another state's visit closes an event. */
  lemma ClosingElsewhereKeepsCore(
    cfg: Config, s: PolicyState, t: Tables, ledger: Ledger, other: PolicyState, now: real, closeFails: bool,
    saveFails: bool)
    requires Core(s, t, ledger)
    ensures Core(s, SweepVisit(cfg, other, t, now, closeFails, saveFails).tables, ledger)
  {
    hide Conserved, Swept, ToRow;
  }

  lemma VisitTrails(
    cfg: Config, s: PolicyState, stored: PolicyState, t: Tables, now: real, closeFails: bool, saveFails: bool)
    requires Placed(s, t.events) && Trails(s, stored, t.events)
    ensures
      var v := SweepVisit(cfg, s, t, now, closeFails, saveFails);
      Trails(v.state, stored, v.tables.events)
  {
  }

  lemma RowTrails(s: PolicyState, events: seq<Event>)
    ensures Trails(s, FromRow(ToRow(s)), events)
  {
    RowKeepsIds(s);
  }

  /** Saving the sweep's state over the row drops expired findings and closed events only. */
  lemma TrailingKeepsCore(s: PolicyState, stored: PolicyState, t: Tables, ledger: Ledger)
    requires Core(stored, t, ledger) && Trails(s, stored, t.events) && Shape(s)
    ensures
      var ended := stored.status.Watching? && !s.status.Watching?;
      Core(s, t, if ended then ledger.(expired := ledger.expired + IdSet(stored)) else ledger)
  {
    assert |Ids(s.pending)| == |s.pending| && |Ids(stored.pending)| == |stored.pending|;
    assert s.pending == [] ==> Ids(s.pending) == [];
    assert stored.pending == [] ==> Ids(stored.pending) == [];
    if stored.status.Watching? && !s.status.Watching? {
      ExpiryConserves(Ids(stored.pending), t.findings, ledger,
                      ledger.(expired := ledger.expired + IdSet(stored)));
    }
  }

  /** A visit of the reported state ends its watch exactly if the confirm window has passed. */
  lemma WatchEndsIff(cfg: Config, kind: string, sl: Slice, now: real, closeFails: bool, saveFails: bool)
    requires kind in sl.copies
    ensures EndsWatch(cfg, kind, sl, Visited(kind, now, closeFails, saveFails)) <==>
            Expires(cfg, sl.copies[kind], now)
  {
  }

  lemma OwnVisitKeepsAccount(cfg: Config, kind: string, sl: Slice, ledger: Ledger, step: Step)
    requires Accounted(sl, kind, ledger) && step.Visited? && step.kind == kind && kind in sl.copies
    ensures Accounted(Next(cfg, sl, step), kind, Account(cfg, kind, sl, ledger, step))
  {
    hide Core, SweepVisit, Trails;
    VisitKeepsCore(cfg, sl.copies[kind], sl.tables, ledger, step.now, step.closeFails, step.saveFails);
    WatchEndsIff(cfg, kind, sl, step.now, step.closeFails, step.saveFails);
  }

  lemma OtherVisitKeepsAccount(cfg: Config, kind: string, sl: Slice, ledger: Ledger, step: Step)
    requires Accounted(sl, kind, ledger) && step.Visited? && step.kind == "" != kind && "" in sl.copies
    requires kind in sl.copies
    ensures Accounted(Next(cfg, sl, step), kind, Account(cfg, kind, sl, ledger, step))
  {
    hide Core, SweepVisit, Trails;
    ClosingElsewhereKeepsCore(cfg, sl.copies[kind], sl.tables, ledger, sl.copies[""], step.now, step.closeFails,
                              step.saveFails);
  }

  lemma LoneSaveKeepsCore(s: PolicyState, stored: PolicyState, t: Tables, ledger: Ledger)
    requires Core(stored, t, ledger) && Trails(s, stored, t.events) && Shape(s) && t.row == Some(ToRow(s))
    ensures Trails(s, Stored(t), t.events) && Stored(t).status == s.status
    ensures
      var ended := stored.status.Watching? && !s.status.Watching?;
      Core(Stored(t), t, if ended then ledger.(expired := ledger.expired + IdSet(stored)) else ledger)
  {
    hide Trails;
    var ended := stored.status.Watching? && !s.status.Watching?;
    TrailingKeepsCore(s, stored, t, ledger);
    RowTrails(s, t.events);
    RowKeepsIds(s);
    CoreDependsOn(s, Stored(t), t, t,
                  if ended then ledger.(expired := ledger.expired + IdSet(stored)) else ledger);
  }

  lemma LoneVisitKeepsAccount(cfg: Config, kind: string, sl: Slice, ledger: Ledger, step: Step)
    requires Accounted(sl, kind, ledger) && AllPlaced(sl) && step.Visited? && step.kind == "" && "" in sl.copies
    requires kind !in sl.copies
    ensures Accounted(Next(cfg, sl, step), kind, Account(cfg, kind, sl, ledger, step))
  {
    hide Core, SweepVisit, Trails, ToRow, FromRow;
    var s, stored := sl.copies[""], Stored(sl.tables);
    var v := SweepVisit(cfg, s, sl.tables, step.now, step.closeFails, step.saveFails);
    ClosingElsewhereKeepsCore(cfg, stored, sl.tables, ledger, s, step.now, step.closeFails, step.saveFails);
    VisitKeepsPlace(cfg, s, sl.tables, step.now, step.closeFails, step.saveFails);
    VisitTrails(cfg, s, stored, sl.tables, step.now, step.closeFails, step.saveFails);
    if v.tables.row != sl.tables.row {
      LoneSaveKeepsCore(v.state, stored, v.tables, ledger);
    }
  }

  lemma ListingKeepsAccount(cfg: Config, kind: string, sl: Slice, ledger: Ledger)
    requires Accounted(sl, kind, ledger)
    ensures Accounted(Next(cfg, sl, Listed), kind, ledger)
  {
    hide Core, FromRow;
  }

  lemma ApplyHoldsOpen(cfg: Config, s: PolicyState, t: Tables, f: Finding, id: nat, faults: ApplyFaults)
    requires HeldIsOpen(s.openEvent, t.events)
    ensures
      var r := ApplyLoaded(cfg, s, t, f, id, faults);
      r.copy.Some? && HeldIsOpen(r.copy.value.openEvent, r.tables.events)
  {
    hide AttachAll, PeakSeverity, Leaked, ToRow;
  }

  lemma VisitHoldsOpen(cfg: Config, s: PolicyState, t: Tables, now: real, closeFails: bool, saveFails: bool)
    requires HeldIsOpen(s.openEvent, t.events)
    ensures
      var v := SweepVisit(cfg, s, t, now, closeFails, saveFails);
      HeldIsOpen(v.state.openEvent, v.tables.events)
  {
    hide Leaked, ToRow;
  }

  lemma StepHoldsOpen(cfg: Config, sl: Slice, step: Step)
    requires sl.copies.Keys <= {""} && HeldIsOpen(LoadedFor(sl, "").openEvent, sl.tables.events)
    requires step.Reported? ==> step.kind == ""
    requires step.Restarted? ==> HeldIsOpen(Stored(sl.tables).openEvent, sl.tables.events)
    ensures
      var sl' := Next(cfg, sl, step);
      HeldIsOpen(LoadedFor(sl', "").openEvent, sl'.tables.events)
  {
    hide ApplyLoaded, SweepVisit, HeldIsOpen, FromRow;
    var s := LoadedFor(sl, "");
    match step
    case Reported(_, f, _, faults) =>
      ApplyHoldsOpen(cfg, s, InsertFinding(sl.tables, f), f, |sl.tables.findings|, faults);
    case Visited(_, now, closeFails, saveFails) =>
      VisitHoldsOpen(cfg, s, sl.tables, now, closeFails, saveFails);
    case _ =>
  }

  lemma StepKeepsAccount(cfg: Config, kind: string, sl: Slice, ledger: Ledger, step: Step)
    requires Accounted(sl, kind, ledger) && AllPlaced(sl) && !step.Restarted?
    requires step.Reported? ==> step.kind == kind
    ensures Accounted(Next(cfg, sl, step), kind, Account(cfg, kind, sl, ledger, step))
  {
    hide Core, Trails, SweepVisit;
    match step
    case Reported(_, _, _, _) => ReportKeepsAccount(cfg, kind, sl, ledger, step);
    case Listed => ListingKeepsAccount(cfg, kind, sl, ledger);
    case Visited(k, _, _, _) =>
      if k in sl.copies {
        if k == kind {
          OwnVisitKeepsAccount(cfg, kind, sl, ledger, step);
        } else if kind in sl.copies {
          OtherVisitKeepsAccount(cfg, kind, sl, ledger, step);
        } else {
          LoneVisitKeepsAccount(cfg, kind, sl, ledger, step);
        }
      }
  }

  lemma StepKeepsStructure(cfg: Config, kind: string, sl: Slice, ledger: Ledger, step: Step)
    requires Structured(sl, kind, ledger) && AllPlaced(sl)
    requires step.Reported? ==> step.kind == kind
    requires step.Restarted? ==> DutiesSaved(sl, kind)
    ensures Structured(Next(cfg, sl, step), kind, Account(cfg, kind, sl, ledger, step))
  {
    hide Core, Trails, DutiesSaved, SweepVisit, ApplyLoaded, HeldIsOpen;
    if step.Restarted? {
      RestartKeepsStructureIff(sl, kind, ledger);
    } else {
      StepKeepsAccount(cfg, kind, sl, ledger, step);
      if kind == "" {
        StepHoldsOpen(cfg, sl, step);
      }
    }
  }

  lemma EmptyIsStructured(kind: string)
    ensures Structured(EMPTY_SLICE, kind, Ledger({}, {}))
  {
    assert Ids(FRESH.pending) == [];
  }

  /** On every run reported under one key, with a probe type or without, whose restarts find the pending
      findings and the open event saved, whatever database calls fail: a state holds an event iff firing or
      recovering and findings are pending iff watching, at most one event is open and it is the held one, and
      each finding has exactly one fate. Without a probe type the held event is open, too. */
  lemma {:induction false} EveryRunIsStructured(cfg: Config, kind: string, steps: seq<Step>)
    requires Sound(cfg, kind, steps)
    ensures Structured(SliceAfter(cfg, steps), kind, LedgerAfter(cfg, kind, steps))
    decreases |steps|
  {
    hide Structured, AllPlaced, Sound, DutiesSaved, Account, Next;
    if steps == [] {
      EmptyIsStructured(kind);
    } else {
      var before := steps[..|steps| - 1];
      SoundBefore(cfg, kind, steps);
      EveryRunIsStructured(cfg, kind, before);
      EveryStateIsPlaced(cfg, before);
      StepKeepsStructure(cfg, kind, SliceAfter(cfg, before), LedgerAfter(cfg, kind, before), steps[|steps| - 1]);
    }
  }

  ghost predicate OneOpenEvent(t: Tables) {
    forall v, w :: 0 <= v < w < |t.events| ==> t.events[v].closedAt.Some? || t.events[w].closedAt.Some?
  }

  lemma RunsHaveOneOpenEvent(cfg: Config, kind: string, steps: seq<Step>)
    requires Sound(cfg, kind, steps)
    ensures OneOpenEvent(SliceAfter(cfg, steps).tables)
  {
    hide SliceAfter, Sound, LedgerAfter;
    EveryRunIsStructured(cfg, kind, steps);
  }

  // -------------------------------------------------- a restart that loses an event

  const OPENED := PolicyState(Firing, 10.0, BucketState(6.0, 10.0), Some(0), [])
  const OPEN_EVENT := Event(10.0, None, 1, 6.0)
  const FIRST := FindingRow(10.0, 6.0, Some(0))

  /** A finding of severity 6 at 10 s, as the first one of a series. */
  lemma FirstReport(kind: string, saveFails: bool)
    ensures Next(DEPLOYED, EMPTY_SLICE, Reported(kind, Finding(6.0, 10.0), false, NO_APPLY_FAULTS.(save := saveFails)))
         == Slice(map[kind := OPENED], Tables([FIRST], [OPEN_EVENT], if saveFails then None else Some(ToRow(OPENED))))
  {
    var p := [Pending(0, Some(6.0))];
    var t := Tables([FindingRow(10.0, 6.0, None)], [], None);
    assert PeakSeverity(p, 6.0) == 6.0;
    assert AttachAll(t.findings, p, 0) == [FIRST] by {
      assert p[..0] == [];
    }
    assert InsertFinding(EMPTY_TABLES, Finding(6.0, 10.0)) == t;
  }

  function UnsavedOpening(kind: string): seq<Step> {
    [Reported(kind, Finding(6.0, 10.0), false, NO_APPLY_FAULTS.(save := true)), Restarted]
  }

  /** If the state that opened an event cannot be saved and the process restarts, an event is open that neither
      a state nor the row holds: the restart does not find the duties saved. */
  lemma UnsavedEventIsLost(kind: string)
    ensures
      var run := UnsavedOpening(kind);
      && !DutiesSaved(SliceAfter(DEPLOYED, run[..1]), kind)
      && SliceAfter(DEPLOYED, run) == Slice(map[], Tables([FIRST], [OPEN_EVENT], None)) && OPEN_EVENT.closedAt.None?
  {
    hide Next;
    var run := UnsavedOpening(kind);
    assert run[..1][..0] == [];
    assert SliceAfter(DEPLOYED, run[..1]) == Next(DEPLOYED, SliceAfter(DEPLOYED, []), run[0]);
    assert SliceAfter(DEPLOYED, run) == Next(DEPLOYED, SliceAfter(DEPLOYED, run[..1]), run[1]);
    FirstReport(kind, true);
    RestartForgets(DEPLOYED, SliceAfter(DEPLOYED, run[..1]));
    assert [OPEN_EVENT][0].closedAt.None?;
  }

  // ------------------------------------------------------ attachments are final

  lemma WatchKeepsAttachment(
    s: PolicyState, t: Tables, ledger: Ledger, f: Finding, crossed: bool, faults: ApplyFaults, i: nat)
    requires Core(s, t, ledger) && i < |t.findings| && t.findings[i].event.Some?
    ensures
      var r := Watch(s, t, f, crossed, faults);
      |r.tables.findings| == |t.findings| && r.tables.findings[i] == t.findings[i]
  {
    assert Fate(Ids(s.pending), t.findings, ledger, i);
    AttachAllAt(t.findings, s.pending, |t.events|, i);
  }

  lemma ApplyKeepsAttachment(
    cfg: Config, s: PolicyState, t: Tables, ledger: Ledger, f: Finding, faults: ApplyFaults, i: nat)
    requires Core(s, t, ledger) && !Conflicts(t, f.ts) && i < |t.findings| && t.findings[i].event.Some?
    ensures
      var r := ApplyLoaded(cfg, s, InsertFinding(t, f), f, |t.findings|, faults);
      i < |r.tables.findings| && r.tables.findings[i] == t.findings[i]
  {
    if s.status.Clean? || s.status.Watching? {
      var u := Add(cfg.bucket, s.bucket, f.severity, f.ts);
      var p := Pending(|t.findings|, Some(f.severity));
      var w := s.(bucket := u.newState, status := Watching, since := if s.status.Clean? then f.ts else s.since,
                  pending := s.pending + [p]);
      assert s.status.Clean? ==> w.pending == [p];
      assert Ids(w.pending) == Ids(s.pending) + [p.id];
      WatchingConserved(s, t, ledger, w, f);
      WatchKeepsAttachment(w, InsertFinding(t, f), ledger, f, u.crossedOpen, faults, i);
    }
  }

  lemma StepKeepsAttachment(cfg: Config, kind: string, sl: Slice, ledger: Ledger, step: Step, i: nat)
    requires Structured(sl, kind, ledger)
    requires step.Reported? ==> step.kind == kind
    requires i < |sl.tables.findings| && sl.tables.findings[i].event.Some?
    ensures
      var t := Next(cfg, sl, step).tables;
      i < |t.findings| && t.findings[i] == sl.tables.findings[i]
  {
    hide ApplyLoaded, Swept;
    if step.Reported? && !step.insertFails && !Conflicts(sl.tables, step.finding.ts) {
      var loaded := Load(CopyIn(sl, kind), InsertFinding(sl.tables, step.finding), step.faults.load);
      if loaded.Some? {
        ApplyKeepsAttachment(cfg, LoadedFor(sl, kind), sl.tables, ledger, step.finding, step.faults, i);
      }
    }
  }

  /** Once attached to an event, a finding stays attached to that event. */
  lemma {:induction false} AttachmentIsFinal(cfg: Config, kind: string, steps: seq<Step>, upTo: nat, i: nat)
    requires Sound(cfg, kind, steps) && upTo <= |steps|
    requires
      var t := SliceAfter(cfg, steps[..upTo]).tables;
      i < |t.findings| && t.findings[i].event.Some?
    ensures
      var t, t' := SliceAfter(cfg, steps[..upTo]).tables, SliceAfter(cfg, steps).tables;
      i < |t'.findings| && t'.findings[i] == t.findings[i]
    decreases |steps|
  {
    hide Structured, Sound, DutiesSaved, Next;
    if upTo == |steps| {
      assert steps[..upTo] == steps;
    } else {
      var before := steps[..|steps| - 1];
      assert before[..upTo] == steps[..upTo];
      SoundBefore(cfg, kind, steps);
      AttachmentIsFinal(cfg, kind, before, upTo, i);
      EveryRunIsStructured(cfg, kind, before);
      StepKeepsAttachment(cfg, kind, SliceAfter(cfg, before), LedgerAfter(cfg, kind, before), steps[|steps| - 1], i);
    }
  }

  // -------------------------------------------------- each finding applies once

  /** The worker's report reaches ApplyFinding: the row was inserted. */
  predicate Applies(sl: Slice, step: Step) {
    step.Reported? && !step.insertFails && !Conflicts(sl.tables, step.finding.ts)
  }

  ghost predicate SameTimes(findings: seq<FindingRow>, findings': seq<FindingRow>) {
    |findings| <= |findings'| && forall i :: 0 <= i < |findings| ==> findings'[i].ts == findings[i].ts
  }

  lemma AttachAllKeepsTimes(findings: seq<FindingRow>, pending: seq<Pending>, event: nat)
    ensures SameTimes(findings, AttachAll(findings, pending, event))
  {
    forall i | 0 <= i < |findings| ensures AttachAll(findings, pending, event)[i].ts == findings[i].ts {
      AttachAllAt(findings, pending, event, i);
    }
  }

  lemma ApplyKeepsTimes(cfg: Config, s: PolicyState, t: Tables, f: Finding, id: nat, faults: ApplyFaults)
    ensures SameTimes(t.findings, ApplyLoaded(cfg, s, t, f, id, faults).tables.findings)
  {
    hide AttachAll;
    AttachAllKeepsTimes(t.findings, [Pending(id, Some(f.severity))], |t.events|);
    AttachAllKeepsTimes(t.findings, s.pending + [Pending(id, Some(f.severity))], |t.events|);
  }

  lemma StepKeepsTimes(cfg: Config, sl: Slice, step: Step)
    ensures
      var t := Next(cfg, sl, step).tables;
      SameTimes(if Applies(sl, step) then InsertFinding(sl.tables, step.finding).findings else sl.tables.findings,
                t.findings)
  {
    hide ApplyLoaded;
    if Applies(sl, step) {
      var t := InsertFinding(sl.tables, step.finding);
      var loaded := Load(CopyIn(sl, step.kind), t, step.faults.load);
      if loaded.Some? {
        ApplyKeepsTimes(cfg, loaded.value, t, step.finding, |sl.tables.findings|, step.faults);
      }
    }
  }

  lemma ConflictsStay(t: Tables, t': Tables, ts: real)
    requires SameTimes(t.findings, t'.findings) && Conflicts(t, ts)
    ensures Conflicts(t', ts)
  {
    var i :| 0 <= i < |t.findings| && t.findings[i].ts == ts;
    assert t'.findings[i].ts == ts;
  }

  lemma InsertedConflicts(t: Tables, f: Finding)
    ensures Conflicts(InsertFinding(t, f), f.ts)
  {
    assert InsertFinding(t, f).findings[|t.findings|].ts == f.ts;
  }

  lemma InsertKeepsConflicts(t: Tables, t': Tables, ts: real)
    requires Conflicts(t, ts) && t.findings <= t'.findings
    ensures Conflicts(t', ts)
  {
    var i :| 0 <= i < |t.findings| && t.findings[i].ts == ts;
    assert t'.findings[i].ts == ts;
  }

  lemma {:induction false} AppliedTimeConflicts(cfg: Config, steps: seq<Step>, i: nat)
    requires i < |steps| && Applies(SliceAfter(cfg, steps[..i]), steps[i])
    ensures Conflicts(SliceAfter(cfg, steps).tables, steps[i].finding.ts)
    decreases |steps|
  {
    hide Next, Conflicts;
    var n := |steps| - 1;
    var before := steps[..n];
    var sl := SliceAfter(cfg, before);
    var ts := steps[i].finding.ts;
    StepKeepsTimes(cfg, sl, steps[n]);
    var t := if Applies(sl, steps[n]) then InsertFinding(sl.tables, steps[n].finding) else sl.tables;
    if i == n {
      InsertedConflicts(sl.tables, steps[n].finding);
    } else {
      assert before[..i] == steps[..i];
      AppliedTimeConflicts(cfg, before, i);
      InsertKeepsConflicts(sl.tables, t, ts);
    }
    ConflictsStay(t, SliceAfter(cfg, steps).tables, ts);
  }

  /** Over any run whatever, restarts and failures included, no two findings of a series with the same
      time reach ApplyFinding. */
  lemma EachFindingAppliesOnce(cfg: Config, steps: seq<Step>, i: nat, j: nat)
    requires i < j < |steps|
    requires Applies(SliceAfter(cfg, steps[..i]), steps[i]) && Applies(SliceAfter(cfg, steps[..j]), steps[j])
    ensures steps[i].finding.ts != steps[j].finding.ts
  {
    hide SliceAfter, Conflicts;
    assert steps[..j][..i] == steps[..i] && steps[..j][i] == steps[i];
    AppliedTimeConflicts(cfg, steps[..j], i);
  }
}
