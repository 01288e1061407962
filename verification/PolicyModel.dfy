/**
 The policy engine as functions over values (services/argus/policy_engine.go).

 A series has rows in three tables: its findings, its events and its one policy row. A finding or
 event id is the position of its row among the rows of the series; ids are database-generated and
 unique, so any naming of them will do. A database call either succeeds or has no effect, and the
 `faults` arguments say which calls of a step fail.
 */
module PolicyModel {
  import opened Options
  import opened LeakyBucket

  datatype Status = Clean | Watching | Firing | Recovering

  /** The columns that identify a series in every argus table. */
  datatype SeriesId = SeriesId(serial: string, target: string, port: int, metric: string, detector: string)

  /** The key of the in-memory map: the worker fills in the probe type, `Sweep` leaves it empty. */
  datatype SeriesKey = SeriesKey(kind: string, series: SeriesId)

  datatype Finding = Finding(severity: real, ts: real)

  /** The severity is unknown for pending findings that were read back from the database. */
  datatype Pending = Pending(id: nat, severity: Option<real>)

  datatype PolicyState = PolicyState(
    status: Status, since: real, bucket: BucketState, openEvent: Option<nat>, pending: seq<Pending>)

  datatype Row = Row(
    status: Status, since: real, bucket: BucketState, openEvent: Option<nat>, pendingIds: seq<nat>)

  datatype FindingRow = FindingRow(ts: real, severity: real, event: Option<nat>)

  datatype Event = Event(openedAt: real, closedAt: Option<real>, findingCount: nat, peakSeverity: real)

  datatype Tables = Tables(findings: seq<FindingRow>, events: seq<Event>, row: Option<Row>)

  datatype Config = Config(bucket: BucketConfig, confirmWindow: real, quietPeriod: real)

  const EMPTY_TABLES := Tables([], [], None)

  /** A new state. Its entry time is overwritten by the finding that creates it. */
  const FRESH := PolicyState(Clean, 0.0, EMPTY_BUCKET, None, [])

  /** services/argus/runner.go: the deployed thresholds. */
  const DEPLOYED := Config(BucketConfig(5.0, 3.0, 0.1), 60.0, 120.0)

  function Ids(pending: seq<Pending>): (ids: seq<nat>)
    ensures |ids| == |pending|
    ensures forall i :: 0 <= i < |ids| ==> ids[i] == pending[i].id
  {
    seq(|pending|, i requires 0 <= i < |pending| => pending[i].id)
  }

  function ToRow(s: PolicyState): Row {
    Row(s.status, s.since, s.bucket, s.openEvent, Ids(s.pending))
  }

  function FromRow(r: Row): PolicyState {
    PolicyState(r.status, r.since, r.bucket, r.openEvent,
                seq(|r.pendingIds|, i requires 0 <= i < |r.pendingIds| => Pending(r.pendingIds[i], None)))
  }

  // ---------------------------------------------------------- the transaction

  /** Where the open-event transaction fails, if it does. */
  datatype TxFault = NoFault | AtOpen | AtAttach(index: nat) | AtCommit

  predicate Aborts(fault: TxFault, pendingCount: nat) {
    match fault
    case NoFault => false
    case AtAttach(i) => i < pendingCount
    case _ => true
  }

  /** UPDATE ... WHERE id: an unknown id matches no row. */
  function Attach(findings: seq<FindingRow>, id: nat, event: nat): (r: seq<FindingRow>)
    ensures |r| == |findings|
  {
    if id < |findings| then findings[id := findings[id].(event := Some(event))] else findings
  }

  function AttachAll(findings: seq<FindingRow>, pending: seq<Pending>, event: nat): (r: seq<FindingRow>)
    ensures |r| == |findings|
  {
    if pending == [] then findings
    else
      var n := |pending| - 1;
      Attach(AttachAll(findings, pending[..n], event), pending[n].id, event)
  }

  function PeakSeverity(pending: seq<Pending>, trigger: real): (peak: real)
    ensures peak >= trigger
    ensures forall i :: 0 <= i < |pending| && pending[i].severity.Some? ==> peak >= pending[i].severity.value
    ensures peak == trigger || exists i :: 0 <= i < |pending| && pending[i].severity == Some(peak)
  {
    if pending == [] then trigger
    else
      var n := |pending| - 1;
      var peak := PeakSeverity(pending[..n], trigger);
      if pending[n].severity.Some? && pending[n].severity.value > peak then
        assert pending[n].severity == Some(pending[n].severity.value);
        pending[n].severity.value
      else
        assert peak == trigger || exists i :: 0 <= i < n && pending[..n][i].severity == Some(peak);
        peak
  }

  // ------------------------------------------------------------ ApplyFinding

  datatype ApplyFaults = ApplyFaults(load: bool, tx: TxFault, attach: bool, save: bool)

  const NO_APPLY_FAULTS := ApplyFaults(false, NoFault, false, false)

  /** The in-memory state after a call (None: still not loaded), the tables, and no error returned. */
  datatype Effect = Effect(copy: Option<PolicyState>, tables: Tables, ok: bool)

  function Load(copy: Option<PolicyState>, t: Tables, fails: bool): Option<PolicyState> {
    if copy.Some? then copy
    else if fails then None
    else if t.row.Some? then Some(FromRow(t.row.value))
    else Some(FRESH)
  }

  function Save(s: PolicyState, t: Tables, fails: bool): Effect {
    Effect(Some(s), if fails then t else t.(row := Some(ToRow(s))), !fails)
  }

  /** The event row, with every pending finding attached to it, as one transaction. */
  function OpenTables(s: PolicyState, t: Tables, f: Finding): Tables {
    t.(events := t.events + [Event(f.ts, None, |s.pending|, PeakSeverity(s.pending, f.severity))],
       findings := AttachAll(t.findings, s.pending, |t.events|))
  }

  function OpenState(s: PolicyState, t: Tables, f: Finding): PolicyState {
    s.(status := Firing, openEvent := Some(|t.events|), pending := [], since := f.ts)
  }

  function Watch(s: PolicyState, t: Tables, f: Finding, crossed: bool, faults: ApplyFaults): Effect {
    if !crossed then Save(s, t, faults.save)
    else if Aborts(faults.tx, |s.pending|) then Effect(Some(s), t, false)
    else Save(OpenState(s, t, f), OpenTables(s, t, f), faults.save)
  }

  function AttachTo(s: PolicyState, t: Tables, id: nat, next: PolicyState, faults: ApplyFaults): Effect {
    if s.openEvent.None? || faults.attach then Effect(Some(s), t, false)
    else Save(next, t.(findings := Attach(t.findings, id, s.openEvent.value)), faults.save)
  }

  function ApplyLoaded(cfg: Config, s0: PolicyState, t: Tables, f: Finding, id: nat, faults: ApplyFaults): Effect {
    var u := Add(cfg.bucket, s0.bucket, f.severity, f.ts);
    var s := s0.(bucket := u.newState);
    var p := Pending(id, Some(f.severity));
    match s0.status
    case Clean => Watch(s.(status := Watching, since := f.ts, pending := [p]), t, f, u.crossedOpen, faults)
    case Watching => Watch(s.(pending := s.pending + [p]), t, f, u.crossedOpen, faults)
    case Firing => AttachTo(s, t, id, s, faults)
    case Recovering => AttachTo(s, t, id, s.(status := Firing, since := f.ts), faults)
  }

  function ApplyFinding(
    cfg: Config, copy: Option<PolicyState>, t: Tables, f: Finding, id: nat, faults: ApplyFaults): Effect
  {
    var loaded := Load(copy, t, faults.load);
    if loaded.None? then Effect(copy, t, false)
    else ApplyLoaded(cfg, loaded.value, t, f, id, faults)
  }

  /** argus_findings has a unique index on (series, ts); the insert does nothing on a conflict and
      then returns no id. */
  predicate Conflicts(t: Tables, ts: real) {
    exists i :: 0 <= i < |t.findings| && t.findings[i].ts == ts
  }

  function InsertFinding(t: Tables, f: Finding): Tables {
    t.(findings := t.findings + [FindingRow(f.ts, f.severity, None)])
  }

  /** The worker's report: insert, then apply only what was inserted. */
  function Report(
    cfg: Config, copy: Option<PolicyState>, t: Tables, f: Finding, insertFails: bool, faults: ApplyFaults): Effect
  {
    if insertFails || Conflicts(t, f.ts) then Effect(copy, t, false)
    else ApplyFinding(cfg, copy, InsertFinding(t, f), f, |t.findings|, faults)
  }

  // ------------------------------------------------------------------- Sweep

  /** The state after one visit of the sweep, and whether the visit ended the whole sweep. */
  datatype Visit = Visit(state: PolicyState, tables: Tables, aborted: bool)

  predicate Closes(cfg: Config, s: PolicyState, now: real) {
    s.status.Recovering? && now - s.since > cfg.quietPeriod && s.openEvent.Some?
  }

  predicate Expires(cfg: Config, s: PolicyState, now: real) {
    s.status.Watching? && now - s.since > cfg.confirmWindow
  }

  function Swept(cfg: Config, s: PolicyState, now: real): PolicyState {
    var u := Decay(cfg.bucket, s.bucket, now);
    var d := s.(bucket := u.newState);
    if Expires(cfg, s, now) then
      d.(status := Clean, pending := [], since := now, bucket := BucketState(0.0, now))
    else if s.status.Firing? && u.crossedClose then d.(status := Recovering, since := now)
    else if Closes(cfg, s, now) then d.(status := Clean, openEvent := None, pending := [], since := now)
    else d
  }

  function CloseEvent(events: seq<Event>, id: nat, now: real): (r: seq<Event>)
    ensures |r| == |events|
  {
    if id < |events| then events[id := events[id].(closedAt := Some(now))] else events
  }

  function SweepVisit(cfg: Config, s: PolicyState, t: Tables, now: real, closeFails: bool, saveFails: bool): Visit {
    if Closes(cfg, s, now) && closeFails then
      Visit(s.(bucket := Decay(cfg.bucket, s.bucket, now).newState), t, true)
    else
      var closed := if Closes(cfg, s, now) then t.(events := CloseEvent(t.events, s.openEvent.value, now)) else t;
      var swept := Swept(cfg, s, now);
      Visit(swept, Save(swept, closed, saveFails).tables, false)
  }

  // ------------------------------------------------------------- whole engine

  datatype Engine = Engine(states: map<SeriesKey, PolicyState>, db: map<SeriesId, Tables>)

  function TablesOf(db: map<SeriesId, Tables>, series: SeriesId): Tables {
    if series in db then db[series] else EMPTY_TABLES
  }

  function CopyOf(e: Engine, key: SeriesKey): Option<PolicyState> {
    if key in e.states then Some(e.states[key]) else None
  }

  function Put(e: Engine, key: SeriesKey, copy: Option<PolicyState>, t: Tables): Engine {
    Engine(if copy.Some? then e.states[key := copy.value] else e.states, e.db[key.series := t])
  }

  function ReportStep(
    cfg: Config, e: Engine, key: SeriesKey, f: Finding, insertFails: bool, faults: ApplyFaults): Engine
  {
    var r := Report(cfg, CopyOf(e, key), TablesOf(e.db, key.series), f, insertFails, faults);
    Put(e, key, r.copy, r.tables)
  }

  /** Rows the sweep loads: not clean, and no state under the key without a probe type. */
  predicate Loads(e: Engine, series: SeriesId) {
    && series in e.db && e.db[series].row.Some? && !e.db[series].row.value.status.Clean?
    && SeriesKey("", series) !in e.states
  }

  function Hydrate(e: Engine): Engine {
    var loaded := set series | series in e.db && Loads(e, series) :: SeriesKey("", series);
    e.(states := map key | key in e.states.Keys + loaded ::
      if key in e.states then e.states[key] else FromRow(e.db[key.series].row.value))
  }

  datatype SweepFaults = SweepFaults(list: bool, close: set<SeriesKey>, save: set<SeriesKey>)

  function VisitKey(cfg: Config, e: Engine, key: SeriesKey, now: real, faults: SweepFaults): Visit
    requires key in e.states
  {
    SweepVisit(cfg, e.states[key], TablesOf(e.db, key.series), now, key in faults.close, key in faults.save)
  }

  /** Go visits the keys in an unspecified order and gives up at the first event it cannot close. */
  function SweepKeys(cfg: Config, e: Engine, order: seq<SeriesKey>, now: real, faults: SweepFaults): Engine
    requires forall i :: 0 <= i < |order| ==> order[i] in e.states
    decreases |order|
  {
    if order == [] then e
    else
      var v := VisitKey(cfg, e, order[0], now, faults);
      var next := Put(e, order[0], Some(v.state), v.tables);
      if v.aborted then next
      else
        assert forall i :: 0 <= i < |order[1..]| ==> order[1..][i] == order[i + 1];
        SweepKeys(cfg, next, order[1..], now, faults)
  }

  ghost predicate Enumerates(order: seq<SeriesKey>, keys: set<SeriesKey>) {
    && (forall i :: 0 <= i < |order| ==> order[i] in keys)
    && (forall key :: key in keys ==> key in order)
    && forall i, j :: 0 <= i < j < |order| ==> order[i] != order[j]
  }
}
