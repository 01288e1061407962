/**
 The policy engine as the object it is (services/argus/policy_engine.go): a map of live states
 updated in place next to the database tables. Every method is proved equal to its function in
 PolicyModel. Callers hold the engine's mutex, so each call is one atomic step.
 */
module PolicyEngineObject {
  import opened Options
  import opened LeakyBucket
  import opened PolicyModel

  method FindPeak(pending: seq<Pending>, trigger: real) returns (peak: real)
    ensures peak == PeakSeverity(pending, trigger)
  {
    peak := trigger;
    for i := 0 to |pending|
      invariant peak == PeakSeverity(pending[..i], trigger)
    {
      assert pending[..i + 1][..i] == pending[..i];
      if pending[i].severity.Some? && pending[i].severity.value > peak {
        peak := pending[i].severity.value;
      }
    }
    assert pending[..|pending|] == pending;
  }

  /** Attaches the pending findings one by one; false when one of the updates fails. */
  method AttachPending(findings: seq<FindingRow>, pending: seq<Pending>, event: nat, fault: TxFault)
    returns (ok: bool, r: seq<FindingRow>)
    ensures ok == !(fault.AtAttach? && fault.index < |pending|)
    ensures ok ==> r == AttachAll(findings, pending, event)
  {
    r := findings;
    for i := 0 to |pending|
      invariant !(fault.AtAttach? && fault.index < i)
      invariant r == AttachAll(findings, pending[..i], event)
    {
      if fault == AtAttach(i) {
        return false, r;
      }
      assert pending[..i + 1][..i] == pending[..i];
      r := Attach(r, pending[i].id, event);
    }
    assert pending[..|pending|] == pending;
    return true, r;
  }

  /** Opens an event and attaches every pending finding, or leaves the tables untouched. */
  method OpenEvent(s: PolicyState, t: Tables, f: Finding, fault: TxFault)
    returns (ok: bool, s': PolicyState, t': Tables)
    ensures ok == !Aborts(fault, |s.pending|)
    ensures !ok ==> s' == s && t' == t
    ensures ok ==> s' == OpenState(s, t, f) && t' == OpenTables(s, t, f)
  {
    ok, s', t' := false, s, t;
    var peak := FindPeak(s.pending, f.severity);
    if fault == AtOpen {
      return;
    }
    var event := |t.events|;
    var tx := t.(events := t.events + [Event(f.ts, None, |s.pending|, peak)]);
    var attached, findings := AttachPending(tx.findings, s.pending, event, fault);
    if !attached || fault == AtCommit {
      return;
    }
    ok := true;
    t' := tx.(findings := findings);
    s' := s.(status := Firing, openEvent := Some(event), pending := [], since := f.ts);
  }

  method SaveState(s: PolicyState, t: Tables, fails: bool) returns (ok: bool, t': Tables)
    ensures ok == !fails && t' == Save(s, t, fails).tables
  {
    var ids := [];
    for i := 0 to |s.pending|
      invariant ids == Ids(s.pending)[..i]
    {
      ids := ids + [s.pending[i].id];
    }
    assert ids == Ids(s.pending);
    ok := !fails;
    t' := if fails then t else t.(row := Some(Row(s.status, s.since, s.bucket, s.openEvent, ids)));
  }

  /** The body of ApplyFinding once the state is in memory. */
  method ApplyToState(cfg: Config, s0: PolicyState, t0: Tables, f: Finding, id: nat, faults: ApplyFaults)
    returns (ok: bool, s: PolicyState, t: Tables)
    ensures Effect(Some(s), t, ok) == ApplyLoaded(cfg, s0, t0, f, id, faults)
  {
    var u := Add(cfg.bucket, s0.bucket, f.severity, f.ts);
    s, t := s0.(bucket := u.newState), t0;
    match s.status {
      case Clean =>
        s := s.(status := Watching, since := f.ts, pending := [Pending(id, Some(f.severity))]);
        if u.crossedOpen {
          ok, s, t := OpenEvent(s, t, f, faults.tx);
          if !ok {
            return;
          }
        }
      case Watching =>
        s := s.(pending := s.pending + [Pending(id, Some(f.severity))]);
        if u.crossedOpen {
          ok, s, t := OpenEvent(s, t, f, faults.tx);
          if !ok {
            return;
          }
        }
      case Firing =>
        if s.openEvent.None? || faults.attach {
          ok := false;
          return;
        }
        t := t.(findings := Attach(t.findings, id, s.openEvent.value));
      case Recovering =>
        if s.openEvent.None? || faults.attach {
          ok := false;
          return;
        }
        t := t.(findings := Attach(t.findings, id, s.openEvent.value));
        s := s.(status := Firing, since := f.ts);
    }
    ok, t := SaveState(s, t, faults.save);
  }

  /** The body of the sweep loop; `go` is false when the event could not be closed. */
  method SweepState(cfg: Config, s0: PolicyState, t0: Tables, now: real, closeFails: bool, saveFails: bool)
    returns (go: bool, s: PolicyState, t: Tables)
    ensures Visit(s, t, !go) == SweepVisit(cfg, s0, t0, now, closeFails, saveFails)
  {
    var u := Decay(cfg.bucket, s0.bucket, now);
    s, t := s0.(bucket := u.newState), t0;
    match s.status {
      case Clean =>
      case Watching =>
        if now - s.since > cfg.confirmWindow {
          s := s.(status := Clean, pending := [], since := now, bucket := BucketState(0.0, now));
        }
      case Firing =>
        if u.crossedClose {
          s := s.(status := Recovering, since := now);
        }
      case Recovering =>
        if now - s.since > cfg.quietPeriod && s.openEvent.Some? {
          if closeFails {
            go := false;
            return;
          }
          t := t.(events := CloseEvent(t.events, s.openEvent.value, now));
          s := s.(status := Clean, openEvent := None, pending := [], since := now);
        }
    }
    go, t := SaveState(s, t, saveFails);
    go := true;
  }

  // ------------------------------------------------ composing sweep visits

  /** No visit in this order ends the sweep. */
  ghost predicate Unstopped(cfg: Config, e: Engine, order: seq<SeriesKey>, now: real, faults: SweepFaults)
    requires forall i :: 0 <= i < |order| ==> order[i] in e.states
    decreases |order|
  {
    order == [] ||
    var v := VisitKey(cfg, e, order[0], now, faults);
    assert forall i :: 0 <= i < |order[1..]| ==> order[1..][i] == order[i + 1];
    !v.aborted && Unstopped(cfg, Put(e, order[0], Some(v.state), v.tables), order[1..], now, faults)
  }

  lemma {:induction false} SweepKeepsKeys(cfg: Config, e: Engine, order: seq<SeriesKey>, now: real, faults: SweepFaults)
    requires forall i :: 0 <= i < |order| ==> order[i] in e.states
    ensures SweepKeys(cfg, e, order, now, faults).states.Keys == e.states.Keys
    decreases |order|
  {
    if order != [] {
      var v := VisitKey(cfg, e, order[0], now, faults);
      var next := Put(e, order[0], Some(v.state), v.tables);
      assert next.states.Keys == e.states.Keys;
      if !v.aborted {
        assert forall i :: 0 <= i < |order[1..]| ==> order[1..][i] == order[i + 1];
        SweepKeepsKeys(cfg, next, order[1..], now, faults);
      }
    }
  }

  lemma {:induction false} SweepOneMore(
    cfg: Config, e: Engine, order: seq<SeriesKey>, key: SeriesKey, now: real, faults: SweepFaults)
    requires forall i :: 0 <= i < |order| ==> order[i] in e.states
    requires key in e.states && Unstopped(cfg, e, order, now, faults)
    ensures
      var mid := SweepKeys(cfg, e, order, now, faults);
      key in mid.states &&
      var v := VisitKey(cfg, mid, key, now, faults);
      && SweepKeys(cfg, e, order + [key], now, faults) == Put(mid, key, Some(v.state), v.tables)
      && (!v.aborted <==> Unstopped(cfg, e, order + [key], now, faults))
    decreases |order|
  {
    SweepKeepsKeys(cfg, e, order, now, faults);
    if order == [] {
      assert order + [key] == [key] && [key][1..] == [];
    } else {
      var v := VisitKey(cfg, e, order[0], now, faults);
      var next := Put(e, order[0], Some(v.state), v.tables);
      assert (order + [key])[1..] == order[1..] + [key];
      SweepOneMore(cfg, next, order[1..], key, now, faults);
    }
  }

  lemma {:induction false} StoppedForGood(
    cfg: Config, e: Engine, order: seq<SeriesKey>, rest: seq<SeriesKey>, now: real, faults: SweepFaults)
    requires forall i :: 0 <= i < |order| ==> order[i] in e.states
    requires forall i :: 0 <= i < |rest| ==> rest[i] in e.states
    requires !Unstopped(cfg, e, order, now, faults)
    ensures SweepKeys(cfg, e, order + rest, now, faults) == SweepKeys(cfg, e, order, now, faults)
    decreases |order|
  {
    var v := VisitKey(cfg, e, order[0], now, faults);
    if !v.aborted {
      assert (order + rest)[1..] == order[1..] + rest;
      StoppedForGood(cfg, Put(e, order[0], Some(v.state), v.tables), order[1..], rest, now, faults);
    }
  }

  lemma EnumeratesOneMore(order: seq<SeriesKey>, keys: set<SeriesKey>, key: SeriesKey)
    requires Enumerates(order, keys) && key !in keys
    ensures Enumerates(order + [key], keys + {key})
  {
  }

  lemma EnumeratesBoth(order: seq<SeriesKey>, keys: set<SeriesKey>, rest: seq<SeriesKey>, more: set<SeriesKey>)
    requires Enumerates(order, keys) && Enumerates(rest, more) && keys !! more
    ensures Enumerates(order + rest, keys + more)
  {
  }

  ghost function Listing(keys: set<SeriesKey>): (order: seq<SeriesKey>)
    ensures Enumerates(order, keys)
  {
    if keys == {} then [] else
    var key :| key in keys;
    [key] + Listing(keys - {key})
  }

  ghost function Visited(cfg: Config, e: Engine, key: SeriesKey, now: real, faults: SweepFaults): Engine
    requires key in e.states
  {
    var v := VisitKey(cfg, e, key, now, faults);
    Put(e, key, Some(v.state), v.tables)
  }

  /** The loop has visited `order`, still has `todo` before it, and the engine is in state `now`. */
  ghost predicate Progress(
    cfg: Config, start: Engine, order: seq<SeriesKey>, todo: set<SeriesKey>, now: real, faults: SweepFaults,
    current: Engine)
  {
    && todo <= start.states.Keys == current.states.Keys
    && Enumerates(order, start.states.Keys - todo)
    && Unstopped(cfg, start, order, now, faults)
    && current == SweepKeys(cfg, start, order, now, faults)
  }

  lemma NothingSwept(cfg: Config, start: Engine, now: real, faults: SweepFaults)
    ensures Progress(cfg, start, [], start.states.Keys, now, faults, start)
  {
  }

  lemma SweepAdvances(
    cfg: Config, start: Engine, order: seq<SeriesKey>, todo: set<SeriesKey>, key: SeriesKey, now: real,
    faults: SweepFaults, current: Engine)
    requires key in todo && Progress(cfg, start, order, todo, now, faults, current)
    requires !VisitKey(cfg, current, key, now, faults).aborted
    ensures Progress(cfg, start, order + [key], todo - {key}, now, faults, Visited(cfg, current, key, now, faults))
  {
    hide SweepVisit, TablesOf;
    SweepOneMore(cfg, start, order, key, now, faults);
    EnumeratesOneMore(order, start.states.Keys - todo, key);
    assert start.states.Keys - (todo - {key}) == start.states.Keys - todo + {key};
    assert Visited(cfg, current, key, now, faults).states.Keys == start.states.Keys;
  }

  lemma SweepStops(
    cfg: Config, start: Engine, order: seq<SeriesKey>, todo: set<SeriesKey>, key: SeriesKey, now: real,
    faults: SweepFaults, current: Engine) returns (full: seq<SeriesKey>)
    requires key in todo && Progress(cfg, start, order, todo, now, faults, current)
    requires VisitKey(cfg, current, key, now, faults).aborted
    ensures Enumerates(full, start.states.Keys)
    ensures SweepKeys(cfg, start, full, now, faults) == Visited(cfg, current, key, now, faults)
  {
    hide SweepVisit, TablesOf;
    SweepOneMore(cfg, start, order, key, now, faults);
    var rest := Listing(todo - {key});
    EnumeratesOneMore(order, start.states.Keys - todo, key);
    EnumeratesBoth(order + [key], start.states.Keys - todo + {key}, rest, todo - {key});
    StoppedForGood(cfg, start, order + [key], rest, now, faults);
    full := order + [key] + rest;
    assert start.states.Keys - todo + {key} + (todo - {key}) == start.states.Keys;
  }

  // ---------------------------------------------------------- loading the rows

  /** The rows of these series have been loaded into the states of `e`. */
  ghost predicate HydratedBy(e: Engine, done: set<SeriesId>, states: map<SeriesKey, PolicyState>) {
    && states.Keys == e.states.Keys + (set series | series in done && Loads(e, series) :: SeriesKey("", series))
    && (forall key :: key in e.states ==> states[key] == e.states[key])
    && (forall series :: series in done && Loads(e, series) ==>
          states[SeriesKey("", series)] == FromRow(e.db[series].row.value))
  }

  lemma NoneHydrated(e: Engine)
    ensures HydratedBy(e, {}, e.states)
  {
  }

  lemma HydratesOneMore(e: Engine, done: set<SeriesId>, states: map<SeriesKey, PolicyState>, series: SeriesId)
    requires HydratedBy(e, done, states) && series !in done
    requires series in e.db && e.db[series].row.Some? && !e.db[series].row.value.status.Clean?
    ensures
      var key := SeriesKey("", series);
      HydratedBy(e, done + {series},
                 if key in states then states else states[key := FromRow(e.db[series].row.value)])
  {
    hide FromRow;
    var key := SeriesKey("", series);
    assert key in states <==> key in e.states;
    var states' := if key in states then states else states[key := FromRow(e.db[series].row.value)];
    assert states'.Keys == states.Keys + {key};
  }

  lemma AllHydrated(e: Engine, done: set<SeriesId>, states: map<SeriesKey, PolicyState>)
    requires HydratedBy(e, done, states)
    requires forall series :: series in e.db && Loads(e, series) ==> series in done
    ensures Engine(states, e.db) == Hydrate(e)
  {
    hide FromRow;
    var all := set series | series in e.db && Loads(e, series) :: SeriesKey("", series);
    assert all == set series | series in done && Loads(e, series) :: SeriesKey("", series);
  }

  class PolicyEngine {
    const cfg: Config
    var states: map<SeriesKey, PolicyState>
    var db: map<SeriesId, Tables>

    constructor (cfg: Config, db: map<SeriesId, Tables>)
      ensures this.cfg == cfg && states == map[] && this.db == db
    {
      this.cfg := cfg;
      states := map[];
      this.db := db;
    }

    function View(): Engine
      reads this
    {
      Engine(states, db)
    }

    /** The worker's report: insert the finding, then apply it unless the insert gave no id. */
    method Report(key: SeriesKey, f: Finding, insertFails: bool, faults: ApplyFaults) returns (ok: bool)
      modifies this
      ensures states == ReportStep(cfg, old(View()), key, f, insertFails, faults).states
      ensures db == ReportStep(cfg, old(View()), key, f, insertFails, faults).db
    {
      hide PolicyModel.ApplyFinding;
      var t := TablesOf(db, key.series);
      db := db[key.series := t];
      if insertFails || Conflicts(t, f.ts) {
        return false;
      }
      t := InsertFinding(t, f);
      ok := ApplyFinding(key, t, f, |t.findings| - 1, faults);
    }

    method ApplyFinding(key: SeriesKey, t: Tables, f: Finding, id: nat, faults: ApplyFaults) returns (ok: bool)
      modifies this
      ensures
        var r := PolicyModel.ApplyFinding(cfg, CopyOf(old(View()), key), t, f, id, faults);
        && ok == r.ok
        && states == (if r.copy.Some? then old(states)[key := r.copy.value] else old(states))
        && db == old(db)[key.series := r.tables]
    {
      var s;
      if key in states {
        s := states[key];
      } else if faults.load {
        db := db[key.series := t];
        return false;
      } else {
        s := if t.row.Some? then FromRow(t.row.value) else FRESH;
      }
      var t';
      ok, s, t' := ApplyToState(cfg, s, t, f, id, faults);
      states := states[key := s];
      db := db[key.series := t'];
    }

    /** Loads the rows that are not clean, in whatever order the query lists them. */
    method LoadRows()
      modifies this`states
      ensures View() == Hydrate(old(View()))
    {
      var listed := set series | series in db && db[series].row.Some? && !db[series].row.value.status.Clean?;
      var todo := listed;
      ghost var done: set<SeriesId>, start := {}, View();
      NoneHydrated(start);
      while todo != {}
        invariant todo <= listed && done == listed - todo
        invariant HydratedBy(start, done, states)
        decreases todo
      {
        hide HydratedBy;
        var series :| series in todo;
        var key := SeriesKey("", series);
        HydratesOneMore(start, done, states, series);
        if key !in states {
          states := states[key := FromRow(db[series].row.value)];
        }
        todo := todo - {series};
        done := done + {series};
      }
      AllHydrated(start, done, states);
    }

    method VisitState(key: SeriesKey, now: real, faults: SweepFaults) returns (go: bool)
      requires key in states
      modifies this
      ensures
        var v := VisitKey(cfg, old(View()), key, now, faults);
        go == !v.aborted && View() == Put(old(View()), key, Some(v.state), v.tables)
    {
      var s, t;
      go, s, t := SweepState(cfg, states[key], TablesOf(db, key.series), now, key in faults.close, key in faults.save);
      states := states[key := s];
      db := db[key.series := t];
    }

    /** The result is that of visiting the loaded states in some order. */
    method Sweep(now: real, faults: SweepFaults) returns (ghost order: seq<SeriesKey>)
      modifies this
      ensures faults.list ==> View() == old(View())
      ensures !faults.list ==>
        && Enumerates(order, Hydrate(old(View())).states.Keys)
        && View() == SweepKeys(cfg, Hydrate(old(View())), order, now, faults)
    {
      order := [];
      if faults.list {
        return;
      }
      LoadRows();
      ghost var start := View();
      var todo := states.Keys;
      NothingSwept(cfg, start, now, faults);
      while todo != {}
        invariant todo <= states.Keys
        invariant Progress(cfg, start, order, todo, now, faults, View())
        decreases todo
      {
        var key :| key in todo;
        ghost var before := View();
        var go := VisitState(key, now, faults);
        assert View() == Visited(cfg, before, key, now, faults);
        if !go {
          order := SweepStops(cfg, start, order, todo, key, now, faults, before);
          return;
        }
        SweepAdvances(cfg, start, order, todo, key, now, faults, before);
        order := order + [key];
        todo := todo - {key};
      }
      assert start.states.Keys - todo == start.states.Keys;
    }
  }
}
