/**
 A monitor is one detector watching one metric of a series: a state, and a cursor holding the time of
 the last sample in that state. Folding a batch skips the samples at or before the cursor, and the
 samples that cannot be read (services/argus/worker.go).

 `step` is the metric's extractor followed by its detector. What the detector keeps (`S`), what it
 reads (`R`) and what it reports (`F`) do not matter here.
 */
module MonitorFold {
  import opened Options

  datatype Sample<R> = Sample(ts: real, row: R)

  datatype Outcome<S, F> = Failed | Stepped(next: S, finding: Option<F>)

  datatype Monitor<S> = Monitor(state: S, cursor: real)

  datatype Reported<F> = Reported(ts: real, finding: F)

  function FoldOne<S, R, F>(step: (S, real, R) -> Outcome<S, F>, m: Monitor<S>, r: Sample<R>): Monitor<S> {
    if r.ts <= m.cursor then m
    else
      match step(m.state, r.ts, r.row)
      case Failed => m
      case Stepped(next, _) => Monitor(next, r.ts)
  }

  function ReportsOf<S, R, F>(step: (S, real, R) -> Outcome<S, F>, m: Monitor<S>, r: Sample<R>): seq<Reported<F>> {
    if r.ts <= m.cursor then []
    else
      match step(m.state, r.ts, r.row)
      case Failed => []
      case Stepped(_, finding) => if finding.Some? then [Reported(r.ts, finding.value)] else []
  }

  /** One sample at a time, in order. */
  function Fold<S, R, F>(step: (S, real, R) -> Outcome<S, F>, m: Monitor<S>, rows: seq<Sample<R>>): Monitor<S> {
    if rows == [] then m
    else FoldOne(step, Fold(step, m, rows[..|rows| - 1]), rows[|rows| - 1])
  }

  function Reports<S, R, F>(
    step: (S, real, R) -> Outcome<S, F>, m: Monitor<S>, rows: seq<Sample<R>>): seq<Reported<F>>
  {
    if rows == [] then []
    else
      var before := rows[..|rows| - 1];
      Reports(step, m, before) + ReportsOf(step, Fold(step, m, before), rows[|rows| - 1])
  }

  lemma DropLast<T>(a: seq<T>, x: T)
    ensures (a + [x])[..|a + [x]| - 1] == a && (a + [x])[|a + [x]| - 1] == x
  {
  }

  lemma FoldAppends<S, R, F>(
    step: (S, real, R) -> Outcome<S, F>, m: Monitor<S>, rows: seq<Sample<R>>, r: Sample<R>)
    ensures Fold(step, m, rows + [r]) == FoldOne(step, Fold(step, m, rows), r)
    ensures Reports(step, m, rows + [r]) == Reports(step, m, rows) + ReportsOf(step, Fold(step, m, rows), r)
  {
    DropLast(rows, r);
  }

  /** Any split of the samples into batches gives the same monitor. */
  lemma {:induction false} FoldSplits<S, R, F>(
    step: (S, real, R) -> Outcome<S, F>, m: Monitor<S>, a: seq<Sample<R>>, b: seq<Sample<R>>)
    ensures Fold(step, m, a + b) == Fold(step, Fold(step, m, a), b)
    decreases |b|
  {
    if b == [] {
      assert a + b == a;
    } else {
      var b' := b[..|b| - 1];
      assert a + b == (a + b') + [b[|b| - 1]];
      FoldAppends(step, m, a + b', b[|b| - 1]);
      FoldSplits(step, m, a, b');
    }
  }

  lemma {:induction false} CursorNeverFallsBack<S, R, F>(
    step: (S, real, R) -> Outcome<S, F>, m: Monitor<S>, rows: seq<Sample<R>>)
    ensures Fold(step, m, rows).cursor >= m.cursor
    ensures Fold(step, m, rows).cursor == m.cursor ==> Fold(step, m, rows) == m
  {
    if rows != [] {
      CursorNeverFallsBack(step, m, rows[..|rows| - 1]);
    }
  }

  // ------------------------------------------------------------- at most once

  ghost predicate Increasing<R>(rows: seq<Sample<R>>) {
    forall i, j :: 0 <= i < j < |rows| ==> rows[i].ts < rows[j].ts
  }

  /** The detector alone, with no cursor: every sample counts, and none may be refused. */
  function StepAll<S, R, F>(
    step: (S, real, R) -> Outcome<S, F>, m: Monitor<S>, rows: seq<Sample<R>>): Option<Monitor<S>>
  {
    if rows == [] then Some(m)
    else
      var before := StepAll(step, m, rows[..|rows| - 1]);
      var last := rows[|rows| - 1];
      if before.None? then None
      else
        match step(before.value.state, last.ts, last.row)
        case Failed => None
        case Stepped(next, _) => Some(Monitor(next, last.ts))
  }

  /** The samples that entered `m'`, all later than `m`, each later than the one before. */
  ghost predicate Entered<S, R, F>(
    step: (S, real, R) -> Outcome<S, F>, m: Monitor<S>, rows: seq<Sample<R>>, m': Monitor<S>)
  {
    && StepAll(step, m, rows) == Some(m')
    && Increasing(rows)
    && m'.cursor == (if rows == [] then m.cursor else rows[|rows| - 1].ts)
    && (rows != [] ==> m.cursor < rows[0].ts)
  }

  lemma NoneEntered<S, R, F>(step: (S, real, R) -> Outcome<S, F>, m: Monitor<S>)
    ensures Entered(step, m, [], m)
  {
  }

  lemma LastIsLatest<R>(rows: seq<Sample<R>>)
    requires Increasing(rows)
    ensures forall i :: 0 <= i < |rows| ==> rows[i].ts <= rows[|rows| - 1].ts
  {
  }

  lemma OneMoreEnters<S, R, F>(
    step: (S, real, R) -> Outcome<S, F>, m: Monitor<S>, rows: seq<Sample<R>>, m': Monitor<S>, r: Sample<R>)
    returns (rows': seq<Sample<R>>)
    requires Entered(step, m, rows, m')
    ensures Entered(step, m, rows', FoldOne(step, m', r))
    ensures rows' == rows || rows' == rows + [r]
  {
    if r.ts > m'.cursor && step(m'.state, r.ts, r.row).Stepped? {
      DropLast(rows, r);
      LastIsLatest(rows);
      rows' := rows + [r];
    } else {
      rows' := rows;
    }
  }

  /** A fold never reports twice for one time, nor for a time at or before its cursor. */
  ghost predicate Ordered<F>(reports: seq<Reported<F>>, after: real, upTo: real) {
    && (forall i :: 0 <= i < |reports| ==> after < reports[i].ts <= upTo)
    && forall i, j :: 0 <= i < j < |reports| ==> reports[i].ts < reports[j].ts
  }

  lemma {:induction false} ReportsAreOrdered<S, R, F>(
    step: (S, real, R) -> Outcome<S, F>, m: Monitor<S>, rows: seq<Sample<R>>)
    ensures Ordered(Reports(step, m, rows), m.cursor, Fold(step, m, rows).cursor)
  {
    if rows != [] {
      ReportsAreOrdered(step, m, rows[..|rows| - 1]);
      CursorNeverFallsBack(step, m, rows[..|rows| - 1]);
    }
  }

  /** The monitor takes this sample, and the detector reports it. */
  ghost predicate Raises<S, R, F>(
    step: (S, real, R) -> Outcome<S, F>, m: Monitor<S>, r: Sample<R>, ts: real, finding: F)
  {
    && r.ts == ts && m.cursor < ts
    && step(m.state, ts, r.row).Stepped? && step(m.state, ts, r.row).finding == Some(finding)
  }

  lemma RaisesOne<S, R, F>(
    step: (S, real, R) -> Outcome<S, F>, m: Monitor<S>, r: Sample<R>, ts: real, finding: F)
    ensures Reported(ts, finding) in ReportsOf(step, m, r) <==> Raises(step, m, r, ts, finding)
  {
  }

  /** What is reported is exactly what the detector finds at the samples that enter the monitor, each judged
      by the state that the samples before it left. */
  lemma {:induction false} ReportedIff<S, R, F>(
    step: (S, real, R) -> Outcome<S, F>, m: Monitor<S>, rows: seq<Sample<R>>, ts: real, finding: F)
    ensures Reported(ts, finding) in Reports(step, m, rows) <==>
      exists i :: 0 <= i < |rows| && Raises(step, Fold(step, m, rows[..i]), rows[i], ts, finding)
  {
    hide Raises, ReportsOf, Fold;
    if rows != [] {
      var n := |rows| - 1;
      ReportedIff(step, m, rows[..n], ts, finding);
      RaisesOne(step, Fold(step, m, rows[..n]), rows[n], ts, finding);
      assert forall i :: 0 <= i <= n ==> rows[..n][..i] == rows[..i];
      if i :| 0 <= i < |rows| && Raises(step, Fold(step, m, rows[..i]), rows[i], ts, finding) {
        assert i < n ==> Raises(step, Fold(step, m, rows[..n][..i]), rows[..n][i], ts, finding);
      }
    }
  }

  // ------------------------------------------------------------- redelivery

  /** Whether a sample can be folded does not depend on the state: the extractor reads the row only,
      and a detector refuses only values of the wrong type. */
  ghost predicate FailsByRow<S(!new), R(!new), F>(step: (S, real, R) -> Outcome<S, F>) {
    forall s, s', ts, row :: step(s, ts, row).Failed? ==> step(s', ts, row).Failed?
  }

  /** A sample the monitor would skip or cannot read. */
  ghost predicate Settled<S, R, F>(step: (S, real, R) -> Outcome<S, F>, m: Monitor<S>, r: Sample<R>) {
    r.ts <= m.cursor || step(m.state, r.ts, r.row).Failed?
  }

  lemma FoldingSettles<S(!new), R(!new), F>(
    step: (S, real, R) -> Outcome<S, F>, m: Monitor<S>, r: Sample<R>, next: Sample<R>)
    requires FailsByRow(step)
    ensures Settled(step, FoldOne(step, m, next), next)
    ensures Settled(step, m, r) ==> Settled(step, FoldOne(step, m, next), r)
  {
  }

  /** Every sample of a folded sequence is settled, whatever the order it came in. */
  lemma {:induction false} FoldSettlesAll<S(!new), R(!new), F>(
    step: (S, real, R) -> Outcome<S, F>, m: Monitor<S>, rows: seq<Sample<R>>, i: nat)
    requires FailsByRow(step) && i < |rows|
    ensures Settled(step, Fold(step, m, rows), rows[i])
  {
    var n := |rows| - 1;
    if i < n {
      FoldSettlesAll(step, m, rows[..n], i);
    }
    FoldingSettles(step, Fold(step, m, rows[..n]), rows[i], rows[n]);
  }

  /** What is settled stays settled. */
  lemma {:induction false} SettledStays<S(!new), R(!new), F>(
    step: (S, real, R) -> Outcome<S, F>, m: Monitor<S>, rows: seq<Sample<R>>, r: Sample<R>)
    requires FailsByRow(step) && Settled(step, m, r)
    ensures Settled(step, Fold(step, m, rows), r)
  {
    hide FailsByRow, Settled;
    if rows != [] {
      SettledStays(step, m, rows[..|rows| - 1], r);
      FoldingSettles(step, Fold(step, m, rows[..|rows| - 1]), r, rows[|rows| - 1]);
    }
  }

  /** Settled samples change nothing. */
  lemma {:induction false} SettledChangeNothing<S, R, F>(
    step: (S, real, R) -> Outcome<S, F>, m: Monitor<S>, rows: seq<Sample<R>>)
    requires forall i :: 0 <= i < |rows| ==> Settled(step, m, rows[i])
    ensures Fold(step, m, rows) == m
  {
    if rows != [] {
      SettledChangeNothing(step, m, rows[..|rows| - 1]);
    }
  }

  /** Folding again anything that was folded before changes nothing. */
  lemma {:induction false} RedeliveryIsAbsorbed<S(!new), R(!new), F>(
    step: (S, real, R) -> Outcome<S, F>, m: Monitor<S>, rows: seq<Sample<R>>, again: seq<Sample<R>>)
    requires FailsByRow(step)
    requires forall i :: 0 <= i < |again| ==> again[i] in rows
    ensures Fold(step, Fold(step, m, rows), again) == Fold(step, m, rows)
    decreases |again|
  {
    if again != [] {
      var n := |again| - 1;
      RedeliveryIsAbsorbed(step, m, rows, again[..n]);
      var i :| 0 <= i < |rows| && rows[i] == again[n];
      FoldSettlesAll(step, m, rows, i);
    }
  }

  // ------------------------------------------------------------- the worker

  /** A live monitor, owned by the one worker of its series. */
  class LiveMonitor<S> {
    var state: S
    var cursor: real

    function View(): Monitor<S>
      reads this
    {
      Monitor(state, cursor)
    }

    constructor (baseline: Monitor<S>)
      ensures View() == baseline
    {
      state, cursor := baseline.state, baseline.cursor;
    }

    /** Advances the monitor over the batch and returns the findings and the stored row after it: the
        new monitor if a sample was folded and the save succeeded, else the row there was. */
    method FoldBatch<R, F>(
      step: (S, real, R) -> Outcome<S, F>, rows: seq<Sample<R>>, stored: Monitor<S>, saveFails: bool)
      returns (reports: seq<Reported<F>>, stored': Monitor<S>)
      modifies this
      ensures View() == Fold(step, old(View()), rows)
      ensures reports == Reports(step, old(View()), rows)
      ensures stored' == if saveFails || View() == old(View()) then stored else View()
    {
      var start := cursor;
      reports := [];
      var i := 0;
      while i < |rows|
        invariant 0 <= i <= |rows|
        invariant View() == Fold(step, old(View()), rows[..i])
        invariant reports == Reports(step, old(View()), rows[..i])
      {
        var r := rows[i];
        assert rows[..i + 1] == rows[..i] + [r];
        FoldAppends(step, old(View()), rows[..i], r);
        i := i + 1;
        if r.ts <= cursor {
          continue;
        }
        var outcome := step(state, r.ts, r.row);
        if outcome.Failed? {
          continue;
        }
        state, cursor := outcome.next, r.ts;
        if outcome.finding.Some? {
          reports := reports + [Reported(r.ts, outcome.finding.value)];
        }
      }
      assert rows[..|rows|] == rows;
      CursorNeverFallsBack(step, old(View()), rows);
      stored' := stored;
      if cursor > start && !saveFails {
        stored' := View();
      }
    }
  }
}
