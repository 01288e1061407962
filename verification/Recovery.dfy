/**
 What is stored of a monitor, whatever crashes and fails (services/argus/worker.go): each sample enters the
 row at most once, deliveries in order bring the row to the baseline of an undisturbed run, and the row lags
 behind its monitor exactly if an acknowledged sample is missing from it.
 */
module Recovery {
  import opened Sequences
  import opened MonitorFold
  import opened Routing

  predicate RoutedTo<R>(log: seq<Message<R>>, series: Series, j: nat) {
    j < |log| && RouteOf(log[j]).Accepted? && RouteOf(log[j]).series == series
  }

  ghost predicate FromLog<R>(log: seq<Message<R>>, series: Series, item: Item<R>) {
    RoutedTo(log, series, item.msg) && RouteOf(log[item.msg]).sample == item.sample
  }

  lemma {:induction false} DeliveredIsFromLog<S, R, F>(
    setup: Setup<S, R, F>, rows: map<BaselineKey, Monitor<S>>, series: Series, metric: Metric, steps: seq<Step>)
    ensures forall i :: 0 <= i < |EpochAfter(setup, rows, series, metric, steps).delivered| ==>
      FromLog(setup.log, series, EpochAfter(setup, rows, series, metric, steps).delivered[i])
  {
    hide Next, RowFor;
    if steps != [] {
      DeliveredIsFromLog(setup, rows, series, metric, steps[..|steps| - 1]);
    }
  }

  // ------------------------------------------------------------ at most once

  ghost predicate InLog<R>(log: seq<Message<R>>, series: Series, sample: Sample<R>) {
    exists j: nat :: RoutedTo(log, series, j) && RouteOf(log[j]).sample == sample
  }

  ghost predicate AllInLog<R>(log: seq<Message<R>>, series: Series, samples: seq<Sample<R>>) {
    forall i :: 0 <= i < |samples| ==> InLog(log, series, samples[i])
  }

  /** The monitor is the initial row with samples of its series entered into it, no two of them for the
      same time and none for a time the initial row had covered. */
  ghost predicate Once<S, R(!new), F>(
    setup: Setup<S, R, F>, series: Series, metric: Metric, initial: Monitor<S>, m: Monitor<S>)
  {
    exists entered: seq<Sample<R>> ::
      Entered(setup.detect(metric), initial, entered, m)
      && AllInLog(setup.log, series, entered)
  }

  lemma OneMoreFoldedOnce<S, R(!new), F>(
    setup: Setup<S, R, F>, series: Series, metric: Metric, initial: Monitor<S>, m: Monitor<S>, r: Sample<R>)
    requires Once(setup, series, metric, initial, m) && InLog(setup.log, series, r)
    ensures Once(setup, series, metric, initial, FoldOne(setup.detect(metric), m, r))
  {
    hide InLog, Entered;
    var entered: seq<Sample<R>> :|
      Entered(setup.detect(metric), initial, entered, m) && AllInLog(setup.log, series, entered);
    var entered' := OneMoreEnters(setup.detect(metric), initial, entered, m, r);
    assert AllInLog(setup.log, series, entered');
  }

  lemma {:induction false} FoldedOnce<S, R(!new), F>(
    setup: Setup<S, R, F>, series: Series, metric: Metric, initial: Monitor<S>, m: Monitor<S>, rows: seq<Sample<R>>)
    requires Once(setup, series, metric, initial, m) && AllInLog(setup.log, series, rows)
    ensures Once(setup, series, metric, initial, Fold(setup.detect(metric), m, rows))
  {
    hide InLog, Once;
    if rows != [] {
      FoldedOnce(setup, series, metric, initial, m, rows[..|rows| - 1]);
      OneMoreFoldedOnce(setup, series, metric, initial, Fold(setup.detect(metric), m, rows[..|rows| - 1]),
                        rows[|rows| - 1]);
    }
  }

  lemma SamplesInLog<R>(log: seq<Message<R>>, series: Series, items: seq<Item<R>>, n: nat)
    requires n <= |items| && forall i :: 0 <= i < |items| ==> FromLog(log, series, items[i])
    ensures AllInLog(log, series, Samples(items[..n]))
  {
    forall i | 0 <= i < n ensures InLog(log, series, Samples(items[..n])[i]) {
      assert FromLog(log, series, items[i]);
      assert RoutedTo(log, series, items[i].msg);
    }
  }

  lemma NothingEnteredOnce<S, R(!new), F>(setup: Setup<S, R, F>, series: Series, metric: Metric, initial: Monitor<S>)
    ensures Once(setup, series, metric, initial, initial)
  {
    NoneEntered(setup.detect(metric), initial);
    assert AllInLog<R>(setup.log, series, []);
  }

  lemma StepEntersOnce<S, R(!new), F>(
    setup: Setup<S, R, F>, series: Series, metric: Metric, initial: Monitor<S>, sys: System<S, R>, e: Epoch<S, R>,
    step: Step)
    requires Alone(setup.log, series, metric) && WellRouted(setup.log, sys) && Tracks(setup, series, metric, sys, e)
    requires forall i :: 0 <= i < |e.delivered| ==> FromLog(setup.log, series, e.delivered[i])
    requires Once(setup, series, metric, initial, RowFor(setup.empty, sys.rows, KeyOf(series, metric)))
    requires Once(setup, series, metric, initial, e.base)
    ensures
      var row := RowFor(setup.empty, Next(setup, sys, step).rows, KeyOf(series, metric));
      Once(setup, series, metric, initial, row)
  {
    hide Alone, WellRouted, Fold, Once, FromLog;
    if step.Save? && step.series == series && step.metric == metric
       && series in sys.workers && CanSave(sys.workers[series], metric)
    {
      var w := sys.workers[series];
      var n := |e.delivered| - |Queue(w)| + w.monitors[metric].folded;
      SamplesInLog(setup.log, series, e.delivered, n);
      FoldedOnce(setup, series, metric, initial, e.base, Samples(e.delivered[..n]));
    } else {
      RowStays(setup, series, metric, sys, step);
    }
  }

  /** Over any run, with crashes, failed loads and saves, redelivery and republication in any order:
      each sample of a series enters the series' stored baseline at most once, in order of time. */
  lemma {:induction false} EachSampleEntersOnce<S, R(!new), F>(
    setup: Setup<S, R, F>, rows: map<BaselineKey, Monitor<S>>, series: Series, metric: Metric, steps: seq<Step>)
    requires Alone(setup.log, series, metric) && metric in Registry(series.kind)
    ensures
      var initial := RowFor(setup.empty, rows, KeyOf(series, metric));
      var row := RowFor(setup.empty, After(setup, rows, steps).rows, KeyOf(series, metric));
      && Once(setup, series, metric, initial, row)
      && Once(setup, series, metric, initial, EpochAfter(setup, rows, series, metric, steps).base)
  {
    hide Alone, Registry, Next, RowFor, Once, Fold;
    var initial := RowFor(setup.empty, rows, KeyOf(series, metric));
    if steps == [] {
      NothingEnteredOnce(setup, series, metric, initial);
    } else {
      var before := steps[..|steps| - 1];
      EachSampleEntersOnce(setup, rows, series, metric, before);
      EveryRunTracks(setup, rows, series, metric, before);
      DeliveredIsFromLog(setup, rows, series, metric, before);
      StepEntersOnce(setup, series, metric, initial, After(setup, rows, before),
                     EpochAfter(setup, rows, series, metric, before), steps[|steps| - 1]);
    }
  }

  // ------------------------------------------------------- crash-free baseline

  /** The samples of a series in the log, in order. */
  function Stream<R>(log: seq<Message<R>>, series: Series, upTo: nat): seq<Sample<R>>
    requires upTo <= |log|
  {
    if upTo == 0 then []
    else
      var before := Stream(log, series, upTo - 1);
      if RoutedTo(log, series, upTo - 1) then before + [RouteOf(log[upTo - 1]).sample] else before
  }

  /** The initial baseline with the first `upTo` messages folded in, each once and in order. */
  function CrashFree<S, R, F>(
    setup: Setup<S, R, F>, series: Series, metric: Metric, initial: Monitor<S>, upTo: nat): Monitor<S>
    requires upTo <= |setup.log|
  {
    Fold(setup.detect(metric), initial, Stream(setup.log, series, upTo))
  }

  lemma {:induction false} StreamHas<R>(log: seq<Message<R>>, series: Series, upTo: nat, j: nat)
    requires j < upTo <= |log| && RoutedTo(log, series, j)
    ensures RouteOf(log[j]).sample in Stream(log, series, upTo)
    decreases upTo
  {
    if j < upTo - 1 {
      StreamHas(log, series, upTo - 1, j);
    }
  }

  /** These messages of the series, as far as they are of the series, would not change the baseline. */
  ghost predicate Covers<S, R, F>(
    setup: Setup<S, R, F>, series: Series, metric: Metric, m: Monitor<S>, msgs: set<nat>)
  {
    forall j :: j in msgs && RoutedTo(setup.log, series, j) ==>
      Settled(setup.detect(metric), m, RouteOf(setup.log[j]).sample)
  }

  lemma {:induction false} CrashFreeSkips<S, R, F>(
    setup: Setup<S, R, F>, series: Series, metric: Metric, initial: Monitor<S>, from: nat, upTo: nat)
    requires from <= upTo <= |setup.log|
    requires forall j :: from <= j < upTo && RoutedTo(setup.log, series, j) ==>
      Settled(setup.detect(metric), CrashFree(setup, series, metric, initial, from), RouteOf(setup.log[j]).sample)
    ensures CrashFree(setup, series, metric, initial, upTo) == CrashFree(setup, series, metric, initial, from)
    decreases upTo
  {
    hide RouteOf;
    if from < upTo {
      CrashFreeSkips(setup, series, metric, initial, from, upTo - 1);
      if RoutedTo(setup.log, series, upTo - 1) {
        FoldAppends(setup.detect(metric), initial, Stream(setup.log, series, upTo - 1),
                    RouteOf(setup.log[upTo - 1]).sample);
      }
    }
  }

  lemma CrashFreeHas<S(!new), R(!new), F>(
    setup: Setup<S, R, F>, series: Series, metric: Metric, initial: Monitor<S>, upTo: nat, j: nat)
    requires FailsByRow(setup.detect(metric)) && j < upTo <= |setup.log| && RoutedTo(setup.log, series, j)
    ensures Settled(setup.detect(metric), CrashFree(setup, series, metric, initial, upTo), RouteOf(setup.log[j]).sample)
  {
    hide RouteOf, FailsByRow;
    StreamHas(setup.log, series, upTo, j);
    var rows := Stream(setup.log, series, upTo);
    var i :| 0 <= i < |rows| && rows[i] == RouteOf(setup.log[j]).sample;
    FoldSettlesAll(setup.detect(metric), initial, rows, i);
  }

  /** One past the last message that is below `start` or among the items. */
  function Mark<R>(start: nat, items: seq<Item<R>>): (mark: nat)
    ensures mark >= start
    ensures forall i :: 0 <= i < |items| ==> items[i].msg < mark
  {
    if items == [] then start
    else
      var mark := Mark(start, items[..|items| - 1]);
      var last := items[|items| - 1].msg;
      if last < mark then mark else last + 1
  }

  /** Before an item, every earlier message of the series but those to skip: redelivery may repeat but not
      overtake. */
  ghost predicate InOrder<R>(
    log: seq<Message<R>>, series: Series, start: nat, skip: set<nat>, items: seq<Item<R>>)
  {
    forall n: nat, j: nat :: n < |items| && j < items[n].msg && RoutedTo(log, series, j) ==>
      j < start || j in skip || j in Messages(items[..n])
  }

  lemma MarkBound<R>(log: seq<Message<R>>, series: Series, start: nat, items: seq<Item<R>>)
    requires start <= |log| && forall i :: 0 <= i < |items| ==> FromLog(log, series, items[i])
    ensures Mark(start, items) <= |log|
  {
    hide RouteOf;
    if items != [] {
      MarkBound(log, series, start, items[..|items| - 1]);
    }
  }

  /** A message at or past the mark is the next one of its series, but for those to skip. */
  lemma MarkedIsNext<R>(
    log: seq<Message<R>>, series: Series, start: nat, skip: set<nat>, items: seq<Item<R>>, n: nat)
    requires n < |items| && InOrder(log, series, start, skip, items)
    ensures forall j :: Mark(start, items[..n]) <= j < items[n].msg && RoutedTo(log, series, j) ==> j in skip
  {
    hide RoutedTo;
    forall j | Mark(start, items[..n]) <= j < items[n].msg && RoutedTo(log, series, j) ensures j in skip {
      assert j < start || j in skip || j in Messages(items[..n]);
    }
  }

  /** One delivered item takes the crash-free baseline to the crash-free baseline. */
  lemma ItemAdvances<S(!new), R(!new), F>(
    setup: Setup<S, R, F>, series: Series, metric: Metric, initial: Monitor<S>, at: nat, item: Item<R>)
    requires FailsByRow(setup.detect(metric)) && at <= |setup.log| && FromLog(setup.log, series, item)
    requires forall j :: at <= j < item.msg && RoutedTo(setup.log, series, j) ==>
      Settled(setup.detect(metric), CrashFree(setup, series, metric, initial, at), RouteOf(setup.log[j]).sample)
    ensures FoldOne(setup.detect(metric), CrashFree(setup, series, metric, initial, at), item.sample) ==
      CrashFree(setup, series, metric, initial, if item.msg < at then at else item.msg + 1)
  {
    hide RouteOf, FailsByRow;
    if item.msg < at {
      CrashFreeHas(setup, series, metric, initial, at, item.msg);
    } else {
      CrashFreeSkips(setup, series, metric, initial, at, item.msg);
      FoldAppends(setup.detect(metric), initial, Stream(setup.log, series, item.msg), item.sample);
    }
  }

  lemma MarkStep<R>(start: nat, items: seq<Item<R>>, n: nat)
    requires n < |items|
    ensures Mark(start, items[..n + 1]) ==
      var at := Mark(start, items[..n]); if items[n].msg < at then at else items[n].msg + 1
  {
    assert items[..n + 1][..n] == items[..n];
  }

  lemma MarkNone<S, R, F>(
    setup: Setup<S, R, F>, series: Series, metric: Metric, initial: Monitor<S>, start: nat, items: seq<Item<R>>)
    requires start <= |setup.log|
    ensures Mark(start, items[..0]) == start
    ensures Fold(setup.detect(metric), CrashFree(setup, series, metric, initial, start), Samples(items[..0])) ==
      CrashFree(setup, series, metric, initial, start)
  {
    hide CrashFree;
  }

  /** What a baseline covers, it covers with more folded in. */
  lemma CoversStays<S(!new), R(!new), F>(
    setup: Setup<S, R, F>, series: Series, metric: Metric, m: Monitor<S>, rows: seq<Sample<R>>, msgs: set<nat>)
    requires FailsByRow(setup.detect(metric)) && Covers(setup, series, metric, m, msgs)
    ensures Covers(setup, series, metric, Fold(setup.detect(metric), m, rows), msgs)
  {
    hide RouteOf, FailsByRow, Settled, Fold;
    forall j | j in msgs && RoutedTo(setup.log, series, j)
      ensures Settled(setup.detect(metric), Fold(setup.detect(metric), m, rows), RouteOf(setup.log[j]).sample)
    {
      SettledStays(setup.detect(metric), m, rows, RouteOf(setup.log[j]).sample);
    }
  }

  /** Deliveries in order, but for messages that the baseline covers, bring it to the crash-free one. */
  lemma {:induction false} InOrderIsCrashFree<S(!new), R(!new), F>(
    setup: Setup<S, R, F>, series: Series, metric: Metric, initial: Monitor<S>, start: nat, skip: set<nat>,
    items: seq<Item<R>>, n: nat)
    requires FailsByRow(setup.detect(metric)) && n <= |items| && start <= |setup.log|
    requires InOrder(setup.log, series, start, skip, items)
    requires Covers(setup, series, metric, CrashFree(setup, series, metric, initial, start), skip)
    requires forall i :: 0 <= i < |items| ==> FromLog(setup.log, series, items[i])
    ensures Mark(start, items[..n]) <= |setup.log|
    ensures Fold(setup.detect(metric), CrashFree(setup, series, metric, initial, start), Samples(items[..n])) ==
      CrashFree(setup, series, metric, initial, Mark(start, items[..n]))
  {
    hide InOrder, FailsByRow, CrashFree, Fold, FoldOne, RouteOf, Mark, Samples, FromLog, Settled, RoutedTo;
    var detect := setup.detect(metric);
    var base := CrashFree(setup, series, metric, initial, start);
    MarkBound(setup.log, series, start, items[..n]);
    if n > 0 {
      var at := Mark(start, items[..n - 1]);
      InOrderIsCrashFree(setup, series, metric, initial, start, skip, items, n - 1);
      CoversStays(setup, series, metric, base, Samples(items[..n - 1]), skip);
      MarkStep(start, items, n - 1);
      MarkedIsNext(setup.log, series, start, skip, items, n - 1);
      ItemAdvances(setup, series, metric, initial, at, items[n - 1]);
      OneMoreSample(items, n - 1);
      FoldAppends(detect, base, Samples(items[..n - 1]), items[n - 1].sample);
    } else {
      MarkNone(setup, series, metric, initial, start, items);
    }
  }

  // ---------------------------------------------------------- what is stored

  /** The monitor after the first n deliveries since the last crash. */
  function MonitorAfter<S, R, F>(setup: Setup<S, R, F>, metric: Metric, e: Epoch<S, R>, n: nat): Monitor<S>
    requires n <= |e.delivered|
  {
    Fold(setup.detect(metric), e.base, Samples(e.delivered[..n]))
  }

  /** The row is the monitor after some of the deliveries, whichever saves failed. */
  ghost predicate IsPast<S, R, F>(
    setup: Setup<S, R, F>, series: Series, metric: Metric, sys: System<S, R>, e: Epoch<S, R>)
  {
    exists k :: 0 <= k <= |e.delivered|
      && RowFor(setup.empty, sys.rows, KeyOf(series, metric)) == MonitorAfter(setup, metric, e, k)
  }

  lemma PastLonger<S, R, F>(
    setup: Setup<S, R, F>, series: Series, metric: Metric, sys: System<S, R>, e: Epoch<S, R>, sys': System<S, R>,
    x: seq<Item<R>>)
    requires IsPast(setup, series, metric, sys, e)
    requires
      var key := KeyOf(series, metric);
      RowFor(setup.empty, sys'.rows, key) == RowFor(setup.empty, sys.rows, key)
    ensures IsPast(setup, series, metric, sys', e.(delivered := e.delivered + x))
  {
    hide Fold, Samples, RowFor;
    var k :| 0 <= k <= |e.delivered|
      && RowFor(setup.empty, sys.rows, KeyOf(series, metric)) == MonitorAfter(setup, metric, e, k);
    PrefixOfLonger(e.delivered, x, k);
    assert RowFor(setup.empty, sys'.rows, KeyOf(series, metric)) ==
      MonitorAfter(setup, metric, e.(delivered := e.delivered + x), k);
  }

  lemma SaveIsPast<S, R, F>(
    setup: Setup<S, R, F>, series: Series, metric: Metric, sys: System<S, R>, e: Epoch<S, R>, fails: bool)
    requires series in sys.workers && CanSave(sys.workers[series], metric)
    requires Tracks(setup, series, metric, sys, e) && IsPast(setup, series, metric, sys, e)
    ensures IsPast(setup, series, metric, Next(setup, sys, Save(series, metric, fails)), e)
  {
    hide Fold, Samples, EndsWith;
    var w := sys.workers[series];
    var row := RowFor(setup.empty, Next(setup, sys, Save(series, metric, fails)).rows, KeyOf(series, metric));
    if row == w.monitors[metric].monitor {
      assert row == MonitorAfter(setup, metric, e, |e.delivered| - |Queue(w)| + w.monitors[metric].folded);
    }
  }

  lemma StepIsPast<S, R, F>(
    setup: Setup<S, R, F>, series: Series, metric: Metric, sys: System<S, R>, e: Epoch<S, R>, step: Step)
    requires !step.Crash? && Tracks(setup, series, metric, sys, e) && IsPast(setup, series, metric, sys, e)
    requires WellRouted(setup.log, sys) && Alone(setup.log, series, metric)
    ensures var e' := e.(delivered := e.delivered + Delivery(setup.log, series, step));
      IsPast(setup, series, metric, Next(setup, sys, step), e')
  {
    hide Alone, WellRouted, Tracks, IsPast, Next, RowFor;
    if step.Save? && step.series == series && step.metric == metric
       && series in sys.workers && CanSave(sys.workers[series], metric)
    {
      SaveIsPast(setup, series, metric, sys, e, step.fails);
      assert e.delivered + [] == e.delivered;
    } else {
      RowStays(setup, series, metric, sys, step);
      PastLonger(setup, series, metric, sys, e, Next(setup, sys, step), Delivery(setup.log, series, step));
    }
  }

  lemma RestIsPast<S, R, F>(setup: Setup<S, R, F>, series: Series, metric: Metric, sys: System<S, R>)
    ensures IsPast(setup, series, metric, sys, Epoch(RowFor(setup.empty, sys.rows, KeyOf(series, metric)), []))
  {
    var e: Epoch<S, R> := Epoch(RowFor(setup.empty, sys.rows, KeyOf(series, metric)), []);
    assert Samples(e.delivered[..0]) == [];
    assert e.base == MonitorAfter(setup, metric, e, 0);
  }

  lemma {:induction false} EveryRowIsPast<S, R, F>(
    setup: Setup<S, R, F>, rows: map<BaselineKey, Monitor<S>>, series: Series, metric: Metric, steps: seq<Step>)
    requires Alone(setup.log, series, metric) && metric in Registry(series.kind)
    ensures IsPast(setup, series, metric, After(setup, rows, steps), EpochAfter(setup, rows, series, metric, steps))
  {
    hide Alone, Registry, Next, RowFor, IsPast, Tracks, WellRouted;
    if steps == [] {
      RestIsPast(setup, series, metric, After(setup, rows, []));
    } else {
      var before := steps[..|steps| - 1];
      var sys := After(setup, rows, before);
      EveryRowIsPast(setup, rows, series, metric, before);
      EveryRunTracks(setup, rows, series, metric, before);
      if steps[|steps| - 1].Crash? {
        CrashForgets(setup, sys, KeyOf(series, metric));
        RestIsPast(setup, series, metric, After(setup, rows, steps));
      } else {
        StepIsPast(setup, series, metric, sys, EpochAfter(setup, rows, series, metric, before), steps[|steps| - 1]);
      }
    }
  }

  // ------------------------------------------------------------ lagging rows

  /** How many deliveries since the last crash were in acknowledged batches. */
  function Handled<S, R>(sys: System<S, R>, series: Series, e: Epoch<S, R>): nat {
    if series in sys.workers && |Queue(sys.workers[series])| <= |e.delivered|
    then |e.delivered| - |Queue(sys.workers[series])| else 0
  }

  lemma HandledIsDelivered<S, R>(sys: System<S, R>, series: Series, e: Epoch<S, R>)
    ensures Handled(sys, series, e) <= |e.delivered|
  {
  }

  lemma SplitSamples<R>(items: seq<Item<R>>, a: nat, b: nat)
    requires a <= b <= |items|
    ensures Samples(items[..b]) == Samples(items[..a]) + Samples(items[a..b])
  {
  }

  lemma MonitorGoesOn<S, R, F>(setup: Setup<S, R, F>, metric: Metric, e: Epoch<S, R>, a: nat, b: nat)
    requires a <= b <= |e.delivered|
    ensures MonitorAfter(setup, metric, e, b) ==
      Fold(setup.detect(metric), MonitorAfter(setup, metric, e, a), Samples(e.delivered[a..b]))
    ensures MonitorAfter(setup, metric, e, a).cursor <= MonitorAfter(setup, metric, e, b).cursor
  {
    hide Fold;
    SplitSamples(e.delivered, a, b);
    FoldSplits(setup.detect(metric), e.base, Samples(e.delivered[..a]), Samples(e.delivered[a..b]));
    CursorNeverFallsBack(setup.detect(metric), MonitorAfter(setup, metric, e, a), Samples(e.delivered[a..b]));
  }

  lemma MonitorHas<S(!new), R(!new), F>(
    setup: Setup<S, R, F>, metric: Metric, e: Epoch<S, R>, n: nat, i: nat)
    requires FailsByRow(setup.detect(metric)) && i < n <= |e.delivered|
    ensures Settled(setup.detect(metric), MonitorAfter(setup, metric, e, n), e.delivered[i].sample)
  {
    hide FailsByRow, Settled, Fold;
    FoldSettlesAll(setup.detect(metric), e.base, Samples(e.delivered[..n]), i);
  }

  lemma MonitorCovers<S(!new), R(!new), F>(
    setup: Setup<S, R, F>, series: Series, metric: Metric, e: Epoch<S, R>, n: nat, h: nat)
    requires FailsByRow(setup.detect(metric)) && h <= n <= |e.delivered|
    requires forall i :: 0 <= i < |e.delivered| ==> FromLog(setup.log, series, e.delivered[i])
    ensures Covers(setup, series, metric, MonitorAfter(setup, metric, e, n), Messages(e.delivered[..h]))
  {
    hide FailsByRow, Settled, RouteOf, MonitorAfter;
    forall j | j in Messages(e.delivered[..h]) && RoutedTo(setup.log, series, j)
      ensures Settled(setup.detect(metric), MonitorAfter(setup, metric, e, n), RouteOf(setup.log[j]).sample)
    {
      var i :| 0 <= i < h && e.delivered[..h][i].msg == j;
      assert FromLog(setup.log, series, e.delivered[i]);
      MonitorHas(setup, metric, e, n, i);
    }
  }

  lemma CoveredChangesNothing<S, R, F>(
    setup: Setup<S, R, F>, series: Series, metric: Metric, m: Monitor<S>, items: seq<Item<R>>, a: nat)
    requires a <= |items| && Covers(setup, series, metric, m, Messages(items))
    requires forall i :: 0 <= i < |items| ==> FromLog(setup.log, series, items[i])
    ensures Fold(setup.detect(metric), m, Samples(items[a..])) == m
  {
    hide RouteOf, Settled, Fold;
    var rows := Samples(items[a..]);
    forall i | 0 <= i < |rows| ensures Settled(setup.detect(metric), m, rows[i]) {
      assert FromLog(setup.log, series, items[a + i]);
      assert items[a + i].msg in Messages(items);
    }
    SettledChangeNothing(setup.detect(metric), m, rows);
  }

  lemma EarlierRowLagsIff<S(!new), R(!new), F>(
    setup: Setup<S, R, F>, series: Series, metric: Metric, e: Epoch<S, R>, k: nat, h: nat)
    requires FailsByRow(setup.detect(metric)) && k < h <= |e.delivered|
    requires forall i :: 0 <= i < |e.delivered| ==> FromLog(setup.log, series, e.delivered[i])
    ensures
      var row, m := MonitorAfter(setup, metric, e, k), MonitorAfter(setup, metric, e, h);
      row.cursor < m.cursor <==> !Covers(setup, series, metric, row, Messages(e.delivered[..h]))
  {
    hide FailsByRow, MonitorAfter, FromLog, RouteOf, Fold;
    var row, m := MonitorAfter(setup, metric, e, k), MonitorAfter(setup, metric, e, h);
    MonitorGoesOn(setup, metric, e, k, h);
    if Covers(setup, series, metric, row, Messages(e.delivered[..h])) {
      CoveredChangesNothing(setup, series, metric, row, e.delivered[..h], k);
      assert e.delivered[..h][k..] == e.delivered[k..h];
    } else if row.cursor == m.cursor {
      CursorNeverFallsBack(setup.detect(metric), row, Samples(e.delivered[k..h]));
      MonitorCovers(setup, series, metric, e, h, h);
    }
  }

  /** The stored row lags behind the monitor as of the last acknowledged batch exactly if it does not cover
      the messages of those batches: if one of them is readable and later than the stored cursor. */
  lemma RowLagsIff<S(!new), R(!new), F>(
    setup: Setup<S, R, F>, rows: map<BaselineKey, Monitor<S>>, series: Series, metric: Metric, steps: seq<Step>)
    requires Alone(setup.log, series, metric) && metric in Registry(series.kind) && FailsByRow(setup.detect(metric))
    ensures
      var sys, e := After(setup, rows, steps), EpochAfter(setup, rows, series, metric, steps);
      var row, h := RowFor(setup.empty, sys.rows, KeyOf(series, metric)), Handled(sys, series, e);
      h <= |e.delivered| &&
      (row.cursor < MonitorAfter(setup, metric, e, h).cursor <==>
         !Covers(setup, series, metric, row, Messages(e.delivered[..h])))
  {
    hide Alone, Registry, After, EpochAfter, RowFor, FailsByRow, Covers, MonitorAfter, FromLog;
    var sys, e := After(setup, rows, steps), EpochAfter(setup, rows, series, metric, steps);
    var row, h := RowFor(setup.empty, sys.rows, KeyOf(series, metric)), Handled(sys, series, e);
    EveryRowIsPast(setup, rows, series, metric, steps);
    DeliveredIsFromLog(setup, rows, series, metric, steps);
    HandledIsDelivered(sys, series, e);
    var k :| 0 <= k <= |e.delivered| && row == MonitorAfter(setup, metric, e, k);
    if h <= k {
      MonitorGoesOn(setup, metric, e, h, k);
      MonitorCovers(setup, series, metric, e, k, h);
    } else {
      EarlierRowLagsIff(setup, series, metric, e, k, h);
    }
  }

  /** An acknowledged message that the row does not cover is lost: no crash-free baseline that includes it
      is stored, and the queue will not deliver it again. */
  lemma UncoveredIsLost<S(!new), R(!new), F>(
    setup: Setup<S, R, F>, series: Series, metric: Metric, initial: Monitor<S>, row: Monitor<S>, j: nat, n: nat)
    requires FailsByRow(setup.detect(metric)) && j < n <= |setup.log| && RoutedTo(setup.log, series, j)
    requires !Settled(setup.detect(metric), row, RouteOf(setup.log[j]).sample)
    ensures row != CrashFree(setup, series, metric, initial, n)
  {
    CrashFreeHas(setup, series, metric, initial, n, j);
  }
}
