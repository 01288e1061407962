/**
 Replay after crashes (services/argus/worker.go): if messages are redelivered in order, and whatever was
 acknowledged is in the row at every crash, the rows end up as if nothing had crashed. That is so if the
 loads and saves succeed.
 */
module Replay {
  import opened Options
  import opened Sequences
  import opened MonitorFold
  import opened Routing
  import opened Recovery

  // ------------------------------------------------------ what is acknowledged

  /** What was acknowledged was so before the last crash, or has been handled since. */
  ghost predicate AckedIsHandled<S, R>(
    log: seq<Message<R>>, series: Series, sys: System<S, R>, e: Epoch<S, R>, skip: set<nat>)
  {
    && Handled(sys, series, e) <= |e.delivered|
    && forall j :: j in sys.acked && RoutedTo(log, series, j) ==>
         j in skip || j in Messages(e.delivered[..Handled(sys, series, e)])
  }

  lemma MessagesGrow<R>(items: seq<Item<R>>, a: nat, b: nat)
    requires a <= b <= |items|
    ensures Messages(items[..a]) <= Messages(items[..b])
  {
    forall j | j in Messages(items[..a]) ensures j in Messages(items[..b]) {
      var i :| 0 <= i < a && items[..a][i].msg == j;
      assert items[..b][i].msg == j;
    }
  }

  lemma BatchIsDelivered<S, R>(w: Worker<S, R>, delivered: seq<Item<R>>)
    requires w.phase.Folding? && EndsWith(delivered, Queue(w))
    ensures Messages(w.phase.batch) <= Messages(delivered[..|delivered| - |w.inbox|])
  {
    var h := |delivered| - |Queue(w)|;
    forall j | j in Messages(w.phase.batch) ensures j in Messages(delivered[..|delivered| - |w.inbox|]) {
      var i :| 0 <= i < |w.phase.batch| && w.phase.batch[i].msg == j;
      assert delivered[h..][i] == Queue(w)[i] == w.phase.batch[i];
      assert delivered[..|delivered| - |w.inbox|][h + i].msg == j;
    }
  }

  // Each inbox holds messages of its own series only.

  ghost predicate OwnMessages<R>(log: seq<Message<R>>, series: Series, items: seq<Item<R>>) {
    forall i :: 0 <= i < |items| ==> RoutedTo(log, series, items[i].msg)
  }

  ghost predicate WellSharded<S, R>(log: seq<Message<R>>, sys: System<S, R>) {
    forall series :: series in sys.workers ==> OwnMessages(log, series, Queue(sys.workers[series]))
  }

  lemma WorkerKeepsOwn<S, R, F>(setup: Setup<S, R, F>, sys: System<S, R>, series: Series, step: Step)
    requires series in sys.workers && OwnMessages(setup.log, series, Queue(sys.workers[series]))
    ensures OwnMessages(setup.log, series, Queue(WorkerStep(setup, sys, series, step)))
  {
    hide RoutedTo, FoldOne, Loaded, Begun;
    var w := sys.workers[series];
    var w' := WorkerStep(setup, sys, series, step);
    if step.Take? && w' != w {
      assert Queue(w') == Queue(w);
    } else if step.Ack? && w' != w {
      assert Queue(w') == Queue(w)[|w.phase.batch|..];
    } else {
      assert Queue(w') == Queue(w);
    }
  }

  lemma ReceiveKeepsOwn<S, R>(log: seq<Message<R>>, sys: System<S, R>, series: Series, item: Item<R>)
    requires WellSharded(log, sys) && RoutedTo(log, series, item.msg)
    ensures var w := WorkerOf(sys, series); OwnMessages(log, series, Queue(w.(inbox := w.inbox + [item])))
  {
    hide RoutedTo;
    var w := WorkerOf(sys, series);
    assert OwnMessages(log, series, Queue(w));
    assert Queue(w.(inbox := w.inbox + [item])) == Queue(w) + [item];
  }

  lemma StepKeepsSharded<S, R, F>(setup: Setup<S, R, F>, sys: System<S, R>, step: Step)
    requires WellSharded(setup.log, sys)
    ensures WellSharded(setup.log, Next(setup, sys, step))
  {
    hide RouteOf, WorkerStep, RowsStep, AckedStep, OwnMessages, Queue;
    if step.Dispatch? && step.msg < |setup.log| && RouteOf(setup.log[step.msg]).Accepted? {
      var route := RouteOf(setup.log[step.msg]);
      ReceiveKeepsOwn(setup.log, sys, route.series, Item(step.msg, route.sample));
    } else if !step.Dispatch? && !step.Crash? && step.series in sys.workers {
      WorkerKeepsOwn(setup, sys, step.series, step);
    }
  }

  lemma DispatchHandles<S, R, F>(
    setup: Setup<S, R, F>, series: Series, metric: Metric, sys: System<S, R>, e: Epoch<S, R>, skip: set<nat>,
    step: Step)
    requires step.Dispatch? && Tracks(setup, series, metric, sys, e)
    requires AckedIsHandled(setup.log, series, sys, e, skip)
    ensures var e' := e.(delivered := e.delivered + Delivery(setup.log, series, step));
      AckedIsHandled(setup.log, series, Next(setup, sys, step), e', skip)
  {
    hide RouteOf, Follows, RowFor, Messages;
    PrefixOfLonger(e.delivered, Delivery(setup.log, series, step), Handled(sys, series, e));
  }

  lemma OwnStepHandles<S, R, F>(
    setup: Setup<S, R, F>, series: Series, metric: Metric, sys: System<S, R>, e: Epoch<S, R>, skip: set<nat>,
    step: Step)
    requires !step.Dispatch? && !step.Crash? && step.series == series && series in sys.workers
    requires Tracks(setup, series, metric, sys, e)
    requires AckedIsHandled(setup.log, series, sys, e, skip)
    ensures AckedIsHandled(setup.log, series, Next(setup, sys, step), e, skip)
  {
    hide Follows, RowFor, Messages, RoutedTo, FoldOne, Loaded, Begun;
    var w := sys.workers[series];
    var sys' := Next(setup, sys, step);
    if step.Ack? && w.phase.Folding? && AllSaved(w.monitors) {
      BatchIsDelivered(w, e.delivered);
      MessagesGrow(e.delivered, Handled(sys, series, e), |e.delivered| - |w.inbox|);
      assert Queue(sys'.workers[series]) == w.inbox;
    } else {
      assert |Queue(sys'.workers[series])| == |Queue(w)|;
    }
  }

  lemma OtherStepHandles<S, R, F>(
    setup: Setup<S, R, F>, series: Series, sys: System<S, R>, e: Epoch<S, R>, skip: set<nat>, step: Step)
    requires !step.Dispatch? && !step.Crash? && (step.series != series || series !in sys.workers)
    requires WellSharded(setup.log, sys) && AckedIsHandled(setup.log, series, sys, e, skip)
    ensures AckedIsHandled(setup.log, series, Next(setup, sys, step), e, skip)
  {
    hide WorkerStep, RowsStep;
    var sys' := Next(setup, sys, step);
    assert Handled(sys', series, e) == Handled(sys, series, e);
    if step.Ack? && step.series in sys.workers {
      var w := sys.workers[step.series];
      if w.phase.Folding? {
        forall j | j in Messages(w.phase.batch) ensures !RoutedTo(setup.log, series, j) {
          var i :| 0 <= i < |w.phase.batch| && w.phase.batch[i].msg == j;
          assert RoutedTo(setup.log, step.series, Queue(w)[i].msg);
        }
      }
    }
  }

  // ----------------------------------------------------------------- the replay

  /** The last crash left the row at the crash-free baseline of the first `start` messages, which covers
      what had been acknowledged, and deliveries have come in order since. */
  ghost predicate Resumes<S, R, F>(
    setup: Setup<S, R, F>, series: Series, metric: Metric, initial: Monitor<S>,
    sys: System<S, R>, e: Epoch<S, R>, start: nat, skip: set<nat>)
  {
    && start <= |setup.log|
    && e.base == CrashFree(setup, series, metric, initial, start)
    && Covers(setup, series, metric, e.base, skip)
    && InOrder(setup.log, series, start, skip, e.delivered)
    && AckedIsHandled(setup.log, series, sys, e, skip)
  }

  /** A message is dispatched only after every earlier one of its series was, since the last crash,
      unless that one has been acknowledged. */
  ghost predicate Orderly<S, R, F>(
    setup: Setup<S, R, F>, series: Series, sys: System<S, R>, e: Epoch<S, R>, step: Step)
  {
    step.Dispatch? && RoutedTo(setup.log, series, step.msg) ==>
      forall j: nat :: j < step.msg && RoutedTo(setup.log, series, j) ==>
        j in sys.acked || j in Messages(e.delivered)
  }

  /** A crash finds the row to cover everything acknowledged. */
  ghost predicate CrashesCovered<S, R, F>(
    setup: Setup<S, R, F>, series: Series, metric: Metric, sys: System<S, R>, step: Step)
  {
    step.Crash? ==>
      Covers(setup, series, metric, RowFor(setup.empty, sys.rows, KeyOf(series, metric)), sys.acked)
  }

  ghost predicate Recoverable<S, R, F>(
    setup: Setup<S, R, F>, rows: map<BaselineKey, Monitor<S>>, series: Series, metric: Metric, steps: seq<Step>)
  {
    steps == [] ||
    var before, last := steps[..|steps| - 1], steps[|steps| - 1];
    var sys := After(setup, rows, before);
    && Recoverable(setup, rows, series, metric, before)
    && Orderly(setup, series, sys, EpochAfter(setup, rows, series, metric, before), last)
    && CrashesCovered(setup, series, metric, sys, last)
  }

  lemma OrderlyIsInOrder<S, R, F>(
    setup: Setup<S, R, F>, series: Series, sys: System<S, R>, e: Epoch<S, R>, start: nat, skip: set<nat>, step: Step)
    requires InOrder(setup.log, series, start, skip, e.delivered)
    requires AckedIsHandled(setup.log, series, sys, e, skip) && Orderly(setup, series, sys, e, step)
    ensures InOrder(setup.log, series, start, skip, e.delivered + Delivery(setup.log, series, step))
  {
    hide Handled, RouteOf, Messages;
    var x := Delivery(setup.log, series, step);
    var all := e.delivered + x;
    if x == [] {
      assert all == e.delivered;
    } else {
      MessagesGrow(e.delivered, Handled(sys, series, e), |e.delivered|);
      assert e.delivered[..|e.delivered|] == e.delivered;
      forall n: nat, j: nat | n < |all| && j < all[n].msg && RoutedTo(setup.log, series, j)
        ensures j < start || j in skip || j in Messages(all[..n])
      {
        PrefixOfLonger(e.delivered, x, if n <= |e.delivered| then n else 0);
        assert n < |e.delivered| ==> all[n] == e.delivered[n];
      }
    }
  }

  lemma NothingInOrder<R>(log: seq<Message<R>>, series: Series, start: nat, skip: set<nat>)
    ensures InOrder(log, series, start, skip, [])
  {
  }

  /** A crash leaves the row at the crash-free baseline of what it contains. */
  lemma CrashResumes<S(!new), R(!new), F>(
    setup: Setup<S, R, F>, series: Series, metric: Metric, initial: Monitor<S>,
    sys: System<S, R>, e: Epoch<S, R>, start: nat, skip: set<nat>) returns (start': nat)
    requires FailsByRow(setup.detect(metric))
    requires forall i :: 0 <= i < |e.delivered| ==> FromLog(setup.log, series, e.delivered[i])
    requires IsPast(setup, series, metric, sys, e) && Resumes(setup, series, metric, initial, sys, e, start, skip)
    requires CrashesCovered(setup, series, metric, sys, Crash)
    ensures var e' := Epoch(RowFor(setup.empty, sys.rows, KeyOf(series, metric)), []);
      Resumes(setup, series, metric, initial, Next(setup, sys, Crash), e', start', sys.acked)
  {
    hide FailsByRow, FromLog, Fold, CrashFree, InOrder, Covers, RowFor;
    var k :| 0 <= k <= |e.delivered|
      && RowFor(setup.empty, sys.rows, KeyOf(series, metric)) == MonitorAfter(setup, metric, e, k);
    InOrderIsCrashFree(setup, series, metric, initial, start, skip, e.delivered, k);
    start' := Mark(start, e.delivered[..k]);
    NothingInOrder(setup.log, series, start', sys.acked);
  }

  lemma StepResumes<S(!new), R(!new), F>(
    setup: Setup<S, R, F>, series: Series, metric: Metric, initial: Monitor<S>,
    sys: System<S, R>, e: Epoch<S, R>, start: nat, skip: set<nat>, step: Step)
    requires !step.Crash? && Tracks(setup, series, metric, sys, e) && WellSharded(setup.log, sys)
    requires Resumes(setup, series, metric, initial, sys, e, start, skip) && Orderly(setup, series, sys, e, step)
    ensures var e' := e.(delivered := e.delivered + Delivery(setup.log, series, step));
      Resumes(setup, series, metric, initial, Next(setup, sys, step), e', start, skip)
  {
    hide Tracks, WellSharded, CrashFree, AckedIsHandled, InOrder, Orderly, Next, Covers;
    OrderlyIsInOrder(setup, series, sys, e, start, skip, step);
    if step.Dispatch? {
      DispatchHandles(setup, series, metric, sys, e, skip, step);
    } else {
      assert e.delivered + Delivery(setup.log, series, step) == e.delivered;
      if step.series == series && series in sys.workers {
        OwnStepHandles(setup, series, metric, sys, e, skip, step);
      } else {
        OtherStepHandles(setup, series, sys, e, skip, step);
      }
    }
  }

  lemma FreshResumes<S(!new), R(!new), F>(
    setup: Setup<S, R, F>, rows: map<BaselineKey, Monitor<S>>, series: Series, metric: Metric)
    ensures var sys := After(setup, rows, []); var e := EpochAfter(setup, rows, series, metric, []);
      && WellSharded(setup.log, sys)
      && Resumes(setup, series, metric, RowFor(setup.empty, rows, KeyOf(series, metric)), sys, e, 0, {})
  {
    hide RowFor;
  }

  /** In every state of such a run the row grew out of a crash-free baseline, in order. */
  lemma {:induction false} EveryRunResumes<S(!new), R(!new), F>(
    setup: Setup<S, R, F>, rows: map<BaselineKey, Monitor<S>>, series: Series, metric: Metric, steps: seq<Step>)
    returns (start: nat, skip: set<nat>)
    requires Alone(setup.log, series, metric) && metric in Registry(series.kind) && FailsByRow(setup.detect(metric))
    requires Recoverable(setup, rows, series, metric, steps)
    ensures var sys := After(setup, rows, steps); var e := EpochAfter(setup, rows, series, metric, steps);
      && WellSharded(setup.log, sys)
      && Resumes(setup, series, metric, RowFor(setup.empty, rows, KeyOf(series, metric)), sys, e, start, skip)
    decreases |steps|
  {
    hide Alone, Registry, FailsByRow, Next, Resumes, WellSharded, Tracks, IsPast, CrashesCovered, Orderly, WellRouted;
    hide FromLog, RowFor;
    if steps == [] {
      start, skip := 0, {};
      FreshResumes(setup, rows, series, metric);
    } else {
      var n := |steps| - 1;
      var before := steps[..n];
      start, skip := EveryRunResumes(setup, rows, series, metric, before);
      EveryRunTracks(setup, rows, series, metric, before);
      EveryRowIsPast(setup, rows, series, metric, before);
      DeliveredIsFromLog(setup, rows, series, metric, before);
      var sys, e := After(setup, rows, before), EpochAfter(setup, rows, series, metric, before);
      StepKeepsSharded(setup, sys, steps[n]);
      var initial := RowFor(setup.empty, rows, KeyOf(series, metric));
      if steps[n].Crash? {
        start := CrashResumes(setup, series, metric, initial, sys, e, start, skip);
        skip := sys.acked;
      } else {
        StepResumes(setup, series, metric, initial, sys, e, start, skip, steps[n]);
      }
    }
  }

  /** Every message of the series was acknowledged, or dispatched since the last crash. */
  ghost predicate AllArrived<S, R>(log: seq<Message<R>>, series: Series, sys: System<S, R>, e: Epoch<S, R>) {
    forall j: nat :: RoutedTo(log, series, j) ==> j in sys.acked || j in Messages(e.delivered)
  }

  lemma CoveredIsCrashFree<S(!new), R(!new), F>(
    setup: Setup<S, R, F>, series: Series, metric: Metric, initial: Monitor<S>,
    sys: System<S, R>, e: Epoch<S, R>, start: nat, skip: set<nat>)
    requires FailsByRow(setup.detect(metric)) && AllArrived(setup.log, series, sys, e)
    requires forall i :: 0 <= i < |e.delivered| ==> FromLog(setup.log, series, e.delivered[i])
    requires IsPast(setup, series, metric, sys, e) && Resumes(setup, series, metric, initial, sys, e, start, skip)
    requires Covers(setup, series, metric, RowFor(setup.empty, sys.rows, KeyOf(series, metric)),
                    sys.acked + Messages(e.delivered))
    ensures RowFor(setup.empty, sys.rows, KeyOf(series, metric)) ==
      CrashFree(setup, series, metric, initial, |setup.log|)
  {
    hide FailsByRow, FromLog, Fold, RoutedTo, InOrder, RowFor, CrashFree, AckedIsHandled, Settled, RouteOf, Messages;
    var row := RowFor(setup.empty, sys.rows, KeyOf(series, metric));
    var k :| 0 <= k <= |e.delivered| && row == MonitorAfter(setup, metric, e, k);
    InOrderIsCrashFree(setup, series, metric, initial, start, skip, e.delivered, k);
    CrashFreeSkips(setup, series, metric, initial, Mark(start, e.delivered[..k]), |setup.log|);
  }

  lemma CrashFreeCovers<S(!new), R(!new), F>(
    setup: Setup<S, R, F>, series: Series, metric: Metric, initial: Monitor<S>, msgs: set<nat>)
    requires FailsByRow(setup.detect(metric))
    ensures Covers(setup, series, metric, CrashFree(setup, series, metric, initial, |setup.log|), msgs)
  {
    hide FailsByRow, Settled, RouteOf, CrashFree;
    forall j | j in msgs && RoutedTo(setup.log, series, j)
      ensures Settled(setup.detect(metric), CrashFree(setup, series, metric, initial, |setup.log|),
                      RouteOf(setup.log[j]).sample)
    {
      CrashFreeHas(setup, series, metric, initial, |setup.log|, j);
    }
  }

  /** However often it crashed on the way: if messages were redelivered in order and each crash found what
      was acknowledged in the row, then once every message of a series has arrived, the row is the baseline
      of a run that never crashed exactly if it covers what was acknowledged or delivered. */
  lemma ReplayGivesCrashFreeBaseline<S(!new), R(!new), F>(
    setup: Setup<S, R, F>, rows: map<BaselineKey, Monitor<S>>, series: Series, metric: Metric, steps: seq<Step>)
    requires Alone(setup.log, series, metric) && metric in Registry(series.kind) && FailsByRow(setup.detect(metric))
    requires Recoverable(setup, rows, series, metric, steps)
    requires AllArrived(setup.log, series, After(setup, rows, steps), EpochAfter(setup, rows, series, metric, steps))
    ensures
      var sys, e := After(setup, rows, steps), EpochAfter(setup, rows, series, metric, steps);
      var row := RowFor(setup.empty, sys.rows, KeyOf(series, metric));
      row == CrashFree(setup, series, metric, RowFor(setup.empty, rows, KeyOf(series, metric)), |setup.log|) <==>
      Covers(setup, series, metric, row, sys.acked + Messages(e.delivered))
  {
    hide Alone, Registry, FailsByRow, Recoverable, CrashFree, FromLog, RowFor, After, EpochAfter, WellSharded, Covers;
    hide IsPast, Resumes, AllArrived;
    var sys, e := After(setup, rows, steps), EpochAfter(setup, rows, series, metric, steps);
    var initial := RowFor(setup.empty, rows, KeyOf(series, metric));
    CrashFreeCovers(setup, series, metric, initial, sys.acked + Messages(e.delivered));
    if Covers(setup, series, metric, RowFor(setup.empty, sys.rows, KeyOf(series, metric)),
              sys.acked + Messages(e.delivered)) {
      var start, skip := EveryRunResumes(setup, rows, series, metric, steps);
      EveryRowIsPast(setup, rows, series, metric, steps);
      DeliveredIsFromLog(setup, rows, series, metric, steps);
      CoveredIsCrashFree(setup, series, metric, initial, sys, e, start, skip);
    }
  }

  // ----------------------------------------------------- if the saves succeed

  /** How many of the delivered items the stored row contains, if every save succeeds. */
  function Stored<S, R>(sys: System<S, R>, series: Series, metric: Metric, e: Epoch<S, R>): nat {
    if series in sys.workers && metric in sys.workers[series].monitors
       && |Queue(sys.workers[series])| <= |e.delivered|
    then
      var w := sys.workers[series];
      |e.delivered| - |Queue(w)| + if w.monitors[metric].saved then BatchSize(w.phase) else 0
    else 0
  }

  /** The series' row holds what its monitor had folded at the last save. */
  ghost predicate Stores<S, R, F>(
    setup: Setup<S, R, F>, series: Series, metric: Metric, sys: System<S, R>, e: Epoch<S, R>)
  {
    && Stored(sys, series, metric, e) <= |e.delivered|
    && var stored := Fold(setup.detect(metric), e.base, Samples(e.delivered[..Stored(sys, series, metric, e)]));
       && RowFor(setup.empty, sys.rows, KeyOf(series, metric)) == stored
       && (series in sys.workers ==>
             var w := sys.workers[series];
             && (!w.phase.Starting? ==> metric in w.monitors)
             && (w.phase.Folding? && !w.monitors[metric].saved ==> w.monitors[metric].start == stored.cursor))
  }

  /** No load and no save of this monitor's row fails. */
  predicate Healthy(series: Series, metric: Metric, step: Step) {
    && (step.Plan? && step.series == series ==> metric !in step.missing)
    && (step.Save? && step.series == series && step.metric == metric ==> !step.fails)
  }

  lemma DispatchStores<S, R, F>(
    setup: Setup<S, R, F>, series: Series, metric: Metric, sys: System<S, R>, e: Epoch<S, R>, step: Step)
    requires step.Dispatch? && Tracks(setup, series, metric, sys, e) && Stores(setup, series, metric, sys, e)
    ensures var e' := e.(delivered := e.delivered + Delivery(setup.log, series, step));
      Stores(setup, series, metric, Next(setup, sys, step), e')
  {
    hide RouteOf, Fold, EndsWith, Follows, KeyOf, Samples;
    var x := Delivery(setup.log, series, step);
    PrefixOfLonger(e.delivered, x, Stored(sys, series, metric, e));
    if x == [] {
      assert e.delivered + x == e.delivered;
    }
  }

  lemma SaveStores<S, R, F>(
    setup: Setup<S, R, F>, series: Series, metric: Metric, sys: System<S, R>, e: Epoch<S, R>, step: Step)
    requires series in sys.workers && step == Save(series, metric, false) && CanSave(sys.workers[series], metric)
    requires Tracks(setup, series, metric, sys, e) && Stores(setup, series, metric, sys, e)
    ensures Stores(setup, series, metric, Next(setup, sys, step), e)
  {
    hide Fold, EndsWith, Samples;
    var w := sys.workers[series];
    var live := w.monitors[metric];
    var h := |e.delivered| - |Queue(w)|;
    var detect := setup.detect(metric);
    SplitSamples(e.delivered, h, h + live.folded);
    FoldSplits(detect, e.base, Samples(e.delivered[..h]), Samples(e.delivered[h..h + live.folded]));
    CursorNeverFallsBack(detect, Fold(detect, e.base, Samples(e.delivered[..h])),
                         Samples(e.delivered[h..h + live.folded]));
  }

  lemma WorkerStepStores<S, R, F>(
    setup: Setup<S, R, F>, series: Series, metric: Metric, sys: System<S, R>, e: Epoch<S, R>, step: Step)
    requires !step.Dispatch? && !step.Crash? && step.series == series && series in sys.workers
    requires Tracks(setup, series, metric, sys, e) && Stores(setup, series, metric, sys, e)
    requires WellRouted(setup.log, sys) && Alone(setup.log, series, metric)
    requires metric in Registry(series.kind) && Healthy(series, metric, step)
    ensures Stores(setup, series, metric, Next(setup, sys, step), e)
  {
    hide Registry, Alone, WellRouted, Fold, FoldOne, EndsWith, Samples, KeyOf;
    var w := sys.workers[series];
    if step.Save? && step.metric == metric && CanSave(w, metric) {
      SaveStores(setup, series, metric, sys, e, step);
    } else {
      RowStays(setup, series, metric, sys, step);
    }
  }

  lemma StepStores<S, R, F>(
    setup: Setup<S, R, F>, series: Series, metric: Metric, sys: System<S, R>, e: Epoch<S, R>, step: Step)
    requires !step.Crash? && Tracks(setup, series, metric, sys, e) && Stores(setup, series, metric, sys, e)
    requires WellRouted(setup.log, sys) && Alone(setup.log, series, metric)
    requires metric in Registry(series.kind) && Healthy(series, metric, step)
    ensures var e' := e.(delivered := e.delivered + Delivery(setup.log, series, step));
      Stores(setup, series, metric, Next(setup, sys, step), e')
  {
    hide Registry, Alone, WellRouted, Fold, Samples, Tracks, WorkerStep, RowsStep, AckedStep, RowFor, Healthy;
    if step.Dispatch? {
      DispatchStores(setup, series, metric, sys, e, step);
    } else {
      assert e.delivered + Delivery(setup.log, series, step) == e.delivered;
      if step.series == series && series in sys.workers {
        WorkerStepStores(setup, series, metric, sys, e, step);
      } else {
        RowStays(setup, series, metric, sys, step);
      }
    }
  }

  lemma RestStores<S, R, F>(setup: Setup<S, R, F>, series: Series, metric: Metric, sys: System<S, R>)
    requires sys.workers == map[]
    ensures Stores(setup, series, metric, sys, Epoch(RowFor(setup.empty, sys.rows, KeyOf(series, metric)), []))
  {
    hide RowFor;
  }

  /** Redelivery keeps the order, and no load or save of this monitor fails. */
  ghost predicate WellRun<S, R, F>(
    setup: Setup<S, R, F>, rows: map<BaselineKey, Monitor<S>>, series: Series, metric: Metric, steps: seq<Step>)
  {
    steps == [] ||
    var before, last := steps[..|steps| - 1], steps[|steps| - 1];
    && WellRun(setup, rows, series, metric, before)
    && Healthy(series, metric, last)
    && Orderly(setup, series, After(setup, rows, before), EpochAfter(setup, rows, series, metric, before), last)
  }

  lemma {:induction false} SavedRunsStore<S, R, F>(
    setup: Setup<S, R, F>, rows: map<BaselineKey, Monitor<S>>, series: Series, metric: Metric, steps: seq<Step>)
    requires Alone(setup.log, series, metric) && metric in Registry(series.kind)
    requires WellRun(setup, rows, series, metric, steps)
    ensures Stores(setup, series, metric, After(setup, rows, steps), EpochAfter(setup, rows, series, metric, steps))
    decreases |steps|
  {
    hide Alone, Registry, Next, Stores, Tracks, Healthy, Orderly, WellRouted, RowFor;
    if steps == [] {
      RestStores(setup, series, metric, After(setup, rows, []));
    } else {
      var n := |steps| - 1;
      var before := steps[..n];
      SavedRunsStore(setup, rows, series, metric, before);
      EveryRunTracks(setup, rows, series, metric, before);
      var sys := After(setup, rows, before);
      if steps[n].Crash? {
        CrashForgets(setup, sys, KeyOf(series, metric));
        RestStores(setup, series, metric, After(setup, rows, steps));
      } else {
        StepStores(setup, series, metric, sys, EpochAfter(setup, rows, series, metric, before), steps[n]);
      }
    }
  }

  /** A row that was saved in time covers all that was handled and all that was acknowledged. */
  lemma StoredCovers<S(!new), R(!new), F>(
    setup: Setup<S, R, F>, series: Series, metric: Metric, initial: Monitor<S>,
    sys: System<S, R>, e: Epoch<S, R>, start: nat, skip: set<nat>)
    requires FailsByRow(setup.detect(metric))
    requires forall i :: 0 <= i < |e.delivered| ==> FromLog(setup.log, series, e.delivered[i])
    requires Tracks(setup, series, metric, sys, e) && Stores(setup, series, metric, sys, e)
    requires Resumes(setup, series, metric, initial, sys, e, start, skip)
    ensures
      var row := RowFor(setup.empty, sys.rows, KeyOf(series, metric));
      && Handled(sys, series, e) <= |e.delivered|
      && Covers(setup, series, metric, row, Messages(e.delivered[..Handled(sys, series, e)]))
      && Covers(setup, series, metric, row, sys.acked)
  {
    hide FailsByRow, FromLog, Fold, InOrder, RowFor, CrashFree, Settled, RoutedTo, Follows, Messages;
    var n := Stored(sys, series, metric, e);
    assert Handled(sys, series, e) <= n <= |e.delivered|;
    MonitorCovers(setup, series, metric, e, n, Handled(sys, series, e));
    CoversStays(setup, series, metric, e.base, Samples(e.delivered[..n]), skip);
  }

  /** If no load or save of the monitor fails, the row is never behind what was acknowledged. */
  lemma {:induction false} SavedRunsAreRecoverable<S(!new), R(!new), F>(
    setup: Setup<S, R, F>, rows: map<BaselineKey, Monitor<S>>, series: Series, metric: Metric, steps: seq<Step>)
    requires Alone(setup.log, series, metric) && metric in Registry(series.kind) && FailsByRow(setup.detect(metric))
    requires WellRun(setup, rows, series, metric, steps)
    ensures Recoverable(setup, rows, series, metric, steps)
    ensures
      var sys, e := After(setup, rows, steps), EpochAfter(setup, rows, series, metric, steps);
      var row := RowFor(setup.empty, sys.rows, KeyOf(series, metric));
      && Handled(sys, series, e) <= |e.delivered|
      && Covers(setup, series, metric, row, Messages(e.delivered[..Handled(sys, series, e)]))
      && Covers(setup, series, metric, row, sys.acked)
    decreases |steps|
  {
    hide Alone, Registry, FailsByRow, Stores, Tracks, Healthy, Orderly, RowFor, Resumes, FromLog, Covers, After;
    hide EpochAfter, WellSharded, WellRouted, Handled;
    if steps != [] {
      SavedRunsAreRecoverable(setup, rows, series, metric, steps[..|steps| - 1]);
    }
    var start, skip := EveryRunResumes(setup, rows, series, metric, steps);
    SavedRunsStore(setup, rows, series, metric, steps);
    EveryRunTracks(setup, rows, series, metric, steps);
    DeliveredIsFromLog(setup, rows, series, metric, steps);
    StoredCovers(setup, series, metric, RowFor(setup.empty, rows, KeyOf(series, metric)), After(setup, rows, steps),
                 EpochAfter(setup, rows, series, metric, steps), start, skip);
  }

  lemma DrainedIsHandled<S, R, F>(
    setup: Setup<S, R, F>, series: Series, metric: Metric, sys: System<S, R>, e: Epoch<S, R>)
    requires Tracks(setup, series, metric, sys, e) && Drained(sys, series)
    ensures Handled(sys, series, e) == |e.delivered|
  {
  }

  lemma CoversTogether<S, R, F>(
    setup: Setup<S, R, F>, series: Series, metric: Metric, m: Monitor<S>, a: set<nat>, b: set<nat>)
    requires Covers(setup, series, metric, m, a) && Covers(setup, series, metric, m, b)
    ensures Covers(setup, series, metric, m, a + b)
  {
  }

  /** With ordered redelivery and successful saves, once every message has arrived and the inbox is empty
      the stored baselines are those of a run that never crashed. */
  lemma SavedRunsGiveCrashFreeBaseline<S(!new), R(!new), F>(
    setup: Setup<S, R, F>, rows: map<BaselineKey, Monitor<S>>, series: Series, metric: Metric, steps: seq<Step>)
    requires Alone(setup.log, series, metric) && metric in Registry(series.kind) && FailsByRow(setup.detect(metric))
    requires WellRun(setup, rows, series, metric, steps) && Drained(After(setup, rows, steps), series)
    requires AllArrived(setup.log, series, After(setup, rows, steps), EpochAfter(setup, rows, series, metric, steps))
    ensures RowFor(setup.empty, After(setup, rows, steps).rows, KeyOf(series, metric)) ==
      CrashFree(setup, series, metric, RowFor(setup.empty, rows, KeyOf(series, metric)), |setup.log|)
  {
    hide Alone, Registry, FailsByRow, WellRun, Recoverable, Tracks, RowFor, CrashFree, Covers, After, EpochAfter;
    hide AllArrived, Drained, Handled, WellRouted;
    var sys, e := After(setup, rows, steps), EpochAfter(setup, rows, series, metric, steps);
    SavedRunsAreRecoverable(setup, rows, series, metric, steps);
    EveryRunTracks(setup, rows, series, metric, steps);
    DrainedIsHandled(setup, series, metric, sys, e);
    assert e.delivered[..|e.delivered|] == e.delivered;
    CoversTogether(setup, series, metric, RowFor(setup.empty, sys.rows, KeyOf(series, metric)), sys.acked,
                   Messages(e.delivered));
    ReplayGivesCrashFreeBaseline(setup, rows, series, metric, steps);
  }

  // ------------------------------------------------------ without the saves

  const PING := Series(Ping, "agent", "host", 0, "")
  const ROUND_TRIP := Metric(Ping, "rtt_p95_ns", "EWMA")
  const LOSS := Metric(Ping, "packet_loss_percent", "BETA")

  function Count(seen: int, ts: real, row: int): Outcome<int, int> {
    Stepped(seen + 1, None)
  }

  const COUNTING: Setup<int, int, int> :=
    Setup(_ => Count, 0, [Measurement("ping", "agent", "host", 0, "", 1.0, Some(7))])

  const LOSING_RUN: seq<Step> :=
    [Dispatch(0), Plan(PING, {LOSS}), Take(PING, 1), FoldRow(PING, ROUND_TRIP),
     Save(PING, ROUND_TRIP, true), Ack(PING, {}), Crash]

  const ITEM := Item(0, Sample(1.0, 7))

  lemma OneStep<S, R, F>(setup: Setup<S, R, F>, rows: map<BaselineKey, Monitor<S>>, steps: seq<Step>, n: nat)
    requires n < |steps|
    ensures After(setup, rows, steps[..n + 1]) == Next(setup, After(setup, rows, steps[..n]), steps[n])
  {
    assert steps[..n + 1][..n] == steps[..n];
  }

  lemma NoStep<S, R, F>(setup: Setup<S, R, F>, rows: map<BaselineKey, Monitor<S>>)
    ensures After(setup, rows, []) == System(map[], rows, {})
  {
  }

  function Losing(worker: Worker<int, int>, acked: set<nat>): System<int, int> {
    System(map[PING := worker], map[], acked)
  }

  function Counted(count: int, cursor: real, folded: nat, saved: bool): map<Metric, Live<int>> {
    map[ROUND_TRIP := Live(Monitor(count, cursor), 0.0, folded, saved)]
  }

  lemma LosingDispatch()
    ensures Next(COUNTING, System(map[], map[], {}), Dispatch(0)) == Losing(Worker([ITEM], Starting, map[]), {})
  {
    assert RouteOf(COUNTING.log[0]) == Accepted(PING, Sample(1.0, 7));
    var w: Worker<int, int> := Worker([], Starting, map[]);
    assert w.(inbox := w.inbox + [ITEM]) == Worker([ITEM], Starting, map[]);
    assert map[][PING := Worker<int, int>.Worker([ITEM], Starting, map[])]
        == map[PING := Worker([ITEM], Starting, map[])];
  }

  lemma LosingPlan()
    ensures Next(COUNTING, Losing(Worker([ITEM], Starting, map[]), {}), Plan(PING, {LOSS})) ==
      Losing(Worker([ITEM], Idle, Counted(0, 0.0, 0, false)), {})
  {
    assert Registry(Ping) - {LOSS} == {ROUND_TRIP};
    var before := Losing(Worker([ITEM], Starting, map[]), {});
    assert Loaded(0, before, PING, {LOSS}) == Counted(0, 0.0, 0, false);
  }

  lemma LosingTake()
    ensures Next(COUNTING, Losing(Worker([ITEM], Idle, Counted(0, 0.0, 0, false)), {}), Take(PING, 1)) ==
      Losing(Worker([], Folding([ITEM]), Counted(0, 0.0, 0, false)), {})
  {
    assert [ITEM][..1] == [ITEM] && [ITEM][1..] == [];
    assert Begun(Counted(0, 0.0, 0, false)) == Counted(0, 0.0, 0, false);
  }

  lemma KeptWorker(w: Worker<int, int>, w': Worker<int, int>)
    ensures Losing(w, {}).workers[PING := w'] == Losing(w', {}).workers
  {
  }

  lemma LosingFold()
    ensures
      var before := Losing(Worker([], Folding([ITEM]), Counted(0, 0.0, 0, false)), {});
      Next(COUNTING, before, FoldRow(PING, ROUND_TRIP)) ==
      Losing(Worker([], Folding([ITEM]), Counted(1, 1.0, 1, false)), {})
  {
    assert [ITEM][0].sample == Sample(1.0, 7);
    var live := Counted(0, 0.0, 0, false)[ROUND_TRIP];
    assert FoldOne(COUNTING.detect(ROUND_TRIP), live.monitor, Sample(1.0, 7)) == Monitor(1, 1.0);
    assert Counted(0, 0.0, 0, false)[ROUND_TRIP := Live(Monitor(1, 1.0), 0.0, 1, false)] == Counted(1, 1.0, 1, false);
    KeptWorker(Worker([], Folding([ITEM]), Counted(0, 0.0, 0, false)),
               Worker([], Folding([ITEM]), Counted(1, 1.0, 1, false)));
  }

  lemma LosingSave()
    ensures
      var before := Losing(Worker([], Folding([ITEM]), Counted(1, 1.0, 1, false)), {});
      Next(COUNTING, before, Save(PING, ROUND_TRIP, true)) ==
      Losing(Worker([], Folding([ITEM]), Counted(1, 1.0, 1, true)), {})
  {
    assert Counted(1, 1.0, 1, false)[ROUND_TRIP := Live(Monitor(1, 1.0), 0.0, 1, true)] == Counted(1, 1.0, 1, true);
    KeptWorker(Worker([], Folding([ITEM]), Counted(1, 1.0, 1, false)),
               Worker([], Folding([ITEM]), Counted(1, 1.0, 1, true)));
  }

  lemma LosingAck()
    ensures
      var before := Losing(Worker([], Folding([ITEM]), Counted(1, 1.0, 1, true)), {});
      var sys := Next(COUNTING, before, Ack(PING, {}));
      sys.rows == map[] && 0 in sys.acked
  {
    assert [ITEM][0].msg == 0;
    assert 0 in Messages([ITEM]);
  }

  lemma LosingCrash(sys: System<int, int>)
    ensures Next(COUNTING, sys, Crash).rows == sys.rows && Next(COUNTING, sys, Crash).acked == sys.acked
  {
  }

  lemma LostSample()
    ensures CrashFree(COUNTING, PING, ROUND_TRIP, Monitor(0, 0.0), 1) == Monitor(1, 1.0)
  {
    assert RouteOf(COUNTING.log[0]) == Accepted(PING, Sample(1.0, 7));
    assert Stream(COUNTING.log, PING, 1) == [] + [Sample(1.0, 7)];
    FoldAppends(Count, Monitor(0, 0.0), [], Sample(1.0, 7));
  }

  /** The sample is taken and folded. */
  lemma LosingRunFolds()
    ensures After(COUNTING, map[], LOSING_RUN[..4]) ==
      Losing(Worker([], Folding([ITEM]), Counted(1, 1.0, 1, false)), {})
  {
    hide Next, RouteOf, Losing, Counted, After;
    var run := LOSING_RUN;
    assert run[..0] == [];
    NoStep(COUNTING, map[]);
    OneStep(COUNTING, map[], run, 0);
    LosingDispatch();
    OneStep(COUNTING, map[], run, 1);
    LosingPlan();
    OneStep(COUNTING, map[], run, 2);
    LosingTake();
    OneStep(COUNTING, map[], run, 3);
    LosingFold();
  }

  /** The save fails, the message is acknowledged all the same, and the process crashes. */
  lemma LosingRunAcks()
    ensures var sys := After(COUNTING, map[], LOSING_RUN); sys.rows == map[] && 0 in sys.acked
  {
    hide Next, RouteOf, Losing, Counted, After;
    var run := LOSING_RUN;
    assert run[..7] == run;
    LosingRunFolds();
    OneStep(COUNTING, map[], run, 4);
    LosingSave();
    OneStep(COUNTING, map[], run, 5);
    LosingAck();
    OneStep(COUNTING, map[], run, 6);
    LosingCrash(After(COUNTING, map[], run[..6]));
  }

  /** The batch is acknowledged even if its save failed; a crash then loses the sample for good. */
  lemma FailedSaveLosesTheSample()
    ensures var sys := After(COUNTING, map[], LOSING_RUN);
      && 0 in sys.acked
      && RowFor(0, sys.rows, KeyOf(PING, ROUND_TRIP)) == Monitor(0, 0.0)
    ensures CrashFree(COUNTING, PING, ROUND_TRIP, Monitor(0, 0.0), 1) == Monitor(1, 1.0)
  {
    hide After, CrashFree, Stream, RouteOf;
    LosingRunAcks();
    LostSample();
  }
}
