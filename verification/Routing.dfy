/**
 The router and the workers as one machine (services/argus/router.go, services/argus/worker.go).

 Measurement messages come from a log and may be dispatched in any order and any number of times. The
 router puts each one into the inbox of its series; the first one starts a worker, which loads the
 baseline rows of its monitors, then takes the queued messages in batches of any size, folds each
 batch into each monitor, saves the baselines that moved and acknowledges the batch. A crash loses
 everything but the baseline rows and the acknowledgements.

 A step names what happens next; one that is not possible does nothing. The machine lets the monitors
 of a worker advance in any order, which includes the order of the code.
 */
module Routing {
  import opened Options
  import opened Sequences
  import opened MonitorFold

  datatype Kind = Ping | Stamp | Trace

  datatype Series = Series(kind: Kind, serial: string, target: string, port: int, src: string)

  datatype Metric = Metric(kind: Kind, name: string, detector: string)

  /** The primary key of argus_baselines; the probe type and the source are not part of it. */
  datatype BaselineKey = BaselineKey(serial: string, target: string, port: int, name: string, detector: string)

  /** `metrics` is None when they do not decode as the event's type. */
  datatype Message<R> =
    | Unreadable
    | Measurement(probe: string, serial: string, target: string, port: int, src: string, ts: real, metrics: Option<R>)

  datatype Item<R> = Item(msg: nat, sample: Sample<R>)

  datatype Route<R> = Refused | Accepted(series: Series, sample: Sample<R>)

  function SeriesFromEvent(probe: string, serial: string, target: string, port: int, src: string): Option<Series> {
    if probe == "ping" then Some(Series(Ping, serial, target, 0, ""))
    else if probe == "stamp" then Some(Series(Stamp, serial, target, port, ""))
    else if probe == "trace" then Some(Series(Trace, serial, target, 0, src))
    else None
  }

  function RouteOf<R>(msg: Message<R>): Route<R> {
    match msg
    case Unreadable => Refused
    case Measurement(probe, serial, target, port, src, ts, metrics) =>
      match SeriesFromEvent(probe, serial, target, port, src)
      case None => Refused
      case Some(series) => if metrics.None? then Refused else Accepted(series, Sample(ts, metrics.value))
  }

  /** Accepted is exactly what decodes and names one of the three probes, with its own time and metrics. */
  lemma AcceptedIff<R>(msg: Message<R>)
    ensures RouteOf(msg).Accepted? <==>
      msg.Measurement? && msg.probe in {"ping", "stamp", "trace"} && msg.metrics.Some?
    ensures RouteOf(msg).Accepted? ==>
      var route := RouteOf(msg);
      && route.sample == Sample(msg.ts, msg.metrics.value)
      && route.series.serial == msg.serial && route.series.target == msg.target
      && route.series.kind == (if msg.probe == "ping" then Ping else if msg.probe == "stamp" then Stamp else Trace)
  {
  }

  /** Two messages meet in one inbox exactly if they come from one agent and one kind of probe to one target;
      for STAMP also one port, for traces also one source. */
  lemma SameSeriesIff<R>(a: Message<R>, b: Message<R>)
    requires RouteOf(a).Accepted? && RouteOf(b).Accepted?
    ensures RouteOf(a).series == RouteOf(b).series <==>
      && a.probe == b.probe && a.serial == b.serial && a.target == b.target
      && (a.probe == "stamp" ==> a.port == b.port) && (a.probe == "trace" ==> a.src == b.src)
  {
  }

  /** The metrics whose detector is implemented. */
  function Registry(kind: Kind): set<Metric> {
    match kind
    case Ping => {Metric(Ping, "rtt_p95_ns", "EWMA"), Metric(Ping, "packet_loss_percent", "BETA")}
    case Stamp => {Metric(Stamp, "fwd_p95_ns", "EWMA"), Metric(Stamp, "bwd_p95_ns", "EWMA"),
                   Metric(Stamp, "rtt_p95_ns", "EWMA"), Metric(Stamp, "loss", "BETA")}
    case Trace => {}
  }

  function KeyOf(series: Series, metric: Metric): BaselineKey {
    BaselineKey(series.serial, series.target, series.port, metric.name, metric.detector)
  }

  // ---------------------------------------------------------------- machine

  datatype Setup<!S, !R, F> = Setup(detect: Metric -> ((S, real, R) -> Outcome<S, F>), empty: S, log: seq<Message<R>>)

  datatype Phase<R> = Starting | Idle | Folding(batch: seq<Item<R>>)

  /** `start` is the cursor when the batch was taken, `folded` the rows of it folded so far. */
  datatype Live<S> = Live(monitor: Monitor<S>, start: real, folded: nat, saved: bool)

  datatype Worker<S, R> = Worker(inbox: seq<Item<R>>, phase: Phase<R>, monitors: map<Metric, Live<S>>)

  datatype System<S, R> = System(
    workers: map<Series, Worker<S, R>>, rows: map<BaselineKey, Monitor<S>>, acked: set<nat>)

  datatype Step =
    | Dispatch(msg: nat)
    | Plan(series: Series, missing: set<Metric>)
    | Take(series: Series, count: nat)
    | FoldRow(series: Series, metric: Metric)
    | Save(series: Series, metric: Metric, fails: bool)
    | Ack(series: Series, lost: set<nat>)
    | Crash

  function RowFor<S>(empty: S, rows: map<BaselineKey, Monitor<S>>, key: BaselineKey): Monitor<S> {
    if key in rows then rows[key] else Monitor(empty, 0.0)
  }

  function WorkerOf<S, R>(sys: System<S, R>, series: Series): Worker<S, R> {
    if series in sys.workers then sys.workers[series] else Worker([], Starting, map[])
  }

  function Loaded<S, R>(empty: S, sys: System<S, R>, series: Series, missing: set<Metric>): map<Metric, Live<S>> {
    map metric | metric in Registry(series.kind) - missing ::
      Live(RowFor(empty, sys.rows, KeyOf(series, metric)), 0.0, 0, false)
  }

  function Begun<S>(monitors: map<Metric, Live<S>>): map<Metric, Live<S>> {
    map metric | metric in monitors :: Live(monitors[metric].monitor, monitors[metric].monitor.cursor, 0, false)
  }

  predicate AllSaved<S>(monitors: map<Metric, Live<S>>) {
    forall metric :: metric in monitors ==> monitors[metric].saved
  }

  function Messages<R>(batch: seq<Item<R>>): set<nat> {
    set i | 0 <= i < |batch| :: batch[i].msg
  }

  predicate CanSave<S, R>(w: Worker<S, R>, metric: Metric) {
    && w.phase.Folding? && metric in w.monitors
    && w.monitors[metric].folded == |w.phase.batch| && !w.monitors[metric].saved
  }

  /** What one step makes of the worker of its series. */
  function WorkerStep<S, R, F>(setup: Setup<S, R, F>, sys: System<S, R>, series: Series, step: Step): Worker<S, R> {
    var w := WorkerOf(sys, series);
    match step
    case Plan(_, missing) =>
      if w.phase.Starting? then w.(phase := Idle, monitors := Loaded(setup.empty, sys, series, missing)) else w
    case Take(_, count) =>
      if w.phase.Idle? && 0 < count <= |w.inbox| then
        Worker(w.inbox[count..], Folding(w.inbox[..count]), Begun(w.monitors))
      else w
    case FoldRow(_, metric) =>
      if w.phase.Folding? && metric in w.monitors && w.monitors[metric].folded < |w.phase.batch| then
        var live := w.monitors[metric];
        var row := w.phase.batch[live.folded].sample;
        w.(monitors := w.monitors[metric :=
             live.(monitor := FoldOne(setup.detect(metric), live.monitor, row), folded := live.folded + 1)])
      else w
    case Save(_, metric, _) =>
      if CanSave(w, metric) then w.(monitors := w.monitors[metric := w.monitors[metric].(saved := true)]) else w
    case Ack(_, _) =>
      if w.phase.Folding? && AllSaved(w.monitors) then w.(phase := Idle, monitors := Begun(w.monitors)) else w
    case _ => w
  }

  function RowsStep<S, R>(sys: System<S, R>, series: Series, step: Step): map<BaselineKey, Monitor<S>> {
    var w := WorkerOf(sys, series);
    if step.Save? && CanSave(w, step.metric) && !step.fails
       && w.monitors[step.metric].monitor.cursor > w.monitors[step.metric].start
    then sys.rows[KeyOf(series, step.metric) := w.monitors[step.metric].monitor]
    else sys.rows
  }

  function AckedStep<S, R>(sys: System<S, R>, series: Series, step: Step): set<nat> {
    var w := WorkerOf(sys, series);
    if step.Ack? && w.phase.Folding? && AllSaved(w.monitors) then sys.acked + (Messages(w.phase.batch) - step.lost)
    else sys.acked
  }

  function Next<S, R, F>(setup: Setup<S, R, F>, sys: System<S, R>, step: Step): System<S, R> {
    match step
    case Crash => sys.(workers := map[])
    case Dispatch(msg) =>
      if msg >= |setup.log| then sys
      else
        (match RouteOf(setup.log[msg])
         case Refused => sys.(acked := sys.acked + {msg})
         case Accepted(series, sample) =>
           var w := WorkerOf(sys, series);
           sys.(workers := sys.workers[series := w.(inbox := w.inbox + [Item(msg, sample)])]))
    case _ =>
      if step.series !in sys.workers then sys
      else System(sys.workers[step.series := WorkerStep(setup, sys, step.series, step)],
                  RowsStep(sys, step.series, step), AckedStep(sys, step.series, step))
  }

  function After<S, R, F>(
    setup: Setup<S, R, F>, rows: map<BaselineKey, Monitor<S>>, steps: seq<Step>): System<S, R>
  {
    if steps == [] then System(map[], rows, {})
    else Next(setup, After(setup, rows, steps[..|steps| - 1]), steps[|steps| - 1])
  }

  // ----------------------------------------------------------- single steps

  /** A message that is refused is acknowledged on the spot, and nothing else happens; any other is queued
      behind what its series has queued, and nothing is acknowledged or stored. */
  lemma DispatchQueuesOrAcks<S, R, F>(setup: Setup<S, R, F>, sys: System<S, R>, msg: nat)
    requires msg < |setup.log|
    ensures
      var sys', route := Next(setup, sys, Dispatch(msg)), RouteOf(setup.log[msg]);
      if route.Refused? then sys' == sys.(acked := sys.acked + {msg})
      else
        var w, series := WorkerOf(sys, route.series), route.series;
        && sys'.acked == sys.acked && sys'.rows == sys.rows && series in sys'.workers
        && sys'.workers == sys.workers[series := sys'.workers[series]]
        && sys'.workers[series].inbox == w.inbox + [Item(msg, route.sample)]
        && sys'.workers[series].phase == w.phase && sys'.workers[series].monitors == w.monitors
  {
    hide RouteOf;
  }

  /** A save that does not fail stores the monitor exactly if it has moved since the batch was taken, under
      its own agent, target, port, metric and detector. */
  lemma SaveWritesIff<S, R, F>(setup: Setup<S, R, F>, sys: System<S, R>, series: Series, metric: Metric, fails: bool)
    requires series in sys.workers && CanSave(sys.workers[series], metric)
    ensures
      var live := sys.workers[series].monitors[metric];
      var key := BaselineKey(series.serial, series.target, series.port, metric.name, metric.detector);
      Next(setup, sys, Save(series, metric, fails)).rows ==
      if !fails && live.start < live.monitor.cursor then sys.rows[key := live.monitor] else sys.rows
  {
  }

  /** A batch starts at the cursors its monitors have, and a lost acknowledgement is not one. */
  lemma BatchBeginsAndEnds<S, R, F>(
    setup: Setup<S, R, F>, sys: System<S, R>, series: Series, metric: Metric, count: nat, lost: set<nat>)
    requires series in sys.workers && metric in sys.workers[series].monitors
    ensures
      var w, w' := sys.workers[series], Next(setup, sys, Take(series, count)).workers[series];
      w.phase.Idle? && 0 < count <= |w.inbox| ==>
        && w'.phase == Folding(w.inbox[..count]) && w'.inbox == w.inbox[count..] && metric in w'.monitors
        && w'.monitors[metric].monitor == w.monitors[metric].monitor
        && w'.monitors[metric].start == w.monitors[metric].monitor.cursor
    ensures
      var w, sys' := sys.workers[series], Next(setup, sys, Ack(series, lost));
      forall msg :: msg in sys'.acked <==>
        msg in sys.acked || (w.phase.Folding? && AllSaved(w.monitors) && msg in Messages(w.phase.batch) && msg !in lost)
  {
  }

  // ------------------------------------------------------- whose row is it

  ghost predicate Routed<R>(log: seq<Message<R>>, series: Series) {
    exists i :: 0 <= i < |log| && RouteOf(log[i]).Accepted? && RouteOf(log[i]).series == series
  }

  /** No other monitor of a series in the log writes this monitor's baseline row. */
  ghost predicate Alone<R>(log: seq<Message<R>>, series: Series, metric: Metric) {
    forall series', metric' ::
      Routed(log, series') && metric' in Registry(series'.kind) && KeyOf(series', metric') == KeyOf(series, metric) ==>
        series' == series && metric' == metric
  }

  function Twin(series: Series): Series {
    Series(if series.kind.Ping? then Stamp else Ping, series.serial, series.target, 0, "")
  }

  lemma RoutedShape<R>(log: seq<Message<R>>, series: Series)
    requires Routed(log, series)
    ensures series.kind.Ping? ==> series.port == 0
    ensures !series.kind.Trace? ==> series.src == ""
  {
  }

  lemma SharedKey(series: Series, metric: Metric, series': Series, metric': Metric)
    requires metric in Registry(series.kind) && metric' in Registry(series'.kind)
    requires KeyOf(series', metric') == KeyOf(series, metric)
    requires series.src == "" && series'.src == "" && (series.kind.Ping? || series'.kind.Ping? ==> series.port == 0)
    ensures (series' == series && metric' == metric)
         || (metric.name == "rtt_p95_ns" && series.port == 0 && series' == Twin(series))
  {
  }

  /** Rows are shared exactly by the round-trip monitors of a ping series and of the STAMP series on
      port 0 of the same agent and target. */
  lemma AloneIff<R>(log: seq<Message<R>>, series: Series, metric: Metric)
    requires Routed(log, series) && metric in Registry(series.kind)
    ensures Alone(log, series, metric) <==>
      !(metric.name == "rtt_p95_ns" && series.port == 0 && Routed(log, Twin(series)))
  {
    RoutedShape(log, series);
    var twin := Twin(series);
    if metric.name == "rtt_p95_ns" && series.port == 0 && Routed(log, twin) {
      var metric' := Metric(twin.kind, "rtt_p95_ns", "EWMA");
      assert metric' in Registry(twin.kind) && KeyOf(twin, metric') == KeyOf(series, metric);
    } else {
      forall series', metric' | Routed(log, series') && metric' in Registry(series'.kind)
                                && KeyOf(series', metric') == KeyOf(series, metric)
        ensures series' == series && metric' == metric
      {
        RoutedShape(log, series');
        SharedKey(series, metric, series', metric');
      }
    }
  }

  ghost predicate WellRouted<S, R>(log: seq<Message<R>>, sys: System<S, R>) {
    forall series :: series in sys.workers ==>
      Routed(log, series) && sys.workers[series].monitors.Keys <= Registry(series.kind)
  }

  lemma StepKeepsRouted<S, R, F>(setup: Setup<S, R, F>, sys: System<S, R>, step: Step)
    requires WellRouted(setup.log, sys)
    ensures WellRouted(setup.log, Next(setup, sys, step))
  {
    hide KeyOf, FoldOne, Registry, RouteOf;
  }

  // --------------------------------------------------------- one monitor

  datatype Epoch<S, R> = Epoch(base: Monitor<S>, delivered: seq<Item<R>>)

  function Delivery<R>(log: seq<Message<R>>, series: Series, step: Step): seq<Item<R>> {
    if step.Dispatch? && step.msg < |log| && RouteOf(log[step.msg]).Accepted? && RouteOf(log[step.msg]).series == series
    then [Item(step.msg, RouteOf(log[step.msg]).sample)] else []
  }

  /** Since the last crash: the baseline row there was, and what was dispatched to the series. */
  function EpochAfter<S, R, F>(
    setup: Setup<S, R, F>, rows: map<BaselineKey, Monitor<S>>, series: Series, metric: Metric, steps: seq<Step>)
    : Epoch<S, R>
  {
    if steps == [] then Epoch(RowFor(setup.empty, rows, KeyOf(series, metric)), [])
    else
      var before := steps[..|steps| - 1];
      var step := steps[|steps| - 1];
      var e := EpochAfter(setup, rows, series, metric, before);
      if step.Crash? then Epoch(RowFor(setup.empty, After(setup, rows, before).rows, KeyOf(series, metric)), [])
      else e.(delivered := e.delivered + Delivery(setup.log, series, step))
  }

  function Samples<R>(items: seq<Item<R>>): (samples: seq<Sample<R>>)
    ensures |samples| == |items|
    ensures forall i :: 0 <= i < |items| ==> samples[i] == items[i].sample
  {
    seq(|items|, i requires 0 <= i < |items| => items[i].sample)
  }

  /** Dispatched but not yet acknowledged. */
  function Queue<S, R>(w: Worker<S, R>): seq<Item<R>> {
    (if w.phase.Folding? then w.phase.batch else []) + w.inbox
  }

  ghost predicate EndsWith<R>(all: seq<Item<R>>, end: seq<Item<R>>) {
    |end| <= |all| && all[|all| - |end|..] == end
  }

  function BatchSize<R>(phase: Phase<R>): nat {
    if phase.Folding? then |phase.batch| else 0
  }

  /** The monitor has folded all that was delivered but the queue, and the rows of the batch it got to. */
  ghost predicate Follows<S, R, F>(
    detect: (S, real, R) -> Outcome<S, F>, w: Worker<S, R>, live: Live<S>, e: Epoch<S, R>)
  {
    && |Queue(w)| <= |e.delivered|
    && live.folded <= BatchSize(w.phase)
    && (live.saved ==> live.folded == BatchSize(w.phase))
    && live.monitor == Fold(detect, e.base, Samples(e.delivered[..|e.delivered| - |Queue(w)| + live.folded]))
  }

  ghost predicate Tracks<S, R, F>(
    setup: Setup<S, R, F>, series: Series, metric: Metric, sys: System<S, R>, e: Epoch<S, R>)
  {
    var row := RowFor(setup.empty, sys.rows, KeyOf(series, metric));
    if series !in sys.workers then e.delivered == [] && row == e.base
    else
      var w := sys.workers[series];
      && EndsWith(e.delivered, Queue(w))
      && (w.phase.Starting? ==> row == e.base && w.monitors == map[] && |w.inbox| == |e.delivered|)
      && (metric in w.monitors ==> Follows(setup.detect(metric), w, w.monitors[metric], e))
  }

  lemma OneMoreSample<R>(items: seq<Item<R>>, n: nat)
    requires n < |items|
    ensures Samples(items[..n + 1]) == Samples(items[..n]) + [items[n].sample]
  {
  }

  lemma EndsWithLonger<R>(all: seq<Item<R>>, end: seq<Item<R>>, x: seq<Item<R>>)
    requires EndsWith(all, end)
    ensures EndsWith(all + x, end + x)
  {
    assert (all + x)[|all| - |end|..] == all[|all| - |end|..] + x;
  }

  lemma EmptyQueue<S, R>()
    ensures Queue(Worker<S, R>.Worker([], Starting, map[])) == [] && EndsWith<R>([], [])
  {
  }

  lemma QueueGrows<S, R>(w: Worker<S, R>, x: seq<Item<R>>)
    ensures Queue(w.(inbox := w.inbox + x)) == Queue(w) + x
  {
  }

  lemma FollowsLonger<S, R, F>(
    detect: (S, real, R) -> Outcome<S, F>, w: Worker<S, R>, live: Live<S>, e: Epoch<S, R>, x: seq<Item<R>>)
    requires Follows(detect, w, live, e)
    ensures Follows(detect, w.(inbox := w.inbox + x), live, e.(delivered := e.delivered + x))
  {
    hide Fold, Samples;
    PrefixOfLonger(e.delivered, x, |e.delivered| - |Queue(w)| + live.folded);
  }

  lemma DispatchTracks<S, R, F>(
    setup: Setup<S, R, F>, series: Series, metric: Metric, sys: System<S, R>, e: Epoch<S, R>, step: Step)
    requires step.Dispatch? && Tracks(setup, series, metric, sys, e)
    ensures
      var e' := e.(delivered := e.delivered + Delivery(setup.log, series, step));
      Tracks(setup, series, metric, Next(setup, sys, step), e')
  {
    hide RouteOf, Follows, EndsWith, Queue, RowFor, KeyOf;
    var x := Delivery(setup.log, series, step);
    if x == [] {
      assert e.delivered + x == e.delivered;
    } else {
      var w := WorkerOf(sys, series);
      var w' := w.(inbox := w.inbox + x);
      assert Next(setup, sys, step).workers[series] == w';
      EmptyQueue<S, R>();
      QueueGrows(w, x);
      EndsWithLonger(e.delivered, Queue(w), x);
      if metric in w.monitors {
        FollowsLonger(setup.detect(metric), w, w.monitors[metric], e, x);
      }
    }
  }

  lemma FoldRowFollows<S, R, F>(
    detect: (S, real, R) -> Outcome<S, F>, w: Worker<S, R>, live: Live<S>, live': Live<S>, e: Epoch<S, R>)
    requires Follows(detect, w, live, e) && EndsWith(e.delivered, Queue(w))
    requires w.phase.Folding? && live.folded < |w.phase.batch|
    requires
      var row := w.phase.batch[live.folded].sample;
      live' == live.(monitor := FoldOne(detect, live.monitor, row), folded := live.folded + 1)
    requires !live.saved
    ensures Follows(detect, w, live', e)
  {
    hide FoldOne;
    var at := |e.delivered| - |Queue(w)|;
    assert e.delivered[at..][live.folded] == Queue(w)[live.folded] == w.phase.batch[live.folded];
    OneMoreSample(e.delivered, at + live.folded);
    FoldAppends(detect, e.base, Samples(e.delivered[..at + live.folded]), e.delivered[at + live.folded].sample);
  }

  lemma DropFromEnd<R>(all: seq<Item<R>>, end: seq<Item<R>>, n: nat)
    requires EndsWith(all, end) && n <= |end|
    ensures EndsWith(all, end[n..])
  {
  }

  lemma PlanFollows<S, R, F>(detect: (S, real, R) -> Outcome<S, F>, w: Worker<S, R>, live: Live<S>, e: Epoch<S, R>)
    requires live.folded == 0 && !live.saved && !w.phase.Folding?
    requires |w.inbox| == |e.delivered| && live.monitor == e.base
    ensures Follows(detect, w, live, e)
  {
    assert Samples(e.delivered[..0]) == [];
  }

  /** The worker after a step, as seen by one monitor. */
  ghost predicate WorkerTracks<S, R, F>(
    setup: Setup<S, R, F>, metric: Metric, w: Worker<S, R>, w': Worker<S, R>, e: Epoch<S, R>)
  {
    && EndsWith(e.delivered, Queue(w'))
    && (w'.phase.Starting? ==> w' == w)
    && (metric in w'.monitors ==> Follows(setup.detect(metric), w', w'.monitors[metric], e))
  }

  lemma PlanTracks<S, R, F>(
    setup: Setup<S, R, F>, series: Series, metric: Metric, sys: System<S, R>, e: Epoch<S, R>, step: Step)
    requires Tracks(setup, series, metric, sys, e) && series in sys.workers && step.Plan?
    ensures WorkerTracks(setup, metric, sys.workers[series], WorkerStep(setup, sys, series, step), e)
  {
    hide Registry, KeyOf, Follows, RowFor;
    var w, w' := sys.workers[series], WorkerStep(setup, sys, series, step);
    if w.phase.Starting? && metric in w'.monitors {
      PlanFollows(setup.detect(metric), w', w'.monitors[metric], e);
    }
  }

  lemma TakeTracks<S, R, F>(
    setup: Setup<S, R, F>, series: Series, metric: Metric, sys: System<S, R>, e: Epoch<S, R>, step: Step)
    requires Tracks(setup, series, metric, sys, e) && series in sys.workers && step.Take?
    ensures WorkerTracks(setup, metric, sys.workers[series], WorkerStep(setup, sys, series, step), e)
  {
    hide Fold, Samples, KeyOf, RowFor;
    var w, w' := sys.workers[series], WorkerStep(setup, sys, series, step);
    if w.phase.Idle? && 0 < step.count <= |w.inbox| {
      assert w.inbox[..step.count] + w.inbox[step.count..] == w.inbox;
      assert Queue(w') == Queue(w);
    }
  }

  lemma FoldRowTracks<S, R, F>(
    setup: Setup<S, R, F>, series: Series, metric: Metric, sys: System<S, R>, e: Epoch<S, R>, step: Step)
    requires Tracks(setup, series, metric, sys, e) && series in sys.workers && step.FoldRow?
    ensures WorkerTracks(setup, metric, sys.workers[series], WorkerStep(setup, sys, series, step), e)
  {
    hide Fold, FoldOne, Samples, KeyOf, RowFor;
    var w, w' := sys.workers[series], WorkerStep(setup, sys, series, step);
    assert Queue(w') == Queue(w);
    if metric in w.monitors && step.metric == metric && w' != w {
      FoldRowFollows(setup.detect(metric), w, w.monitors[metric], w'.monitors[metric], e);
    }
  }

  lemma SaveTracks<S, R, F>(
    setup: Setup<S, R, F>, series: Series, metric: Metric, sys: System<S, R>, e: Epoch<S, R>, step: Step)
    requires Tracks(setup, series, metric, sys, e) && series in sys.workers && step.Save?
    ensures WorkerTracks(setup, metric, sys.workers[series], WorkerStep(setup, sys, series, step), e)
  {
    hide Fold, Samples, KeyOf, RowFor;
    assert Queue(WorkerStep(setup, sys, series, step)) == Queue(sys.workers[series]);
  }

  lemma AckTracks<S, R, F>(
    setup: Setup<S, R, F>, series: Series, metric: Metric, sys: System<S, R>, e: Epoch<S, R>, step: Step)
    requires Tracks(setup, series, metric, sys, e) && series in sys.workers && step.Ack?
    ensures WorkerTracks(setup, metric, sys.workers[series], WorkerStep(setup, sys, series, step), e)
  {
    hide Fold, Samples, KeyOf, RowFor;
    var w, w' := sys.workers[series], WorkerStep(setup, sys, series, step);
    if w' != w {
      assert Queue(w)[|w.phase.batch|..] == w.inbox;
      assert Queue(w') == w.inbox;
      DropFromEnd(e.delivered, Queue(w), |w.phase.batch|);
    }
  }

  lemma WorkerStepTracks<S, R, F>(
    setup: Setup<S, R, F>, series: Series, metric: Metric, sys: System<S, R>, e: Epoch<S, R>, step: Step)
    requires Tracks(setup, series, metric, sys, e) && series in sys.workers && !step.Dispatch? && !step.Crash?
    ensures WorkerTracks(setup, metric, sys.workers[series], WorkerStep(setup, sys, series, step), e)
  {
    hide Tracks, WorkerTracks, WorkerStep;
    match step {
      case Plan(_, _) => PlanTracks(setup, series, metric, sys, e, step);
      case Take(_, _) => TakeTracks(setup, series, metric, sys, e, step);
      case FoldRow(_, _) => FoldRowTracks(setup, series, metric, sys, e, step);
      case Save(_, _, _) => SaveTracks(setup, series, metric, sys, e, step);
      case Ack(_, _) => AckTracks(setup, series, metric, sys, e, step);
    }
  }

  /** A step of the workers leaves the row of a monitor alone unless it is that monitor's save. */
  lemma RowStays<S, R, F>(setup: Setup<S, R, F>, series: Series, metric: Metric, sys: System<S, R>, step: Step)
    requires WellRouted(setup.log, sys) && Alone(setup.log, series, metric)
    requires !(step.Save? && step.series == series && step.metric == metric
               && series in sys.workers && CanSave(sys.workers[series], metric))
    ensures RowFor(setup.empty, Next(setup, sys, step).rows, KeyOf(series, metric))
      == RowFor(setup.empty, sys.rows, KeyOf(series, metric))
  {
    hide Registry, Routed, RouteOf, WorkerStep, AckedStep;
  }

  lemma StepTracks<S, R, F>(
    setup: Setup<S, R, F>, series: Series, metric: Metric, sys: System<S, R>, e: Epoch<S, R>, step: Step)
    requires Tracks(setup, series, metric, sys, e) && !step.Crash? && metric in Registry(series.kind)
    requires WellRouted(setup.log, sys) && Alone(setup.log, series, metric)
    ensures
      var e' := e.(delivered := e.delivered + Delivery(setup.log, series, step));
      Tracks(setup, series, metric, Next(setup, sys, step), e')
  {
    hide Registry, Alone, WellRouted, Follows, EndsWith, Queue, WorkerStep, RowsStep, AckedStep, RowFor;
    if step.Dispatch? {
      DispatchTracks(setup, series, metric, sys, e, step);
    } else {
      assert e.delivered + Delivery(setup.log, series, step) == e.delivered;
      if series in sys.workers {
        WorkerStepTracks(setup, series, metric, sys, e, step);
        if sys.workers[series].phase.Starting? {
          RowStays(setup, series, metric, sys, step);
        }
      } else {
        RowStays(setup, series, metric, sys, step);
      }
    }
  }

  lemma NoWorkers<S, R, F>(setup: Setup<S, R, F>, rows: map<BaselineKey, Monitor<S>>)
    ensures WellRouted(setup.log, After(setup, rows, []))
  {
  }

  lemma CrashForgets<S, R, F>(setup: Setup<S, R, F>, sys: System<S, R>, key: BaselineKey)
    ensures Next(setup, sys, Crash).workers == map[]
    ensures RowFor(setup.empty, Next(setup, sys, Crash).rows, key) == RowFor(setup.empty, sys.rows, key)
  {
  }

  lemma {:induction false} EveryRunTracks<S, R, F>(
    setup: Setup<S, R, F>, rows: map<BaselineKey, Monitor<S>>, series: Series, metric: Metric, steps: seq<Step>)
    requires Alone(setup.log, series, metric) && metric in Registry(series.kind)
    ensures WellRouted(setup.log, After(setup, rows, steps))
    ensures Tracks(setup, series, metric, After(setup, rows, steps), EpochAfter(setup, rows, series, metric, steps))
  {
    hide Alone, WellRouted, Next, Registry, RowFor;
    if steps == [] {
      NoWorkers(setup, rows);
    } else {
      var before := steps[..|steps| - 1];
      var step := steps[|steps| - 1];
      EveryRunTracks(setup, rows, series, metric, before);
      var sys := After(setup, rows, before);
      StepKeepsRouted(setup, sys, step);
      if step.Crash? {
        CrashForgets(setup, sys, KeyOf(series, metric));
      } else {
        StepTracks(setup, series, metric, sys, EpochAfter(setup, rows, series, metric, before), step);
      }
    }
  }

  // --------------------------------------------------------- no crash at all

  /** The samples of a series among the messages dispatched by a run, in order. */
  function Dispatched<R>(log: seq<Message<R>>, series: Series, steps: seq<Step>): seq<Sample<R>> {
    if steps == [] then []
    else Dispatched(log, series, steps[..|steps| - 1]) + Samples(Delivery(log, series, steps[|steps| - 1]))
  }

  predicate Drained<S, R>(sys: System<S, R>, series: Series) {
    series in sys.workers ==> sys.workers[series].phase.Idle? && sys.workers[series].inbox == []
  }

  lemma {:induction false} DeliveredIsDispatched<S, R, F>(
    setup: Setup<S, R, F>, rows: map<BaselineKey, Monitor<S>>, series: Series, metric: Metric, steps: seq<Step>)
    requires forall i :: 0 <= i < |steps| ==> !steps[i].Crash?
    ensures var e := EpochAfter(setup, rows, series, metric, steps);
      && Samples(e.delivered) == Dispatched(setup.log, series, steps)
      && e.base == RowFor(setup.empty, rows, KeyOf(series, metric))
  {
    hide Delivery, Next, RowFor;
    if steps != [] {
      DeliveredIsDispatched(setup, rows, series, metric, steps[..|steps| - 1]);
    }
  }

  /** Whatever the order in which the router and the workers take turns, whatever the batches and
      whatever fails: when a worker has emptied its inbox, each of its monitors has the state and the
      cursor of one fold over the samples of its series, one at a time, in the order they were
      dispatched, starting from the baseline row that was there. */
  lemma ShardingIsSequential<S, R, F>(
    setup: Setup<S, R, F>, rows: map<BaselineKey, Monitor<S>>, series: Series, metric: Metric, steps: seq<Step>)
    requires Alone(setup.log, series, metric) && metric in Registry(series.kind)
    requires forall i :: 0 <= i < |steps| ==> !steps[i].Crash?
    requires var sys := After(setup, rows, steps);
      && Drained(sys, series) && series in sys.workers && metric in sys.workers[series].monitors
    ensures After(setup, rows, steps).workers[series].monitors[metric].monitor ==
      Fold(setup.detect(metric), RowFor(setup.empty, rows, KeyOf(series, metric)),
           Dispatched(setup.log, series, steps))
  {
    hide Alone, Registry, Fold, RowFor, Dispatched;
    EveryRunTracks(setup, rows, series, metric, steps);
    DeliveredIsDispatched(setup, rows, series, metric, steps);
    var e := EpochAfter(setup, rows, series, metric, steps);
    assert e.delivered[..|e.delivered|] == e.delivered;
  }

  // ------------------------------------------------------------ the objects

  /** What has come in by the t-th receive. */
  function Came<R>(arrivals: seq<seq<Item<R>>>, t: nat): seq<Item<R>> {
    Concat(if t <= |arrivals| then arrivals[..t] else arrivals)
  }

  lemma NothingCame<R>(arrivals: seq<seq<Item<R>>>)
    ensures Came(arrivals, 0) == []
  {
  }

  lemma MoreCame<R>(arrivals: seq<seq<Item<R>>>, t: nat)
    ensures Came(arrivals, t + 1) == Came(arrivals, t) + if t < |arrivals| then arrivals[t] else []
  {
    if t < |arrivals| {
      assert arrivals[..t + 1][..t] == arrivals[..t];
    } else {
      assert t == |arrivals| ==> arrivals[..t] == arrivals;
    }
  }

  /** A buffered channel; a receive that would block finds nothing. */
  class Inbox<R> {
    var items: seq<Item<R>>

    constructor ()
      ensures items == []
    {
      items := [];
    }

    method TryReceive() returns (item: Option<Item<R>>)
      modifies this
      ensures old(items) == [] ==> item == None && items == []
      ensures old(items) != [] ==> item == Some(old(items)[0]) && items == old(items)[1..]
    {
      if items == [] {
        return None;
      }
      item, items := Some(items[0]), items[1..];
    }

    method Arrive(more: seq<Item<R>>)
      modifies this
      ensures items == old(items) + more
    {
      items := items + more;
    }

    /** The first item and all that are queued behind it, in order, with those that come meanwhile: `arrivals`
        lists what comes in before each receive. It goes on while there is something to receive, and none is
        left behind or lost. */
    method Drain(first: Item<R>, arrivals: seq<seq<Item<R>>>) returns (batch: seq<Item<R>>)
      modifies this
      ensures batch == [first] + (old(items) + Came(arrivals, |batch|)) && items == []
      ensures forall t :: 0 < t < |batch| ==> t <= |old(items) + Came(arrivals, t)|
    {
      hide Concat;
      batch := [first];
      ghost var got: seq<Item<R>> := [];
      ghost var queued := items;
      assert Came(arrivals, 0) == [] by {
        NothingCame(arrivals);
      }
      while true
        invariant batch == [first] + got && got + items == queued + Came(arrivals, |got|)
        invariant forall t :: 0 < t <= |got| ==> t <= |queued + Came(arrivals, t)|
        decreases if |got| < |arrivals| then |arrivals| - |got| else 0, |items|
      {
        ghost var turn, before := |got|, items;
        var more := if |batch| <= |arrivals| then arrivals[|batch| - 1] else [];
        Arrive(more);
        assert got + items == queued + Came(arrivals, turn + 1) by {
          MoreCame(arrivals, turn);
          Regroup(got, before, more);
          Regroup(queued, Came(arrivals, turn), more);
        }
        var item := TryReceive();
        if item.None? {
          return;
        }
        batch := batch + [item.value];
        got := got + [item.value];
      }
    }
  }

  /** Inboxes are kept by their contents; `started` lists the workers launched, in order. */
  class Router<R> {
    var routes: map<Series, seq<Item<R>>>
    var started: seq<Series>
    var terminated: set<nat>

    /** One worker per inbox: no series ever gets a second one. */
    ghost predicate Valid()
      reads this
    {
      && (forall i :: 0 <= i < |started| ==> started[i] in routes)
      && (forall series :: series in routes ==> series in started)
      && forall i, j :: 0 <= i < j < |started| ==> started[i] != started[j]
    }

    constructor ()
      ensures Valid() && routes == map[] && started == [] && terminated == {}
    {
      routes, started, terminated := map[], [], {};
    }

    function InboxOf(series: Series): seq<Item<R>>
      reads this
    {
      if series in routes then routes[series] else []
    }

    method Dispatch(id: nat, msg: Message<R>)
      requires Valid()
      modifies this
      ensures Valid()
      ensures RouteOf(msg).Refused? ==>
        routes == old(routes) && started == old(started) && terminated == old(terminated) + {id}
      ensures RouteOf(msg).Accepted? ==>
        var series := RouteOf(msg).series;
        && terminated == old(terminated)
        && started == old(started) + (if series in old(routes) then [] else [series])
        && routes == old(routes)[series := old(InboxOf(series)) + [Item(id, RouteOf(msg).sample)]]
    {
      match msg {
        case Unreadable =>
          terminated := terminated + {id};
        case Measurement(probe, serial, target, port, src, ts, metrics) =>
          var series := SeriesFromEvent(probe, serial, target, port, src);
          if series.None? || metrics.None? {
            terminated := terminated + {id};
            return;
          }
          if series.value !in routes {
            routes := routes[series.value := []];
            started := started + [series.value];
          }
          routes := routes[series.value := routes[series.value] + [Item(id, Sample(ts, metrics.value))]];
      }
    }
  }
}
