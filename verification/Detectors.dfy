/**
 The two detectors behind the monitors (services/argus/registry.go, services/argus/ewma.go,
 services/argus/betab.go): how a metric is read out of a row, and what a detector refuses. What they
 report is a parameter here. With them the theorems about folding, routing and recovery speak of moving
 averages and of packet counts.
 */
module Detectors {
  import opened Options
  import opened MonitorFold
  import opened Routing
  import opened Recovery
  import opened Replay
  import Ewma
  import BetaBinomial

  /** The metrics of a measurement; those of a trace have no detector. */
  datatype Row =
    | PingRow(rtt: int, sent: int, received: int)
    | StampRow(forward: int, backward: int, rtt: int, sent: int, received: int)
    | TraceRow

  datatype Reading = Latency(value: real) | Loss(sent: int, received: int)

  /** Stored states: nothing yet, or what a detector wrote. */
  datatype Baseline = Empty | Average(ewma: Ewma.EwmaState) | Counts(loss: BetaBinomial.LossState)

  function KindOf(row: Row): Kind {
    match row
    case PingRow(_, _, _) => Ping
    case StampRow(_, _, _, _, _) => Stamp
    case TraceRow => Trace
  }

  function Extract(metric: Metric, row: Row): Option<Reading> {
    if metric.kind != KindOf(row) then None
    else
      match row
      case PingRow(rtt, sent, received) =>
        if metric.name == "rtt_p95_ns" then Some(Latency(rtt as real))
        else if metric.name == "packet_loss_percent" then Some(Loss(sent, received))
        else None
      case StampRow(forward, backward, rtt, sent, received) =>
        if metric.name == "fwd_p95_ns" then Some(Latency(forward as real))
        else if metric.name == "bwd_p95_ns" then Some(Latency(backward as real))
        else if metric.name == "rtt_p95_ns" then Some(Latency(rtt as real))
        else if metric.name == "loss" then Some(Loss(sent, received))
        else None
      case TraceRow => None
  }

  /** States are read by the names of their fields; a field that is not there is zero. */
  function AsAverage(b: Baseline): Ewma.EwmaState {
    match b
    case Empty => Ewma.NEW_STATE
    case Average(st) => st
    case Counts(st) => Ewma.EwmaState(0.0, 0.0, st.n, st.lastSeen)
  }

  function AsCounts(b: Baseline): BetaBinomial.LossState {
    match b
    case Empty => BetaBinomial.NEW_STATE
    case Average(st) => BetaBinomial.LossState(0, 0, st.n, st.lastSeen)
    case Counts(st) => st
  }

  /** One sample through a detector, or None if it wants another type of value. */
  function StepBaseline(
    cfg: Ewma.EwmaConfig, detector: string, b: Baseline, ts: real, reading: Reading): Option<Baseline>
  {
    if detector == "EWMA" then
      if reading.Latency? then Some(Average(Ewma.Fold(cfg, AsAverage(b), ts, reading.value))) else None
    else if detector == "BETA" then
      if reading.Loss? then Some(Counts(BetaBinomial.Fold(AsCounts(b), ts, reading.sent, reading.received))) else None
    else None
  }

  type Judge<F> = (Metric, Baseline, real, Reading) -> Option<F>

  function Detect<F>(
    cfg: Ewma.EwmaConfig, judge: Judge<F>, metric: Metric, b: Baseline, ts: real, row: Row): Outcome<Baseline, F>
  {
    match Extract(metric, row)
    case None => Failed
    case Some(reading) =>
      match StepBaseline(cfg, metric.detector, b, ts, reading)
      case None => Failed
      case Some(next) => Stepped(next, judge(metric, b, ts, reading))
  }

  function Detector<F>(
    cfg: Ewma.EwmaConfig, judge: Judge<F>, metric: Metric): (Baseline, real, Row) -> Outcome<Baseline, F>
  {
    (b, ts, row) => Detect(cfg, judge, metric, b, ts, row)
  }

  function Deployed<F>(
    cfg: Ewma.EwmaConfig, judge: Judge<F>, log: seq<Message<Row>>): Setup<Baseline, Row, F>
  {
    Setup(metric => Detector(cfg, judge, metric), Empty, log)
  }

  // ------------------------------------------------------------- what is refused

  /** A registered metric cannot be read exactly in the rows of other probes, whatever the state. */
  lemma RefusedIff<F>(
    cfg: Ewma.EwmaConfig, judge: Judge<F>, metric: Metric, b: Baseline, ts: real, row: Row)
    requires metric in Registry(metric.kind)
    ensures Detector(cfg, judge, metric)(b, ts, row).Failed? <==> KindOf(row) != metric.kind
  {
  }

  /** Whatever the metric, whether a sample can be folded does not depend on the state. */
  lemma DetectorsFailByRow<F>(cfg: Ewma.EwmaConfig, judge: Judge<F>, metric: Metric)
    ensures FailsByRow(Detector(cfg, judge, metric))
  {
    forall b: Baseline, b': Baseline, ts, row | Detector(cfg, judge, metric)(b, ts, row).Failed?
      ensures Detector(cfg, judge, metric)(b', ts, row).Failed?
    {
    }
  }

  // --------------------------------------------------------- what a row contains

  /** The latencies read out of samples, as the detector gets them. */
  function History(metric: Metric, samples: seq<Sample<Row>>): seq<Ewma.Sample> {
    if samples == [] then []
    else
      var n := |samples| - 1;
      var reading := Extract(metric, samples[n].row);
      History(metric, samples[..n]) +
      if reading.Some? && reading.value.Latency? then [Ewma.Sample(samples[n].ts, reading.value.value)] else []
  }

  lemma {:induction false} ShortHistory(metric: Metric, samples: seq<Sample<Row>>)
    ensures |History(metric, samples)| <= |samples|
  {
    if samples != [] {
      ShortHistory(metric, samples[..|samples| - 1]);
    }
  }

  /** Each reading is the field of the row that the metric is named after. */
  ghost predicate ReadsField(metric: Metric, sample: Sample<Row>, reading: Ewma.Sample) {
    && reading.ts == sample.ts
    && (metric.name == "rtt_p95_ns" ==> !sample.row.TraceRow? && reading.value == sample.row.rtt as real)
    && (metric.name == "fwd_p95_ns" ==> sample.row.StampRow? && reading.value == sample.row.forward as real)
    && (metric.name == "bwd_p95_ns" ==> sample.row.StampRow? && reading.value == sample.row.backward as real)
  }

  lemma ReadingIsField(metric: Metric, sample: Sample<Row>)
    requires Extract(metric, sample.row).Some? && Extract(metric, sample.row).value.Latency?
    ensures ReadsField(metric, sample, Ewma.Sample(sample.ts, Extract(metric, sample.row).value.value))
  {
  }

  lemma LastReadsField(metric: Metric, samples: seq<Sample<Row>>)
    requires samples != [] && |History(metric, samples)| == |samples|
    ensures
      var n, h := |samples| - 1, History(metric, samples);
      h[..n] == History(metric, samples[..n]) && ReadsField(metric, samples[n], h[n])
  {
    hide Extract, ReadsField;
    var n := |samples| - 1;
    ShortHistory(metric, samples[..n]);
    ReadingIsField(metric, samples[n]);
  }

  lemma {:induction false} HistoryReadsFields(metric: Metric, samples: seq<Sample<Row>>)
    requires |History(metric, samples)| == |samples|
    ensures forall i :: 0 <= i < |samples| ==> ReadsField(metric, samples[i], History(metric, samples)[i])
  {
    hide History, ReadsField;
    if samples != [] {
      var n := |samples| - 1;
      LastReadsField(metric, samples);
      HistoryReadsFields(metric, samples[..n]);
      forall i | 0 <= i < n ensures ReadsField(metric, samples[i], History(metric, samples)[i]) {
        assert samples[..n][i] == samples[i];
        assert History(metric, samples)[..n][i] == History(metric, samples)[i];
      }
    }
  }

  lemma {:induction false} StepsAverage<F>(
    cfg: Ewma.EwmaConfig, judge: Judge<F>, metric: Metric, samples: seq<Sample<Row>>)
    requires metric.detector == "EWMA"
    ensures
      var m := StepAll(Detector(cfg, judge, metric), Monitor(Empty, 0.0), samples);
      m.Some? ==>
        |History(metric, samples)| == |samples|
        && AsAverage(m.value.state) == Ewma.After(cfg, History(metric, samples))
        && (samples == [] ==> m.value.state.Empty?) && (samples != [] ==> m.value.state.Average?)
  {
    if samples != [] {
      var n := |samples| - 1;
      StepsAverage(cfg, judge, metric, samples[..n]);
      var h := History(metric, samples);
      if |h| > 0 {
        assert h[..|h| - 1] + [h[|h| - 1]] == h;
      }
    }
  }

  /** The packets of the measurements that were sent and did not come back. */
  function TotalLost(samples: seq<Sample<Row>>): nat {
    if samples == [] then 0
    else
      var n := |samples| - 1;
      var row := samples[n].row;
      TotalLost(samples[..n]) + if !row.TraceRow? && row.sent > row.received then row.sent - row.received else 0
  }

  function TotalReceived(samples: seq<Sample<Row>>): int {
    if samples == [] then 0
    else
      var n := |samples| - 1;
      var row := samples[n].row;
      TotalReceived(samples[..n]) + if row.TraceRow? then 0 else row.received
  }

  lemma {:induction false} StepsCount<F>(
    cfg: Ewma.EwmaConfig, judge: Judge<F>, metric: Metric, samples: seq<Sample<Row>>)
    requires metric.detector == "BETA"
    ensures
      var m := StepAll(Detector(cfg, judge, metric), Monitor(Empty, 0.0), samples);
      m.Some? ==>
        var counts := AsCounts(m.value.state);
        && counts.lost == TotalLost(samples) && counts.received == TotalReceived(samples)
        && counts.n == |samples| && !m.value.state.Average?
  {
    if samples != [] {
      StepsCount(cfg, judge, metric, samples[..|samples| - 1]);
    }
  }

  /** What is stored for a metric of a series that had no row, after any run. */
  ghost function StoredRow<F>(
    cfg: Ewma.EwmaConfig, judge: Judge<F>, log: seq<Message<Row>>, rows: map<BaselineKey, Monitor<Baseline>>,
    series: Series, metric: Metric, steps: seq<Step>): Monitor<Baseline>
  {
    RowFor(Empty, After(Deployed(cfg, judge, log), rows, steps).rows, KeyOf(series, metric))
  }

  lemma EnteredSamples<F>(
    cfg: Ewma.EwmaConfig, judge: Judge<F>, log: seq<Message<Row>>, rows: map<BaselineKey, Monitor<Baseline>>,
    series: Series, metric: Metric, steps: seq<Step>) returns (entered: seq<Sample<Row>>)
    requires Alone(log, series, metric) && metric in Registry(series.kind) && KeyOf(series, metric) !in rows
    ensures Increasing(entered) && AllInLog(log, series, entered)
    ensures StepAll(Detector(cfg, judge, metric), Monitor(Empty, 0.0), entered) ==
      Some(StoredRow(cfg, judge, log, rows, series, metric, steps))
  {
    hide Alone, Registry, AllInLog, After, StepAll, Increasing, Detector;
    var setup := Deployed(cfg, judge, log);
    EachSampleEntersOnce(setup, rows, series, metric, steps);
    var row := StoredRow(cfg, judge, log, rows, series, metric, steps);
    entered :| Entered(setup.detect(metric), Monitor(Empty, 0.0), entered, row) && AllInLog(log, series, entered);
  }

  /** Over any run, with crashes, faults, redelivery and republication: a stored latency baseline is the moving
      average of samples of its series, each taken in once and in order of time. */
  lemma StoredAverage<F>(
    cfg: Ewma.EwmaConfig, judge: Judge<F>, log: seq<Message<Row>>, rows: map<BaselineKey, Monitor<Baseline>>,
    series: Series, metric: Metric, steps: seq<Step>) returns (entered: seq<Sample<Row>>)
    requires Alone(log, series, metric) && metric in Registry(series.kind) && metric.detector == "EWMA"
    requires KeyOf(series, metric) !in rows
    ensures Increasing(entered) && AllInLog(log, series, entered) && |History(metric, entered)| == |entered|
    ensures forall i :: 0 <= i < |entered| ==> ReadsField(metric, entered[i], History(metric, entered)[i])
    ensures
      var state := StoredRow(cfg, judge, log, rows, series, metric, steps).state;
      if entered == [] then state == Empty else state == Average(Ewma.After(cfg, History(metric, entered)))
  {
    hide Alone, Registry, AllInLog, After, StepAll, Increasing, Detector, StoredRow;
    entered := EnteredSamples(cfg, judge, log, rows, series, metric, steps);
    StepsAverage(cfg, judge, metric, entered);
    HistoryReadsFields(metric, entered);
  }

  /** The same for losses: what is stored are the totals of the samples taken in. */
  lemma StoredCounts<F>(
    cfg: Ewma.EwmaConfig, judge: Judge<F>, log: seq<Message<Row>>, rows: map<BaselineKey, Monitor<Baseline>>,
    series: Series, metric: Metric, steps: seq<Step>) returns (entered: seq<Sample<Row>>)
    requires Alone(log, series, metric) && metric in Registry(series.kind) && metric.detector == "BETA"
    requires KeyOf(series, metric) !in rows
    ensures Increasing(entered) && AllInLog(log, series, entered)
    ensures
      var counts := AsCounts(StoredRow(cfg, judge, log, rows, series, metric, steps).state);
      && counts.lost == TotalLost(entered) && counts.received == TotalReceived(entered)
      && counts.n == |entered|
  {
    hide Alone, Registry, AllInLog, After, StepAll, Increasing, Detector, StoredRow;
    entered := EnteredSamples(cfg, judge, log, rows, series, metric, steps);
    StepsCount(cfg, judge, metric, entered);
  }

  /** Every reading of the metric in the log lies within the bounds. */
  ghost predicate ReadingsWithin(log: seq<Message<Row>>, series: Series, metric: Metric, lo: real, hi: real) {
    forall j: nat :: RoutedTo(log, series, j) ==>
      var reading := Extract(metric, RouteOf(log[j]).sample.row);
      reading.Some? && reading.value.Latency? ==> lo <= reading.value.value <= hi
  }

  lemma {:induction false} HistoryWithin(
    log: seq<Message<Row>>, series: Series, metric: Metric, samples: seq<Sample<Row>>, lo: real, hi: real)
    requires ReadingsWithin(log, series, metric, lo, hi) && AllInLog(log, series, samples)
    ensures Ewma.Within(History(metric, samples), lo, hi)
  {
    if samples != [] {
      var n := |samples| - 1;
      HistoryWithin(log, series, metric, samples[..n], lo, hi);
      assert InLog(log, series, samples[n]);
    }
  }

  /** Over any run, whatever crashes or fails: a stored mean lies within the bounds of the readings in the
      log, and the stored variance is not negative and at most (hi - mean) * (mean - lo). */
  lemma StoredMeanIsWithin<F>(
    cfg: Ewma.EwmaConfig, judge: Judge<F>, log: seq<Message<Row>>, rows: map<BaselineKey, Monitor<Baseline>>,
    series: Series, metric: Metric, steps: seq<Step>, lo: real, hi: real)
    requires Alone(log, series, metric) && metric in Registry(series.kind) && metric.detector == "EWMA"
    requires KeyOf(series, metric) !in rows && 0.0 < cfg.alpha < 1.0
    requires ReadingsWithin(log, series, metric, lo, hi)
    ensures
      var state := StoredRow(cfg, judge, log, rows, series, metric, steps).state;
      state == Empty || (state.Average? && Ewma.Spread(lo, hi, state.ewma.mean, state.ewma.variance))
  {
    hide Alone, Registry, AllInLog, Increasing, StoredRow, ReadingsWithin, Ewma.Spread, Ewma.After, Ewma.Within;
    var entered := StoredAverage(cfg, judge, log, rows, series, metric, steps);
    if entered != [] {
      HistoryWithin(log, series, metric, entered, lo, hi);
      Ewma.SpreadIsBounded(cfg, History(metric, entered), lo, hi);
    }
  }

  /** The delays in the STAMP rows, or the round trips, that the log has for the series. */
  ghost predicate ForwardWithin(log: seq<Message<Row>>, series: Series, lo: real, hi: real) {
    forall j: nat :: RoutedTo(log, series, j) ==>
      var row := RouteOf(log[j]).sample.row;
      row.StampRow? ==> lo <= row.forward as real <= hi
  }

  ghost predicate BackwardWithin(log: seq<Message<Row>>, series: Series, lo: real, hi: real) {
    forall j: nat :: RoutedTo(log, series, j) ==>
      var row := RouteOf(log[j]).sample.row;
      row.StampRow? ==> lo <= row.backward as real <= hi
  }

  ghost predicate RoundTripsWithin(log: seq<Message<Row>>, series: Series, lo: real, hi: real) {
    forall j: nat :: RoutedTo(log, series, j) ==>
      var row := RouteOf(log[j]).sample.row;
      !row.TraceRow? ==> lo <= row.rtt as real <= hi
  }

  ghost predicate IsSpread(b: Baseline, lo: real, hi: real) {
    b == Empty || (b.Average? && Ewma.Spread(lo, hi, b.ewma.mean, b.ewma.variance))
  }

  /** The stored mean of forward delays lies within the forward delays of the log, and so on for each metric. */
  lemma StoredForwardMean<F>(
    cfg: Ewma.EwmaConfig, judge: Judge<F>, log: seq<Message<Row>>, rows: map<BaselineKey, Monitor<Baseline>>,
    series: Series, steps: seq<Step>, lo: real, hi: real)
    requires series.kind == Stamp && Alone(log, series, Metric(Stamp, "fwd_p95_ns", "EWMA"))
    requires KeyOf(series, Metric(Stamp, "fwd_p95_ns", "EWMA")) !in rows && 0.0 < cfg.alpha < 1.0
    requires ForwardWithin(log, series, lo, hi)
    ensures IsSpread(StoredRow(cfg, judge, log, rows, series, Metric(Stamp, "fwd_p95_ns", "EWMA"), steps).state, lo, hi)
  {
    hide Alone, StoredRow, RoutedTo, Ewma.Spread;
    StoredMeanIsWithin(cfg, judge, log, rows, series, Metric(Stamp, "fwd_p95_ns", "EWMA"), steps, lo, hi);
  }

  lemma StoredBackwardMean<F>(
    cfg: Ewma.EwmaConfig, judge: Judge<F>, log: seq<Message<Row>>, rows: map<BaselineKey, Monitor<Baseline>>,
    series: Series, steps: seq<Step>, lo: real, hi: real)
    requires series.kind == Stamp && Alone(log, series, Metric(Stamp, "bwd_p95_ns", "EWMA"))
    requires KeyOf(series, Metric(Stamp, "bwd_p95_ns", "EWMA")) !in rows && 0.0 < cfg.alpha < 1.0
    requires BackwardWithin(log, series, lo, hi)
    ensures IsSpread(StoredRow(cfg, judge, log, rows, series, Metric(Stamp, "bwd_p95_ns", "EWMA"), steps).state, lo, hi)
  {
    hide Alone, StoredRow, RoutedTo, Ewma.Spread;
    StoredMeanIsWithin(cfg, judge, log, rows, series, Metric(Stamp, "bwd_p95_ns", "EWMA"), steps, lo, hi);
  }

  lemma StoredRoundTripMean<F>(
    cfg: Ewma.EwmaConfig, judge: Judge<F>, log: seq<Message<Row>>, rows: map<BaselineKey, Monitor<Baseline>>,
    series: Series, steps: seq<Step>, lo: real, hi: real)
    requires series.kind != Trace && Alone(log, series, Metric(series.kind, "rtt_p95_ns", "EWMA"))
    requires KeyOf(series, Metric(series.kind, "rtt_p95_ns", "EWMA")) !in rows && 0.0 < cfg.alpha < 1.0
    requires RoundTripsWithin(log, series, lo, hi)
    ensures
      IsSpread(StoredRow(cfg, judge, log, rows, series, Metric(series.kind, "rtt_p95_ns", "EWMA"), steps).state, lo, hi)
  {
    hide Alone, StoredRow, RoutedTo, Ewma.Spread;
    StoredMeanIsWithin(cfg, judge, log, rows, series, Metric(series.kind, "rtt_p95_ns", "EWMA"), steps, lo, hi);
  }

  /** With these detectors the replay theorem needs no assumption about what they refuse. */
  lemma DeployedReplayIsCrashFree<F>(
    cfg: Ewma.EwmaConfig, judge: Judge<F>, log: seq<Message<Row>>, rows: map<BaselineKey, Monitor<Baseline>>,
    series: Series, metric: Metric, steps: seq<Step>)
    requires Alone(log, series, metric) && metric in Registry(series.kind)
    requires Recoverable(Deployed(cfg, judge, log), rows, series, metric, steps)
    requires
      var setup := Deployed(cfg, judge, log);
      AllArrived(log, series, After(setup, rows, steps), EpochAfter(setup, rows, series, metric, steps))
    ensures
      var setup := Deployed(cfg, judge, log);
      var sys, e := After(setup, rows, steps), EpochAfter(setup, rows, series, metric, steps);
      var row := RowFor(Empty, sys.rows, KeyOf(series, metric));
      row == CrashFree(setup, series, metric, RowFor(Empty, rows, KeyOf(series, metric)), |log|) <==>
      Covers(setup, series, metric, row, sys.acked + Messages(e.delivered))
  {
    hide Alone, Registry, Recoverable, AllArrived, After, EpochAfter, Covers, CrashFree, FailsByRow, Detector;
    DetectorsFailByRow(cfg, judge, metric);
    ReplayGivesCrashFreeBaseline(Deployed(cfg, judge, log), rows, series, metric, steps);
  }
}
