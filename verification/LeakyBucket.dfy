/**
 The leaky bucket behind every alarm: a score that leaks at a constant rate and
 is raised by each finding (services/argus/leaky_bucket.go).

 Scores are reals. Times are seconds since Go's zero time, so the zero
 `time.Time` of a new bucket is 0.0.
 */
module LeakyBucket {
  import opened Reals

  datatype BucketConfig = BucketConfig(open: real, close: real, decay: real)

  datatype BucketState = BucketState(score: real, updatedAt: real)

  datatype BucketUpdate = BucketUpdate(
    newState: BucketState, contribution: real, crossedOpen: bool, crossedClose: bool)

  const EMPTY_BUCKET := BucketState(0.0, 0.0)

  function Loss(decay: real, elapsed: real): real {
    decay * elapsed
  }

  function Leaked(cfg: BucketConfig, state: BucketState, ts: real): real {
    Max(0.0, state.score - Loss(cfg.decay, ts - state.updatedAt))
  }

  /** A finding arrives. It can only raise the leaked score, so it never crosses close. */
  function Add(cfg: BucketConfig, state: BucketState, value: real, ts: real): (u: BucketUpdate)
    ensures !u.crossedClose
    ensures u.crossedOpen ==> u.newState.score >= cfg.open
  {
    var leaked := Leaked(cfg, state, ts);
    var score := leaked + Abs(value);
    BucketUpdate(
      BucketState(score, ts), Abs(value),
      leaked < cfg.open && score >= cfg.open,
      leaked >= cfg.close && score < cfg.close)
  }

  /** Time passes without a finding. */
  function Decay(cfg: BucketConfig, state: BucketState, ts: real): BucketUpdate {
    var leaked := Leaked(cfg, state, ts);
    BucketUpdate(
      BucketState(leaked, ts), 0.0, false,
      state.score >= cfg.close && leaked < cfg.close)
  }

  // ---------------------------------------------------------------- one step

  /** The score grows by the size of the value, whatever its sign; only the way up over the open threshold, and
      only the way down over the close threshold, is a crossing. */
  lemma UpdatesSay(cfg: BucketConfig, state: BucketState, value: real, ts: real)
    ensures
      var up, down := Add(cfg, state, value, ts), Decay(cfg, state, ts);
      && up.contribution >= 0.0 && up.contribution in {value, -value} && down.contribution == 0.0
      && up.newState == BucketState(down.newState.score + up.contribution, ts) && down.newState.updatedAt == ts
      && (up.crossedOpen <==> down.newState.score < cfg.open <= up.newState.score) && !up.crossedClose
      && (down.crossedClose <==> down.newState.score < cfg.close <= state.score) && !down.crossedOpen
  {
    hide Leaked;
  }

  lemma LeakSplits(decay: real, t0: real, t1: real, t2: real)
    ensures Loss(decay, t2 - t0) == Loss(decay, t1 - t0) + Loss(decay, t2 - t1)
  {
  }

  lemma LeakIsNonNegative(decay: real, elapsed: real)
    requires decay >= 0.0 && elapsed >= 0.0
    ensures Loss(decay, elapsed) >= 0.0
  {
  }

  /** Between t0 and t1 the score loses at most decay * (t1 - t0), and never grows. */
  lemma LeakBounds(cfg: BucketConfig, state: BucketState, ts: real)
    requires cfg.decay >= 0.0 && state.score >= 0.0 && state.updatedAt <= ts
    ensures 0.0 <= Leaked(cfg, state, ts) <= state.score
    ensures Leaked(cfg, state, ts) >= state.score - Loss(cfg.decay, ts - state.updatedAt)
  {
    hide Loss;
    LeakIsNonNegative(cfg.decay, ts - state.updatedAt);
  }

  /** Leaking twice is leaking once, as long as time moves forward. */
  lemma LeakComposes(cfg: BucketConfig, state: BucketState, t1: real, t2: real)
    requires cfg.decay >= 0.0 && state.score >= 0.0
    requires state.updatedAt <= t1 <= t2
    ensures Leaked(cfg, Decay(cfg, state, t1).newState, t2) == Leaked(cfg, state, t2)
  {
    hide Loss;
    LeakSplits(cfg.decay, state.updatedAt, t1, t2);
    LeakIsNonNegative(cfg.decay, t2 - t1);
  }

  // ------------------------------------------------------------- closed form

  datatype Hit = Hit(severity: real, ts: real)

  ghost predicate Ordered(hits: seq<Hit>) {
    && (|hits| > 0 ==> hits[0].ts >= 0.0)
    && forall i :: 0 < i < |hits| ==> hits[i - 1].ts <= hits[i].ts
  }

  /** The bucket after a sequence of findings, starting from the empty bucket. */
  function Fill(cfg: BucketConfig, hits: seq<Hit>): BucketState {
    if hits == [] then EMPTY_BUCKET
    else
      var n := |hits| - 1;
      Add(cfg, Fill(cfg, hits[..n]), hits[n].severity, hits[n].ts).newState
  }

  /** Total severity of the findings from index i on. */
  function SeverityFrom(hits: seq<Hit>, i: nat): real
    requires i <= |hits|
  {
    if i == |hits| then 0.0
    else SeverityFrom(hits[..|hits| - 1], i) + Abs(hits[|hits| - 1].severity)
  }

  /** What the findings from index i on would leave in a bucket that was empty before them
      and never ran dry since. */
  function SuffixScore(cfg: BucketConfig, hits: seq<Hit>, i: nat): real
    requires i < |hits|
  {
    SeverityFrom(hits, i) - Loss(cfg.decay, hits[|hits| - 1].ts - hits[i].ts)
  }

  /** How the score leaks between the last two findings. */
  function LastDrop(cfg: BucketConfig, hits: seq<Hit>): real
    requires |hits| >= 2
  {
    Loss(cfg.decay, hits[|hits| - 1].ts - hits[|hits| - 2].ts)
  }

  lemma SuffixScoreExtends(cfg: BucketConfig, hits: seq<Hit>, i: nat)
    requires i + 1 < |hits|
    ensures
      var n := |hits| - 1;
      SuffixScore(cfg, hits, i)
      == SuffixScore(cfg, hits[..n], i) - LastDrop(cfg, hits) + Abs(hits[n].severity)
  {
    hide Loss, Abs;
    var n := |hits| - 1;
    LeakSplits(cfg.decay, hits[i].ts, hits[n - 1].ts, hits[n].ts);
  }

  lemma LastSuffix(cfg: BucketConfig, hits: seq<Hit>)
    requires hits != []
    ensures SuffixScore(cfg, hits, |hits| - 1) == Abs(hits[|hits| - 1].severity)
  {
    var n := |hits| - 1;
    assert SeverityFrom(hits[..n], n) == 0.0;
    assert Loss(cfg.decay, hits[n].ts - hits[n].ts) == 0.0;
  }

  ghost predicate IsMaximum(m: real, values: seq<real>, k: nat) {
    && k < |values| && m == values[k]
    && forall i :: 0 <= i < |values| ==> values[i] <= m
  }

  lemma MaximumExtends(m: real, values: seq<real>, k: nat, drop: real, last: real, next: seq<real>)
    returns (k': nat)
    requires IsMaximum(m, values, k)
    requires |next| == |values| + 1 && next[|values|] == last
    requires forall i :: 0 <= i < |values| ==> next[i] == values[i] - drop + last
    ensures IsMaximum(Max(0.0, m - drop) + last, next, k')
  {
    k' := if m - drop >= 0.0 then k else |values|;
  }

  ghost function SuffixScores(cfg: BucketConfig, hits: seq<Hit>): seq<real> {
    seq(|hits|, i requires 0 <= i < |hits| => SuffixScore(cfg, hits, i))
  }

  lemma FillStep(cfg: BucketConfig, hits: seq<Hit>)
    requires |hits| >= 2 && Fill(cfg, hits[..|hits| - 1]).updatedAt == hits[|hits| - 2].ts
    ensures
      var n := |hits| - 1;
      Fill(cfg, hits).score
      == Max(0.0, Fill(cfg, hits[..n]).score - LastDrop(cfg, hits)) + Abs(hits[n].severity)
  {
    hide Loss, Abs, Max;
  }

  lemma FillOne(cfg: BucketConfig, hit: Hit)
    requires cfg.decay >= 0.0 && hit.ts >= 0.0
    ensures IsMaximum(Fill(cfg, [hit]).score, SuffixScores(cfg, [hit]), 0)
  {
    LastSuffix(cfg, [hit]);
    LeakIsNonNegative(cfg.decay, hit.ts);
    assert Fill(cfg, [hit]) == Add(cfg, EMPTY_BUCKET, hit.severity, hit.ts).newState;
  }

  /** The score is the maximum over suffixes of (severities of the suffix) - decay * (time since
      the suffix began): it is one of those values and none of them is larger. */
  lemma {:induction false} ScoreIsBestSuffix(cfg: BucketConfig, hits: seq<Hit>) returns (best: nat)
    requires cfg.decay >= 0.0 && hits != [] && Ordered(hits)
    ensures IsMaximum(Fill(cfg, hits).score, SuffixScores(cfg, hits), best)
    ensures Fill(cfg, hits).updatedAt == hits[|hits| - 1].ts
    decreases |hits|
  {
    var n := |hits| - 1;
    if n == 0 {
      assert hits == [hits[0]];
      FillOne(cfg, hits[0]);
      best := 0;
    } else {
      var before := hits[..n];
      var k := ScoreIsBestSuffix(cfg, before);
      FillStep(cfg, hits);
      LastSuffix(cfg, hits);
      forall i | 0 <= i < n
        ensures SuffixScores(cfg, hits)[i]
             == SuffixScores(cfg, before)[i] - LastDrop(cfg, hits) + Abs(hits[n].severity)
      {
        SuffixScoreExtends(cfg, hits, i);
      }
      best := MaximumExtends(
        Fill(cfg, before).score, SuffixScores(cfg, before), k,
        LastDrop(cfg, hits), Abs(hits[n].severity), SuffixScores(cfg, hits));
    }
  }

  // ------------------------------------------------- sweeps do not disturb it

  datatype Op = Arrival(severity: real, ts: real) | Tick(ts: real)

  ghost predicate InOrder(ops: seq<Op>, from: real) {
    && (|ops| > 0 ==> from <= ops[0].ts)
    && forall i :: 0 < i < |ops| ==> ops[i - 1].ts <= ops[i].ts
  }

  /** The update returned for each finding while ticks and findings are interleaved. */
  function Updates(cfg: BucketConfig, state: BucketState, ops: seq<Op>): seq<BucketUpdate>
    decreases |ops|
  {
    if ops == [] then []
    else match ops[0]
      case Arrival(severity, ts) =>
        var u := Add(cfg, state, severity, ts);
        [u] + Updates(cfg, u.newState, ops[1..])
      case Tick(ts) =>
        Updates(cfg, Decay(cfg, state, ts).newState, ops[1..])
  }

  function FindingsOnly(ops: seq<Op>): seq<Op> {
    if ops == [] then []
    else (if ops[0].Arrival? then [ops[0]] else []) + FindingsOnly(ops[1..])
  }

  lemma {:induction false} FindingsOnlyInOrder(ops: seq<Op>, from: real)
    requires InOrder(ops, from)
    ensures InOrder(FindingsOnly(ops), from)
  {
    if ops != [] {
      FindingsOnlyInOrder(ops[1..], ops[0].ts);
      var rest := FindingsOnly(ops[1..]);
      if ops[0].Arrival? {
        forall i | 0 < i < |rest| + 1
          ensures FindingsOnly(ops)[i - 1].ts <= FindingsOnly(ops)[i].ts
        {
          assert FindingsOnly(ops)[i] == rest[i - 1];
          if i > 1 {
            assert rest[i - 2].ts <= rest[i - 1].ts;
          }
        }
      } else {
        assert FindingsOnly(ops) == rest;
      }
    }
  }

  lemma OneOp(cfg: BucketConfig, state: BucketState, op: Op)
    requires cfg.decay >= 0.0 && state.score >= 0.0 && state.updatedAt <= op.ts
    ensures
      var next := if op.Arrival? then Add(cfg, state, op.severity, op.ts) else Decay(cfg, state, op.ts);
      next.newState.score >= 0.0 && next.newState.updatedAt == op.ts
  {
    hide Loss;
    LeakBounds(cfg, state, op.ts);
  }

  lemma LaterInOrder(ops: seq<Op>, from: real)
    requires InOrder(ops, from) && ops != []
    ensures from <= ops[0].ts && InOrder(ops[1..], ops[0].ts)
  {
  }

  lemma TickFirstIsInvisible(cfg: BucketConfig, state: BucketState, t: real, ops: seq<Op>)
    requires cfg.decay >= 0.0 && state.score >= 0.0 && state.updatedAt <= t
    requires InOrder(ops, t)
    ensures Updates(cfg, Decay(cfg, state, t).newState, ops) == Updates(cfg, state, ops)
  {
    hide Leaked;
    if ops != [] {
      LeakComposes(cfg, state, t, ops[0].ts);
    }
  }

  /** Any number of sweeps between findings changes neither a later score nor any crossing flag:
      every finding gets exactly the update it would get without them. */
  lemma {:induction false} TicksAreInvisible(cfg: BucketConfig, state: BucketState, ops: seq<Op>)
    requires cfg.decay >= 0.0 && state.score >= 0.0
    requires InOrder(ops, state.updatedAt)
    ensures Updates(cfg, state, ops) == Updates(cfg, state, FindingsOnly(ops))
    decreases |ops|
  {
    hide Add, Decay, InOrder;
    if ops != [] {
      var rest := ops[1..];
      LaterInOrder(ops, state.updatedAt);
      OneOp(cfg, state, ops[0]);
      match ops[0]
      case Arrival(severity, ts) =>
        var u := Add(cfg, state, severity, ts);
        TicksAreInvisible(cfg, u.newState, rest);
        assert FindingsOnly(ops)[1..] == FindingsOnly(rest);
      case Tick(ts) =>
        var leaked := Decay(cfg, state, ts).newState;
        TicksAreInvisible(cfg, leaked, rest);
        FindingsOnlyInOrder(rest, ts);
        TickFirstIsInvisible(cfg, state, ts, FindingsOnly(rest));
        assert FindingsOnly(ops) == FindingsOnly(rest);
    }
  }

  // ------------------------------------------------------------ late findings

  lemma NegativeLoss(decay: real, elapsed: real)
    ensures Loss(decay, -elapsed) == -Loss(decay, elapsed)
  {
  }

  /** A finding that reaches the open threshold is reported as crossing it exactly when it is not
      stamped so far before the last sweep that the negative elapsed time alone refills the bucket. */
  lemma CrossingIsMissedIff(cfg: BucketConfig, state: BucketState, value: real, ts: real)
    requires cfg.decay >= 0.0 && 0.0 <= state.score < cfg.open
    requires Add(cfg, state, value, ts).newState.score >= cfg.open
    ensures !Add(cfg, state, value, ts).crossedOpen
       <==> ts < state.updatedAt && Loss(cfg.decay, state.updatedAt - ts) >= cfg.open - state.score
  {
    hide Loss;
    var late := state.updatedAt - ts;
    if ts >= state.updatedAt {
      LeakBounds(cfg, state, ts);
    } else {
      NegativeLoss(cfg.decay, late);
      LeakIsNonNegative(cfg.decay, late);
      assert ts - state.updatedAt == -late;
      assert Leaked(cfg, state, ts) == Max(0.0, state.score + Loss(cfg.decay, late));
    }
  }

  /** With the deployed thresholds, a finding stamped 20 s before a sweep that left 4.0 in the
      bucket lifts the score to 10 and crosses nothing. */
  lemma LateFindingMissesTheEdge()
    ensures
      var cfg := BucketConfig(5.0, 3.0, 0.1);
      var u := Add(cfg, BucketState(4.0, 100.0), 4.0, 80.0);
      u.newState.score == 10.0 && !u.crossedOpen
  {
  }
}
