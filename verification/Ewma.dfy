/**
 The exponentially weighted moving average detector (services/argus/ewma.go), over exact reals. The
 square root is a parameter known only to be the non-negative root of its argument.
 */
module Ewma {
  import opened Reals

  datatype EwmaConfig = EwmaConfig(alpha: real, threshold: real, warmup: int, epsilon: real)

  datatype EwmaState = EwmaState(mean: real, variance: real, n: nat, lastSeen: real)

  datatype Alarm = NoAlarm | Alarm(ts: real, value: real, severity: real)

  const NEW_STATE := EwmaState(0.0, 0.0, 0, 0.0)

  ghost predicate IsRoot(root: real, x: real) {
    root >= 0.0 && root * root == x
  }

  function NextMean(alpha: real, mean: real, value: real): real {
    mean + alpha * (value - mean)
  }

  function NextVariance(alpha: real, mean: real, variance: real, value: real): real {
    (1.0 - alpha) * (variance + alpha * (value - mean) * (value - mean))
  }

  /** One sample folded into the baseline. */
  function Fold(cfg: EwmaConfig, st: EwmaState, ts: real, value: real): EwmaState {
    if st.n == 0 then EwmaState(value, 0.0, 1, ts)
    else EwmaState(NextMean(cfg.alpha, st.mean, value),
                   NextVariance(cfg.alpha, st.mean, st.variance, value), st.n + 1, ts)
  }

  /** The alarm condition without a square root: the squared deviation reaches threshold^2 times the
      padded variance of the baseline before this sample. */
  predicate Deviates(cfg: EwmaConfig, st: EwmaState, value: real) {
    (value - st.mean) * (value - st.mean) >= cfg.threshold * cfg.threshold * (st.variance + cfg.epsilon)
  }

  predicate Alarms(cfg: EwmaConfig, st: EwmaState, value: real) {
    st.n != 0 && st.n >= cfg.warmup && Deviates(cfg, st, value)
  }

  lemma SquareOrder(a: real, b: real)
    requires a >= 0.0 && b >= 0.0
    ensures a >= b <==> a * a >= b * b
  {
    assert a * a - b * b == (a - b) * (a + b);
    if a >= b {
      Product(a - b, a + b);
    } else {
      PositiveProduct(b - a, a + b);
      assert (a - b) * (a + b) == -((b - a) * (a + b));
    }
  }

  lemma AbsOfProduct(z: real, root: real)
    requires root > 0.0
    ensures Abs(z * root) == Abs(z) * root
  {
    if z >= 0.0 {
      assert z * root >= 0.0;
    } else {
      assert z * root == -((-z) * root);
      assert (-z) * root > 0.0;
    }
  }

  lemma SquareOfProduct(a: real, b: real)
    ensures (a * b) * (a * b) == a * a * (b * b)
  {
  }

  lemma ByDelta(alpha: real, mean: real, variance: real, value: real, delta: real)
    requires delta == value - mean
    ensures NextMean(alpha, mean, value) == mean + alpha * delta
    ensures NextVariance(alpha, mean, variance, value) == (1.0 - alpha) * (variance + alpha * delta * delta)
  {
  }

  lemma RootIsPositive(root: real, x: real)
    requires IsRoot(root, x) && x > 0.0
    ensures root > 0.0
  {
  }

  lemma ScoreIsDeviation(cfg: EwmaConfig, st: EwmaState, value: real, root: real, z: real)
    requires cfg.threshold >= 0.0 && st.variance >= 0.0 && cfg.epsilon > 0.0
    requires IsRoot(root, st.variance + cfg.epsilon) && root > 0.0 && z == (value - st.mean) / root
    ensures Abs(z) >= cfg.threshold <==> Deviates(cfg, st, value)
    ensures Abs(z) >= cfg.threshold <==> Abs(value - st.mean) >= cfg.threshold * root
  {
    var d := value - st.mean;
    assert z * root == d;
    AbsOfProduct(z, root);
    assert Abs(z) >= cfg.threshold <==> Abs(z) * root >= cfg.threshold * root;
    SquareOrder(Abs(d), cfg.threshold * root);
    SquareOfProduct(cfg.threshold, root);
    assert Abs(d) * Abs(d) == d * d;
  }

  /** Once the warm-up is over, whatever is as far from the mean as the threshold times the deviation. */
  lemma AlarmsIff(cfg: EwmaConfig, st: EwmaState, value: real, root: real)
    requires cfg.threshold >= 0.0 && st.variance >= 0.0 && cfg.epsilon > 0.0
    requires IsRoot(root, st.variance + cfg.epsilon)
    ensures Alarms(cfg, st, value) <==>
      0 < st.n && cfg.warmup <= st.n && Abs(value - st.mean) >= cfg.threshold * root
  {
    hide Deviates, IsRoot;
    RootIsPositive(root, st.variance + cfg.epsilon);
    ScoreIsDeviation(cfg, st, value, root, (value - st.mean) / root);
  }

  class Baseline {
    var mean: real
    var variance: real
    var n: nat
    var lastSeen: real

    function View(): EwmaState
      reads this
    {
      EwmaState(mean, variance, n, lastSeen)
    }

    constructor ()
      ensures View() == NEW_STATE
    {
      mean, variance, n, lastSeen := 0.0, 0.0, 0, 0.0;
    }

    /** Raises an alarm exactly on a deviation after the warm-up, weighed at least as the threshold. */
    method Step(cfg: EwmaConfig, ts: real, value: real, sqrt: real -> real) returns (alarm: Alarm)
      requires cfg.threshold >= 0.0 && cfg.epsilon > 0.0 && variance >= 0.0
      requires IsRoot(sqrt(variance + cfg.epsilon), variance + cfg.epsilon)
      modifies this
      ensures View() == Fold(cfg, old(View()), ts, value)
      ensures alarm.Alarm? <==> Alarms(cfg, old(View()), value)
      ensures old(n) == 0 || old(n) < cfg.warmup ==> alarm.NoAlarm?
      ensures alarm.Alarm? ==>
        && alarm.ts == ts && alarm.value == value
        && sqrt(old(variance) + cfg.epsilon) > 0.0
        && alarm.severity == Min(12.0, Abs((value - old(mean)) / sqrt(old(variance) + cfg.epsilon)))
        && Min(12.0, cfg.threshold) <= alarm.severity <= 12.0
    {
      hide Deviates, IsRoot, NextMean, NextVariance;
      alarm := NoAlarm;
      if n == 0 {
        mean, variance, n, lastSeen := value, 0.0, 1, ts;
        return;
      }
      var stddev := sqrt(variance + cfg.epsilon);
      RootIsPositive(stddev, variance + cfg.epsilon);
      var z := (value - mean) / stddev;
      ScoreIsDeviation(cfg, View(), value, stddev, z);
      if n >= cfg.warmup && Abs(z) >= cfg.threshold {
        alarm := Alarm(ts, value, Min(12.0, Abs(z)));
      }
      var delta := value - mean;
      ByDelta(cfg.alpha, mean, variance, value, delta);
      ghost var next := Fold(cfg, View(), ts, value);
      mean := mean + cfg.alpha * delta;
      assert mean == next.mean;
      variance := (1.0 - cfg.alpha) * (variance + cfg.alpha * delta * delta);
      assert variance == next.variance;
      n := n + 1;
      lastSeen := ts;
    }
  }

  // ---------------------------------------------------------- batch definition

  datatype Sample = Sample(ts: real, value: real)

  function After(cfg: EwmaConfig, history: seq<Sample>): EwmaState {
    if history == [] then NEW_STATE
    else
      var n := |history| - 1;
      Fold(cfg, After(cfg, history[..n]), history[n].ts, history[n].value)
  }

  function Power(base: real, exponent: nat): real {
    if exponent == 0 then 1.0 else base * Power(base, exponent - 1)
  }

  /** Weight of the j-th of n samples: alpha * (1 - alpha)^age, except that the first keeps the rest. */
  function Weight(alpha: real, n: nat, j: nat): real
    requires j < n
  {
    if j == 0 then Power(1.0 - alpha, n - 1) else alpha * Power(1.0 - alpha, n - 1 - j)
  }

  function Weighted(alpha: real, values: seq<real>): (terms: seq<real>)
    ensures |terms| == |values|
  {
    seq(|values|, j requires 0 <= j < |values| => Weight(alpha, |values|, j) * values[j])
  }

  function WeightedSum(alpha: real, values: seq<real>): real {
    Sum(Weighted(alpha, values))
  }

  lemma WeightAges(alpha: real, n: nat, j: nat)
    requires j < n
    ensures Weight(alpha, n + 1, j) == (1.0 - alpha) * Weight(alpha, n, j)
  {
    if j > 0 {
      var older := Power(1.0 - alpha, n - 1 - j);
      assert Power(1.0 - alpha, n - j) == (1.0 - alpha) * older;
      assert alpha * ((1.0 - alpha) * older) == (1.0 - alpha) * (alpha * older);
    }
  }

  lemma TermAges(alpha: real, values: seq<real>, last: real, j: nat)
    requires j < |values|
    ensures Weighted(alpha, values + [last])[j] == (1.0 - alpha) * Weighted(alpha, values)[j]
  {
    WeightAges(alpha, |values|, j);
    var w, x := Weight(alpha, |values|, j), values[j];
    assert (values + [last])[j] == x;
    assert ((1.0 - alpha) * w) * x == (1.0 - alpha) * (w * x);
  }

  lemma NewestTerm(alpha: real, values: seq<real>, last: real)
    requires values != []
    ensures Weighted(alpha, values + [last])[|values|] == alpha * last
  {
    assert Weight(alpha, |values| + 1, |values|) == alpha;
  }

  lemma TermsExtend(alpha: real, values: seq<real>, last: real)
    requires values != []
    ensures Weighted(alpha, values + [last]) == Scaled(1.0 - alpha, Weighted(alpha, values)) + [alpha * last]
  {
    NewestTerm(alpha, values, last);
    forall j | 0 <= j < |values|
      ensures Weighted(alpha, values + [last])[j] == Scaled(1.0 - alpha, Weighted(alpha, values))[j]
    {
      TermAges(alpha, values, last, j);
      ScaledAt(1.0 - alpha, Weighted(alpha, values), j);
    }
  }

  lemma SumExtends(c: real, terms: seq<real>, newest: real, longer: seq<real>)
    requires longer == Scaled(c, terms) + [newest]
    ensures Sum(longer) == c * Sum(terms) + newest
  {
    SumScales(c, terms);
    assert longer[..|longer| - 1] == Scaled(c, terms);
  }

  lemma WeightedSumExtends(alpha: real, values: seq<real>, last: real)
    requires values != []
    ensures WeightedSum(alpha, values + [last]) == (1.0 - alpha) * WeightedSum(alpha, values) + alpha * last
  {
    TermsExtend(alpha, values, last);
    SumExtends(1.0 - alpha, Weighted(alpha, values), alpha * last, Weighted(alpha, values + [last]));
  }

  lemma WeightedSumOfOne(alpha: real, x: real)
    ensures WeightedSum(alpha, [x]) == x
  {
    assert Weight(alpha, 1, 0) == 1.0;
    assert Weighted(alpha, [x]) == [x];
    assert Sum([x][..0]) == 0.0;
  }

  /** The weights add up to one. */
  lemma {:induction false} WeightsAddUp(alpha: real, n: nat)
    requires n > 0
    ensures WeightedSum(alpha, seq(n, i => 1.0)) == 1.0
  {
    if n == 1 {
      assert seq(1, i => 1.0) == [1.0];
      WeightedSumOfOne(alpha, 1.0);
    } else {
      WeightsAddUp(alpha, n - 1);
      WeightedSumExtends(alpha, seq(n - 1, i => 1.0), 1.0);
      assert seq(n, i => 1.0) == seq(n - 1, i => 1.0) + [1.0];
    }
  }

  function Values(history: seq<Sample>): seq<real> {
    seq(|history|, i requires 0 <= i < |history| => history[i].value)
  }

  function Square(x: real): real {
    x * x
  }

  function Squares(values: seq<real>): seq<real> {
    seq(|values|, i requires 0 <= i < |values| => Square(values[i]))
  }

  lemma SquareOfSum(p: real, q: real)
    ensures (p + q) * (p + q) == p * p + 2.0 * (p * q) + q * q
  {
  }

  lemma Scale(a: real, p: real, q: real, r: real)
    ensures a * (p + q + r) == a * p + a * q + a * r
  {
  }

  /** The variance update keeps "second moment minus squared mean": with d = x - m,
      (1 - a) (s - m^2 + a d^2) == (1 - a) s + a x^2 - (m + a d)^2. */
  lemma VarianceUpdate(a: real, m: real, s: real, x: real)
    ensures NextMean(a, m, x) == (1.0 - a) * m + a * x
    ensures NextVariance(a, m, s - m * m, x)
         == (1.0 - a) * s + a * (x * x) - NextMean(a, m, x) * NextMean(a, m, x)
  {
    var d := x - m;
    var mm, md, dd := m * m, m * d, d * d;
    assert NextMean(a, m, x) * NextMean(a, m, x) == mm + 2.0 * (a * md) + a * (a * dd) by {
      SquareOfSum(m, a * d);
      assert m * (a * d) == a * md;
      assert (a * d) * (a * d) == a * (a * dd);
    }
    assert x * x == mm + 2.0 * md + dd by {
      SquareOfSum(m, d);
    }
    assert a * (x * x) == a * mm + 2.0 * (a * md) + a * dd by {
      Scale(a, mm, 2.0 * md, dd);
      assert a * (2.0 * md) == 2.0 * (a * md);
    }
    assert a * d * d == a * dd;
    Scale(1.0 - a, s, -mm, a * dd);
    assert (1.0 - a) * (-mm) == a * mm - mm;
    assert (1.0 - a) * (a * dd) == a * dd - a * (a * dd);
  }

  lemma FoldOne(cfg: EwmaConfig, history: seq<Sample>)
    requires |history| == 1
    ensures After(cfg, history) == EwmaState(history[0].value, 0.0, 1, history[0].ts)
  {
    assert After(cfg, history[..0]) == NEW_STATE;
  }

  lemma FoldMore(cfg: EwmaConfig, history: seq<Sample>)
    requires |history| > 1 && After(cfg, history[..|history| - 1]).n != 0
    ensures
      var n := |history| - 1;
      var st, x := After(cfg, history[..n]), history[n].value;
      && After(cfg, history).n == st.n + 1 && After(cfg, history).lastSeen == history[n].ts
      && After(cfg, history).mean == NextMean(cfg.alpha, st.mean, x)
      && After(cfg, history).variance == NextVariance(cfg.alpha, st.mean, st.variance, x)
  {
  }

  /** mean and variance are the weighted mean and the weighted second moment minus the squared mean. */
  ghost predicate IsBatch(alpha: real, values: seq<real>, mean: real, variance: real) {
    && mean == WeightedSum(alpha, values)
    && variance == WeightedSum(alpha, Squares(values)) - mean * mean
  }

  lemma BatchOfOne(alpha: real, x: real)
    ensures IsBatch(alpha, [x], x, 0.0)
  {
    WeightedSumOfOne(alpha, x);
    WeightedSumOfOne(alpha, Square(x));
    assert Squares([x]) == [Square(x)];
  }

  lemma MomentStep(a: real, m: real, s: real, v: real, x: real, s': real)
    requires v == s - m * m && s' == (1.0 - a) * s + a * Square(x)
    ensures NextMean(a, m, x) == (1.0 - a) * m + a * x
    ensures NextVariance(a, m, v, x) == s' - NextMean(a, m, x) * NextMean(a, m, x)
  {
    VarianceUpdate(a, m, s, x);
  }

  lemma SquaresExtend(values: seq<real>, x: real)
    ensures Squares(values + [x]) == Squares(values) + [Square(x)]
  {
  }

  lemma BatchStep(alpha: real, values: seq<real>, mean: real, variance: real, x: real)
    requires values != [] && IsBatch(alpha, values, mean, variance)
    ensures IsBatch(alpha, values + [x], NextMean(alpha, mean, x), NextVariance(alpha, mean, variance, x))
  {
    hide WeightedSum, NextMean, NextVariance, Square;
    WeightedSumExtends(alpha, values, x);
    WeightedSumExtends(alpha, Squares(values), Square(x));
    SquaresExtend(values, x);
    MomentStep(alpha, mean, WeightedSum(alpha, Squares(values)), variance, x,
               WeightedSum(alpha, Squares(values + [x])));
  }

  /** Online is batch, for every history. */
  lemma {:induction false} OnlineIsBatch(cfg: EwmaConfig, history: seq<Sample>)
    requires history != []
    ensures
      var st := After(cfg, history);
      && st.n == |history| && st.lastSeen == history[|history| - 1].ts
      && IsBatch(cfg.alpha, Values(history), st.mean, st.variance)
    decreases |history|
  {
    var n := |history| - 1;
    if n == 0 {
      FoldOne(cfg, history);
      BatchOfOne(cfg.alpha, history[0].value);
      assert Values(history) == [history[0].value];
    } else {
      var st := After(cfg, history[..n]);
      OnlineIsBatch(cfg, history[..n]);
      FoldMore(cfg, history);
      BatchStep(cfg.alpha, Values(history[..n]), st.mean, st.variance, history[n].value);
      assert Values(history) == Values(history[..n]) + [history[n].value];
    }
  }

  // ------------------------------------------------------------- range bounds

  ghost predicate Within(history: seq<Sample>, lo: real, hi: real) {
    forall i :: 0 <= i < |history| ==> lo <= history[i].value <= hi
  }

  ghost predicate Spread(lo: real, hi: real, mean: real, variance: real) {
    lo <= mean <= hi && 0.0 <= variance <= (hi - mean) * (mean - lo)
  }

  /** A concave parabola at a convex combination. */
  lemma ParabolaAtMix(a: real, p: real, q: real, d: real)
    ensures (p - a * d) * (q + a * d)
         == (1.0 - a) * (p * q) + a * ((p - d) * (q + d)) + (1.0 - a) * (a * (d * d))
  {
    var pq, pd, qd, dd := p * q, p * d, q * d, d * d;
    assert (p - d) * (q + d) == pq + pd - qd - dd;
    assert (p - a * d) * (q + a * d) == pq + a * pd - a * qd - a * (a * dd) by {
      assert p * (a * d) == a * pd;
      assert q * (a * d) == a * qd;
      assert (a * d) * (a * d) == a * (a * dd);
      assert (p - a * d) * (q + a * d) == pq + p * (a * d) - q * (a * d) - (a * d) * (a * d);
    }
  }

  lemma MeanStays(a: real, lo: real, hi: real, m: real, x: real)
    requires 0.0 < a < 1.0 && lo <= m <= hi && lo <= x <= hi
    ensures lo <= NextMean(a, m, x) <= hi
  {
    Product(1.0 - a, m - lo);
    Product(a, x - lo);
    Product(1.0 - a, hi - m);
    Product(a, hi - x);
    assert NextMean(a, m, x) - lo == (1.0 - a) * (m - lo) + a * (x - lo);
    assert hi - NextMean(a, m, x) == (1.0 - a) * (hi - m) + a * (hi - x);
  }

  lemma SpreadIdentity(a: real, p: real, q: real, d: real, v: real)
    ensures (p - a * d) * (q + a * d) - (1.0 - a) * (v + a * d * d)
         == (1.0 - a) * (p * q - v) + a * ((p - d) * (q + d))
  {
    ParabolaAtMix(a, p, q, d);
    assert a * d * d == a * (d * d);
    assert (1.0 - a) * (v + a * (d * d)) == (1.0 - a) * v + (1.0 - a) * (a * (d * d));
    assert (1.0 - a) * (p * q - v) == (1.0 - a) * (p * q) - (1.0 - a) * v;
  }

  lemma VarianceIsNonNegative(a: real, m: real, v: real, x: real)
    requires 0.0 < a < 1.0 && v >= 0.0
    ensures NextVariance(a, m, v, x) >= 0.0
  {
    var d := x - m;
    if d >= 0.0 {
      Product(d, d);
    } else {
      Product(-d, -d);
    }
    Product(a, d * d);
    assert a * d * d == a * (d * d);
    Product(1.0 - a, v + a * d * d);
  }

  lemma NoMore(x: real, y: real, e: real, f: real)
    requires y - x == e + f && e >= 0.0 && f >= 0.0
    ensures x <= y
  {
  }

  lemma SpreadLeaves(a: real, p: real, q: real, d: real, v: real)
    requires 0.0 < a < 1.0 && -q <= d <= p && v <= p * q
    ensures (1.0 - a) * (v + a * d * d) <= (p - a * d) * (q + a * d)
  {
    SpreadIdentity(a, p, q, d, v);
    Product(p - d, q + d);
    Product(a, (p - d) * (q + d));
    Product(1.0 - a, p * q - v);
    NoMore((1.0 - a) * (v + a * d * d), (p - a * d) * (q + a * d),
           (1.0 - a) * (p * q - v), a * ((p - d) * (q + d)));
  }

  lemma Distances(a: real, lo: real, hi: real, m: real, x: real)
    ensures hi - NextMean(a, m, x) == (hi - m) - a * (x - m)
    ensures NextMean(a, m, x) - lo == (m - lo) + a * (x - m)
  {
  }

  lemma VarianceStays(a: real, lo: real, hi: real, m: real, v: real, x: real)
    requires 0.0 < a < 1.0 && lo <= x <= hi && Spread(lo, hi, m, v)
    ensures NextVariance(a, m, v, x) <= (hi - NextMean(a, m, x)) * (NextMean(a, m, x) - lo)
  {
    SpreadLeaves(a, hi - m, m - lo, x - m, v);
    Distances(a, lo, hi, m, x);
    hide NextMean;
  }

  lemma SpreadStays(a: real, lo: real, hi: real, m: real, v: real, x: real)
    requires 0.0 < a < 1.0 && lo <= x <= hi && Spread(lo, hi, m, v)
    ensures Spread(lo, hi, NextMean(a, m, x), NextVariance(a, m, v, x))
  {
    MeanStays(a, lo, hi, m, x);
    VarianceIsNonNegative(a, m, v, x);
    VarianceStays(a, lo, hi, m, v, x);
  }

  /** If all samples lie in [lo, hi], so does the mean, and the variance is at most
      (hi - mean) * (mean - lo) and never negative. */
  lemma {:induction false} SpreadIsBounded(cfg: EwmaConfig, history: seq<Sample>, lo: real, hi: real)
    requires 0.0 < cfg.alpha < 1.0 && history != [] && Within(history, lo, hi)
    ensures After(cfg, history).n != 0 && Spread(lo, hi, After(cfg, history).mean, After(cfg, history).variance)
    decreases |history|
  {
    var n := |history| - 1;
    var x := history[n].value;
    if n == 0 {
      FoldOne(cfg, history);
      Product(hi - x, x - lo);
    } else {
      SpreadIsBounded(cfg, history[..n], lo, hi);
      var st := After(cfg, history[..n]);
      FoldMore(cfg, history);
      SpreadStays(cfg.alpha, lo, hi, st.mean, st.variance, x);
    }
  }

  lemma SmallMovesDoNotDeviate(cfg: EwmaConfig, st: EwmaState, value: real, range: real)
    requires st.variance >= 0.0 && Abs(value - st.mean) <= range
    requires range * range < cfg.threshold * cfg.threshold * cfg.epsilon
    ensures !Deviates(cfg, st, value)
  {
    var d, t := value - st.mean, cfg.threshold * cfg.threshold;
    SquareOrder(range, Abs(d));
    assert Abs(d) * Abs(d) == d * d;
    Product(Abs(cfg.threshold), Abs(cfg.threshold));
    Product(t, st.variance);
    assert t * (st.variance + cfg.epsilon) == t * st.variance + t * cfg.epsilon;
  }

  lemma MovesWithinRange(cfg: EwmaConfig, history: seq<Sample>, k: nat, lo: real, hi: real)
    requires 0.0 < cfg.alpha < 1.0 && Within(history, lo, hi) && 0 < k < |history|
    ensures After(cfg, history[..k]).variance >= 0.0
    ensures Abs(history[k].value - After(cfg, history[..k]).mean) <= hi - lo
  {
    SpreadIsBounded(cfg, history[..k], lo, hi);
  }

  /** Samples that move by less than threshold * sqrt(epsilon) never raise an alarm. */
  lemma NoiseRaisesNoAlarm(cfg: EwmaConfig, history: seq<Sample>, k: nat, lo: real, hi: real)
    requires 0.0 < cfg.alpha < 1.0 && Within(history, lo, hi) && k < |history|
    requires (hi - lo) * (hi - lo) < cfg.threshold * cfg.threshold * cfg.epsilon
    ensures !Alarms(cfg, After(cfg, history[..k]), history[k].value)
  {
    if k == 0 {
      assert history[..0] == [];
    } else {
      hide After, Deviates;
      MovesWithinRange(cfg, history, k, lo, hi);
      SmallMovesDoNotDeviate(cfg, After(cfg, history[..k]), history[k].value, hi - lo);
    }
  }

  lemma FourProducts(p: real, q: real)
    ensures 4.0 * (p * q) <= (p + q) * (p + q)
  {
    SquareOfSum(p, q);
    SquareOfSum(p, -q);
    if p >= q {
      Product(p - q, p - q);
    } else {
      Product(q - p, q - p);
      assert (q - p) * (q - p) == (p + -q) * (p + -q);
    }
    assert p * -q == -(p * q) && -q * -q == q * q;
  }

  lemma SpreadIsSmall(lo: real, hi: real, mean: real, variance: real)
    requires Spread(lo, hi, mean, variance)
    ensures 4.0 * variance <= (hi - lo) * (hi - lo)
  {
    FourProducts(hi - mean, mean - lo);
  }

  lemma Exchange(t: real, a: real, v: real, e: real)
    ensures t * (a - 4.0 * v) == t * (a + 4.0 * e) - 4.0 * (t * (v + e))
  {
    var ta, tv, te := t * a, t * v, t * e;
    assert t * (a - 4.0 * v) == ta - 4.0 * tv;
    assert t * (a + 4.0 * e) == ta + 4.0 * te;
    assert t * (v + e) == tv + te;
  }

  lemma FarMovesDeviate(cfg: EwmaConfig, st: EwmaState, value: real, lo: real, hi: real, gap: real)
    requires Spread(lo, hi, st.mean, st.variance) && gap >= 0.0 && (value <= lo - gap || hi + gap <= value)
    requires 4.0 * (gap * gap) >= cfg.threshold * cfg.threshold * ((hi - lo) * (hi - lo) + 4.0 * cfg.epsilon)
    ensures Deviates(cfg, st, value)
  {
    var d, t := value - st.mean, cfg.threshold * cfg.threshold;
    SquareOrder(Abs(d), gap);
    assert Abs(d) * Abs(d) == d * d;
    SpreadIsSmall(lo, hi, st.mean, st.variance);
    Product(Abs(cfg.threshold), Abs(cfg.threshold));
    Product(t, (hi - lo) * (hi - lo) - 4.0 * st.variance);
    Exchange(t, (hi - lo) * (hi - lo), st.variance, cfg.epsilon);
  }

  /** A sample that leaves the range of all samples so far by threshold * sqrt(range^2 / 4 + epsilon)
      raises an alarm as soon as the warm-up is over, whatever the order of the samples. */
  lemma JumpRaisesAlarm(cfg: EwmaConfig, history: seq<Sample>, value: real, lo: real, hi: real, gap: real)
    requires 0.0 < cfg.alpha < 1.0 && Within(history, lo, hi) && history != [] && cfg.warmup <= |history|
    requires gap >= 0.0 && (value <= lo - gap || hi + gap <= value)
    requires 4.0 * (gap * gap) >= cfg.threshold * cfg.threshold * ((hi - lo) * (hi - lo) + 4.0 * cfg.epsilon)
    ensures Alarms(cfg, After(cfg, history), value)
  {
    hide After, Deviates, IsBatch, Spread;
    OnlineIsBatch(cfg, history);
    SpreadIsBounded(cfg, history, lo, hi);
    FarMovesDeviate(cfg, After(cfg, history), value, lo, hi, gap);
  }
}
