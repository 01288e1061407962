/**
 Latency statistics of a measurement (services/ping-processor/processor.go,
 services/stamp-processor/processor.go). Latencies are nanoseconds and may be negative, since one-way
 delays are differences of two clocks. Arithmetic on floats is exact here; a conversion to an integer
 drops the fraction, toward zero.
 */
module LatencyStats {
  import opened Reals
  import opened Sorting

  function Truncated(x: real): int {
    if x >= 0.0 then x.Floor else -((-x).Floor)
  }

  /** Integer division as Go has it, for a positive divisor. */
  function Quotient(n: int, d: nat): int
    requires d > 0
  {
    if n >= 0 then n / d else -((-n) / d)
  }

  predicate AtMost(x: int, y: int) {
    x <= y
  }

  ghost predicate Rising(s: seq<int>) {
    Sorted(AtMost, s)
  }

  lemma RisingAt(s: seq<int>, i: nat, j: nat)
    requires Rising(s) && i <= j < |s|
    ensures s[i] <= s[j]
  {
    assert i < j ==> AtMost(s[i], s[j]);
  }

  // --------------------------------------------------------------- percentiles

  /** Between the two values around a rank. */
  function Interpolated(s: seq<int>, rank: real): real
    requires s != [] && 0.0 <= rank
  {
    var lo := rank.Floor;
    if lo + 1 >= |s| then s[|s| - 1] as real
    else
      var frac := rank - lo as real;
      s[lo] as real * (1.0 - frac) + s[lo + 1] as real * frac
  }

  function Rank(p: real, count: nat): (rank: real)
    requires 0.0 <= p && count > 0
    ensures rank >= 0.0
  {
    Product(p, (count - 1) as real);
    p * (count - 1) as real
  }

  function Percentile(s: seq<int>, p: real): int
    requires 0.0 <= p
  {
    if s == [] then 0
    else if |s| == 1 then s[0]
    else Truncated(Interpolated(s, Rank(p, |s|)))
  }

  lemma TruncatedIsMonotone(x: real, y: real)
    requires x <= y
    ensures Truncated(x) <= Truncated(y)
  {
  }

  lemma TruncatedOfInt(n: int)
    ensures Truncated(n as real) == n
  {
  }

  lemma Mix(a: real, b: real, frac: real)
    ensures a * (1.0 - frac) + b * frac == a + (b - a) * frac
  {
  }

  lemma MixBetween(a: real, b: real, frac: real, more: real)
    requires a <= b && 0.0 <= frac <= more <= 1.0
    ensures a <= a * (1.0 - frac) + b * frac <= a * (1.0 - more) + b * more <= b
  {
    Mix(a, b, frac);
    Mix(a, b, more);
    Product(b - a, frac);
    Product(b - a, more - frac);
    Product(b - a, 1.0 - more);
    assert (b - a) * more == (b - a) * frac + (b - a) * (more - frac);
    assert (b - a) * 1.0 == (b - a) * more + (b - a) * (1.0 - more);
  }

  /** Up to |s| - 1 the interpolation passes through the values: it starts at one and ends at the next. */
  lemma InterpolatedStep(s: seq<int>, rank: real)
    requires s != [] && Rising(s) && 0.0 <= rank
    ensures var lo := rank.Floor;
      if lo + 1 >= |s| then Interpolated(s, rank) == s[|s| - 1] as real
      else s[lo] as real <= Interpolated(s, rank) <= s[lo + 1] as real
  {
    hide Rising;
    var lo := rank.Floor;
    if lo + 1 < |s| {
      RisingAt(s, lo, lo + 1);
      MixBetween(s[lo] as real, s[lo + 1] as real, rank - lo as real, rank - lo as real);
    }
  }

  lemma InterpolatedIsMonotone(s: seq<int>, rank: real, rank': real)
    requires s != [] && Rising(s) && 0.0 <= rank <= rank'
    ensures Interpolated(s, rank) <= Interpolated(s, rank')
  {
    hide Rising;
    var lo, lo' := rank.Floor, rank'.Floor;
    if lo == lo' && lo + 1 < |s| {
      RisingAt(s, lo, lo + 1);
      MixBetween(s[lo] as real, s[lo + 1] as real, rank - lo as real, rank' - lo as real);
    } else {
      hide Interpolated;
      InterpolatedStep(s, rank);
      InterpolatedStep(s, rank');
      if lo + 1 < |s| {
        RisingAt(s, lo + 1, if lo' + 1 < |s| then lo' else |s| - 1);
      }
    }
  }

  lemma InterpolatedBounds(s: seq<int>, rank: real)
    requires s != [] && Rising(s) && 0.0 <= rank
    ensures s[0] as real <= Interpolated(s, rank) <= s[|s| - 1] as real
  {
    hide Interpolated, Rising;
    InterpolatedStep(s, rank);
    var lo := rank.Floor;
    RisingAt(s, 0, |s| - 1);
    if lo + 1 < |s| {
      RisingAt(s, 0, lo);
      RisingAt(s, lo + 1, |s| - 1);
    }
  }

  lemma RankGrows(p: real, q: real, count: nat)
    requires 0.0 <= p <= q && count > 0
    ensures Rank(p, count) <= Rank(q, count)
  {
    var n := (count - 1) as real;
    Product(q - p, n);
    assert q * n == p * n + (q - p) * n;
  }

  /** A higher percentile is no lower, and all lie between the least and the greatest value. */
  lemma PercentilesAreOrdered(s: seq<int>, p: real, q: real)
    requires s != [] && Rising(s) && 0.0 <= p <= q
    ensures s[0] <= Percentile(s, p) <= Percentile(s, q) <= s[|s| - 1]
  {
    hide Truncated, Interpolated, Rank;
    var x, y := Interpolated(s, Rank(p, |s|)), Interpolated(s, Rank(q, |s|));
    RankGrows(p, q, |s|);
    InterpolatedBounds(s, Rank(p, |s|));
    InterpolatedBounds(s, Rank(q, |s|));
    InterpolatedIsMonotone(s, Rank(p, |s|), Rank(q, |s|));
    TruncatedOfInt(s[0]);
    TruncatedOfInt(s[|s| - 1]);
    TruncatedIsMonotone(s[0] as real, x);
    TruncatedIsMonotone(x, y);
    TruncatedIsMonotone(y, s[|s| - 1] as real);
  }

  /** In general it lies between the two values around its rank. */
  lemma PercentileIsBetween(s: seq<int>, p: real)
    requires Rising(s) && 0.0 <= p && |s| > 1 && Rank(p, |s|).Floor + 1 < |s|
    ensures s[Rank(p, |s|).Floor] <= Percentile(s, p) <= s[Rank(p, |s|).Floor + 1]
  {
    hide Truncated, Interpolated, Rank;
    var rank := Rank(p, |s|);
    var x := Interpolated(s, rank);
    InterpolatedStep(s, rank);
    TruncatedOfInt(s[rank.Floor]);
    TruncatedOfInt(s[rank.Floor + 1]);
    TruncatedIsMonotone(s[rank.Floor] as real, x);
    TruncatedIsMonotone(x, s[rank.Floor + 1] as real);
  }

  lemma WholeRank(s: seq<int>, k: nat)
    requires k < |s|
    ensures Interpolated(s, k as real) == s[k] as real
  {
  }

  /** Where the rank is whole, the percentile is the value with that many values before it. */
  lemma WholeRankIsOrderStatistic(s: seq<int>, p: real, k: nat)
    requires k < |s| && 0.0 <= p && Rank(p, |s|) == k as real
    ensures Percentile(s, p) == s[k]
  {
    hide Truncated;
    TruncatedOfInt(s[k]);
    if |s| > 1 {
      WholeRank(s, k);
    }
  }

  // ------------------------------------------------------------------- the mean

  function Sum(s: seq<int>): int {
    if s == [] then 0 else Sum(s[..|s| - 1]) + s[|s| - 1]
  }

  lemma OneMore(a: int, n: nat)
    ensures a * (n + 1) == a * n + a
  {
  }

  lemma {:induction false} SumBounds(s: seq<int>, lo: int, hi: int)
    requires forall i :: 0 <= i < |s| ==> lo <= s[i] <= hi
    ensures lo * |s| <= Sum(s) <= hi * |s|
  {
    if s != [] {
      var n := |s| - 1;
      SumBounds(s[..n], lo, hi);
      OneMore(lo, n);
      OneMore(hi, n);
      var least, most := lo * n, hi * n;
      assert least <= Sum(s[..n]) <= most;
    }
  }

  lemma Larger(a: int, b: int, d: nat)
    requires a <= b
    ensures a * d <= b * d
  {
  }

  lemma DivideBounds(n: nat, d: nat, lo: int, hi: int)
    requires d > 0 && lo * d <= n <= hi * d
    ensures lo <= n / d <= hi
  {
    var q := n / d;
    assert n == q * d + n % d;
    if q > hi {
      Larger(hi + 1, q, d);
    }
    if q < lo {
      Larger(q + 1, lo, d);
    }
  }

  lemma QuotientBounds(n: int, d: nat, lo: int, hi: int)
    requires d > 0 && lo * d <= n <= hi * d
    ensures lo <= Quotient(n, d) <= hi
  {
    if n >= 0 {
      DivideBounds(n, d, lo, hi);
    } else {
      DivideBounds(-n, d, -hi, -lo);
    }
  }

  // ------------------------------------------------------------ the computation

  datatype LatencyStats = LatencyStats(mean: int, p50: int, p95: int)

  const NO_STATS := LatencyStats(0, 0, 0)

  function StatsOf(s: seq<int>): LatencyStats {
    if s == [] then NO_STATS
    else LatencyStats(Quotient(Sum(s), |s|), Percentile(s, 0.5), Percentile(s, 0.95))
  }

  /** q is n / d without its fraction, whatever the sign of n. */
  predicate TowardZero(q: int, n: int, d: nat) {
    && (n >= 0 ==> 0 <= n - q * d < d)
    && (n <= 0 ==> 0 <= q * d - n < d)
  }

  /** q lies on the step between the two values around the rank p / d of the way through s, in proportion. */
  ghost predicate DividesStep(s: seq<int>, p: nat, d: nat, q: int)
    requires s != [] && 0 < p < d
  {
    var rank := p * (|s| - 1);
    var lo := if rank / d < |s| then rank / d else |s| - 1;
    var hi := if lo + 1 < |s| then lo + 1 else lo;
    TowardZero(q, d * s[lo] + (s[hi] - s[lo]) * (rank % d), d)
  }

  /** The statistics, by what they are of the values in order. */
  ghost predicate Describes(stats: LatencyStats, s: seq<int>)
    requires s != []
  {
    && TowardZero(stats.mean, Sum(s), |s|)
    && DividesStep(s, 1, 2, stats.p50) && DividesStep(s, 19, 20, stats.p95)
  }

  lemma QuotientIsTowardZero(n: int, d: int)
    requires d > 0
    ensures TowardZero(Quotient(n, d), n, d)
  {
    var m := if n >= 0 then n else -n;
    assert m == m / d * d + m % d;
    assert (-(m / d)) * d == -(m / d * d);
  }

  lemma RestOfQuotient(n: nat, d: nat, q: nat, r: nat)
    requires d > 0 && n == q * d + r
    ensures n as real / d as real - q as real == r as real / d as real
  {
    assert n as real == q as real * d as real + r as real;
  }

  lemma BelowOne(r: nat, d: nat)
    requires r < d
    ensures 0.0 <= r as real / d as real < 1.0
  {
  }

  lemma FloorOfQuotient(n: nat, d: nat)
    requires d > 0
    ensures (n as real / d as real).Floor == n / d
  {
    var q, r, x := n / d, n % d, n as real / d as real;
    assert n == q * d + r;
    RestOfQuotient(n, d, q, r);
    BelowOne(r, d);
    assert q as real <= x < (q + 1) as real;
  }

  lemma NegatedQuotient(n: int, d: nat)
    requires d > 0
    ensures -(n as real / d as real) == (-n) as real / d as real
  {
  }

  /** Dropping the fraction of a quotient is dividing as Go does. */
  lemma TruncatedQuotient(n: int, d: nat)
    requires d > 0
    ensures Truncated(n as real / d as real) == Quotient(n, d)
  {
    if n >= 0 {
      FloorOfQuotient(n, d);
    } else {
      NegatedQuotient(n, d);
      FloorOfQuotient(-n, d);
    }
  }

  lemma ScaledQuotient(x: real, y: real, z: real)
    requires z > 0.0
    ensures x / z * y == x * y / z
  {
  }

  lemma PartTimes(p: nat, d: nat, n: nat)
    requires d > 0
    ensures p as real / d as real * n as real == (p * n) as real / d as real
  {
    assert (p * n) as real == p as real * n as real;
    ScaledQuotient(p as real, n as real, d as real);
  }

  lemma RankIs(p: nat, d: nat, count: nat)
    requires 0 < p < d && count > 0
    ensures Rank(p as real / d as real, count) == (p * (count - 1)) as real / d as real
  {
    PartTimes(p, d, count - 1);
  }

  lemma QuotientParts(n: nat, d: nat)
    requires d > 0
    ensures
      var x := n as real / d as real;
      x.Floor == n / d && x - (n / d) as real == (n % d) as real / d as real
  {
    FloorOfQuotient(n, d);
    assert n == n / d * d + n % d;
    RestOfQuotient(n, d, n / d, n % d);
  }

  /** The rank p / d of the way, as whole part and remainder. */
  lemma RankParts(p: nat, d: nat, count: nat)
    requires 0 < p < d && count > 0
    ensures
      var rank, whole := Rank(p as real / d as real, count), p * (count - 1);
      rank == whole as real / d as real && rank.Floor == whole / d
      && rank - (whole / d) as real == (whole % d) as real / d as real
  {
    hide *;
    RankIs(p, d, count);
    QuotientParts(p * (count - 1), d);
  }

  lemma StepOver(a: int, b: int, r: nat, d: nat)
    requires d > 0
    ensures
      var frac := r as real / d as real;
      a as real * (1.0 - frac) + b as real * frac == (d * a + (b - a) * r) as real / d as real
  {
    var frac := r as real / d as real;
    Mix(a as real, b as real, frac);
    assert frac * d as real == r as real;
    var x := a as real + (b - a) as real * frac;
    assert x * d as real == a as real * d as real + (b - a) as real * (frac * d as real);
    assert (d * a + (b - a) * r) as real == d as real * a as real + (b - a) as real * r as real;
  }

  lemma WholePart(p: nat, d: nat, n: nat)
    requires 0 < p < d && n > 0
    ensures p * n / d < n
  {
    var q := p * n / d;
    assert p * n == q * d + p * n % d;
    Larger(p + 1, d, n);
    if q >= n {
      Larger(n, q, d);
    }
  }

  lemma InnerStep(s: seq<int>, p: nat, d: nat)
    requires |s| > 1 && 0 < p < d
    ensures
      var rank := p * (|s| - 1);
      var lo := rank / d;
      && lo + 1 < |s|
      && Interpolated(s, Rank(p as real / d as real, |s|)) ==
           (d * s[lo] + (s[lo + 1] - s[lo]) * (rank % d)) as real / d as real
  {
    hide Rank;
    var rank := p * (|s| - 1);
    WholePart(p, d, |s| - 1);
    RankParts(p, d, |s|);
    StepOver(s[rank / d], s[rank / d + 1], rank % d, d);
  }

  lemma OneValue(x: int, d: nat)
    requires d > 0
    ensures TowardZero(x, d * x, d)
  {
  }

  /** Every percentile divides the step around its rank. */
  lemma PercentileDividesStep(s: seq<int>, p: nat, d: nat)
    requires s != [] && 0 < p < d
    ensures DividesStep(s, p, d, Percentile(s, p as real / d as real))
  {
    hide Truncated, Rank, Quotient, Interpolated, TowardZero;
    var rank := p * (|s| - 1);
    if |s| == 1 {
      assert rank == 0;
      OneValue(s[0], d);
    } else {
      InnerStep(s, p, d);
      var lo := rank / d;
      var num := d * s[lo] + (s[lo + 1] - s[lo]) * (rank % d);
      TruncatedQuotient(num, d);
      QuotientIsTowardZero(num, d);
    }
  }

  lemma StatsDescribe(s: seq<int>)
    requires s != []
    ensures Describes(StatsOf(s), s)
  {
    hide Percentile, Quotient, DividesStep, TowardZero;
    QuotientIsTowardZero(Sum(s), |s|);
    PercentileDividesStep(s, 1, 2);
    PercentileDividesStep(s, 19, 20);
    assert 1 as real / 2 as real == 0.5 && 19 as real / 20 as real == 0.95;
  }

  /** The values in rising order. */
  ghost predicate SortedCopy(values: seq<int>, s: seq<int>) {
    Rising(s) && multiset(s) == multiset(values)
  }

  method ComputeStats(values: seq<int>) returns (stats: LatencyStats)
    ensures exists s :: SortedCopy(values, s) && stats == StatsOf(s)
    ensures values == [] ==> stats == LatencyStats(0, 0, 0)
    ensures values != [] ==> exists s :: SortedCopy(values, s) && s != [] && Describes(stats, s)
  {
    hide Percentile, Quotient, Describes;
    var s := Sort(AtMost, values);
    var sum := 0;
    for i := 0 to |s|
      invariant sum == Sum(s[..i])
    {
      assert s[..i + 1][..i] == s[..i];
      sum := sum + s[i];
    }
    assert s[..|s|] == s;
    if s == [] {
      stats := NO_STATS;
    } else {
      stats := LatencyStats(Quotient(sum, |s|), Percentile(s, 0.5), Percentile(s, 0.95));
    }
    assert SortedCopy(values, s) && stats == StatsOf(s);
    assert |multiset(s)| == |multiset(values)|;
    if values != [] {
      assert s != [];
      StatsDescribe(s);
    }
  }

  lemma Exactly(q: int, x: int, d: nat)
    requires d > 0 && TowardZero(q, d * x, d)
    ensures q == x
  {
    if q > x {
      Larger(x + 1, q, d);
    }
    if q < x {
      Larger(q + 1, x, d);
    }
  }

  /** Of 2 k + 1 values P50 is the one with k before it in order, and of 20 k + 1 values P95 the one with 19 k. */
  lemma WholeRanks(stats: LatencyStats, s: seq<int>, k: nat)
    requires s != [] && Describes(stats, s)
    ensures |s| == 2 * k + 1 ==> stats.p50 == s[k]
    ensures |s| == 20 * k + 1 ==> stats.p95 == s[19 * k]
  {
    hide TowardZero;
    if |s| == 2 * k + 1 {
      assert 1 * (|s| - 1) / 2 == k && 1 * (|s| - 1) % 2 == 0;
      Exactly(stats.p50, s[k], 2);
    }
    if |s| == 20 * k + 1 {
      assert 19 * (|s| - 1) / 20 == 19 * k && 19 * (|s| - 1) % 20 == 0;
      Exactly(stats.p95, s[19 * k], 20);
    }
  }

  /** The order the values come in does not matter. */
  lemma StatsAreOrderIndependent(values: seq<int>, values': seq<int>, s: seq<int>, s': seq<int>)
    requires multiset(values) == multiset(values') && SortedCopy(values, s) && SortedCopy(values', s')
    ensures StatsOf(s) == StatsOf(s')
  {
    SortedIsUnique(AtMost, s, s');
  }

  lemma QuotientIsClose(n: int, d: int)
    requires d > 0
    ensures -d < n - Quotient(n, d) * d < d
  {
    var m := if n >= 0 then n else -n;
    assert m == m / d * d + m % d;
    assert (-(m / d)) * d == -(m / d * d);
  }

  /** The least value is at most the median, that at most the 95th percentile, that at most the greatest;
      and the mean lies between the least and the greatest. */
  lemma StatsAreInRange(values: seq<int>, s: seq<int>, i: nat)
    requires SortedCopy(values, s) && i < |values|
    ensures var stats := StatsOf(s);
      && s != [] && s[0] <= values[i] <= s[|s| - 1]
      && s[0] <= stats.p50 <= stats.p95 <= s[|s| - 1]
      && s[0] <= stats.mean <= s[|s| - 1]
      && -|s| < Sum(s) - stats.mean * |s| < |s|
  {
    hide Percentile, Quotient;
    assert values[i] in multiset(s);
    var k :| 0 <= k < |s| && s[k] == values[i];
    PercentilesAreOrdered(s, 0.5, 0.95);
    SumBounds(s, s[0], s[|s| - 1]);
    QuotientBounds(Sum(s), |s|, s[0], s[|s| - 1]);
    QuotientIsClose(Sum(s), |s|);
  }
}
