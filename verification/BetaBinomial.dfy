/**
 The packet-loss detector (services/argus/betab.go), over exact reals: sums of log-gamma terms are
 read as the products of gamma values they are the logarithms of.
 */
module BetaBinomial {
  import opened Reals

  // ------------------------------------------------------------ building blocks

  /** x (x + 1) ... (x + n - 1) */
  function Rise(x: real, n: nat): real {
    if n == 0 then 1.0 else Rise(x, n - 1) * (x + (n - 1) as real)
  }

  function Factorial(n: nat): nat {
    if n == 0 then 1 else n * Factorial(n - 1)
  }

  function Choose(n: nat, k: nat): nat {
    if k == 0 then 1 else if n == 0 then 0 else Choose(n - 1, k - 1) + Choose(n - 1, k)
  }

  /** The unnormalised probability of i losses out of n. */
  function Mass(n: nat, i: nat, a: real, b: real): real
    requires i <= n
  {
    Choose(n, i) as real * (Rise(a, i) * Rise(b, n - i))
  }

  lemma {:induction false} RiseIsPositive(x: real, n: nat)
    requires x > 0.0
    ensures Rise(x, n) > 0.0
  {
    if n > 0 {
      RiseIsPositive(x, n - 1);
      PositiveProduct(Rise(x, n - 1), x + (n - 1) as real);
    }
  }

  lemma {:induction false} ChooseBounds(n: nat, k: nat)
    ensures k <= n ==> Choose(n, k) >= 1
    ensures k > n ==> Choose(n, k) == 0
    ensures Choose(n, n) == 1
  {
    if n > 0 && k > 0 {
      ChooseBounds(n - 1, k - 1);
      ChooseBounds(n - 1, k);
      ChooseBounds(n - 1, n);
    } else if n > 0 {
      ChooseBounds(n - 1, n - 1);
      ChooseBounds(n - 1, n);
    }
  }

  lemma MassIsPositive(n: nat, i: nat, a: real, b: real)
    requires i <= n && a > 0.0 && b > 0.0
    ensures Mass(n, i, a, b) > 0.0
  {
    ChooseBounds(n, i);
    RiseIsPositive(a, i);
    RiseIsPositive(b, n - i);
    PositiveProduct(Rise(a, i), Rise(b, n - i));
    PositiveProduct(Choose(n, i) as real, Rise(a, i) * Rise(b, n - i));
  }

  // -------------------------------------------------------------- Vandermonde

  function Masses(n: nat, a: real, b: real): (r: seq<real>)
    ensures |r| == n + 1
  {
    seq(n + 1, i requires 0 <= i <= n => Mass(n, i, a, b))
  }

  lemma Pascal(c0: real, c1: real, ra: real, rb: real, fa: real, fb: real, ra1: real, rb1: real)
    requires ra1 == ra * fa && rb1 == rb * fb
    ensures (c0 + c1) * (ra1 * rb1) == c0 * (ra * rb1) * fa + c1 * (ra1 * rb) * fb
  {
    assert c0 * (ra * rb1) * fa == c0 * ((ra * fa) * rb1);
    assert c1 * (ra1 * rb) * fb == c1 * (ra1 * (rb * fb));
  }

  /** The part of a mass that one more lost packet, or one more received packet, carries on. */
  function Up(n: nat, i: nat, a: real, b: real): real
    requires i <= n
  {
    Mass(n, i, a, b) * (a + i as real)
  }

  function Down(n: nat, i: nat, a: real, b: real): real
    requires i <= n
  {
    Mass(n, i, a, b) * (b + (n - i) as real)
  }

  lemma MassInside(n: nat, i: nat, a: real, b: real)
    requires 0 < i <= n
    ensures Mass(n + 1, i, a, b) == Up(n, i - 1, a, b) + Down(n, i, a, b)
  {
    var c0, c1 := Choose(n, i - 1) as real, Choose(n, i) as real;
    var ra, rb := Rise(a, i - 1), Rise(b, n - i);
    var fa, fb := a + (i - 1) as real, b + (n - i) as real;
    var ra1, rb1 := Rise(a, i), Rise(b, n + 1 - i);
    assert Mass(n + 1, i, a, b) == (c0 + c1) * (ra1 * rb1) by {
      assert Choose(n + 1, i) as real == c0 + c1;
    }
    assert Up(n, i - 1, a, b) == c0 * (ra * rb1) * fa;
    assert Down(n, i, a, b) == c1 * (ra1 * rb) * fb;
    Pascal(c0, c1, ra, rb, fa, fb, ra1, rb1);
  }

  lemma MassAtEnds(n: nat, a: real, b: real)
    ensures Mass(n + 1, 0, a, b) == Down(n, 0, a, b)
    ensures Mass(n + 1, n + 1, a, b) == Up(n, n, a, b)
  {
    ChooseBounds(n, n);
    ChooseBounds(n + 1, n + 1);
    assert Rise(a, 0) == 1.0 && Rise(b, 0) == 1.0;
  }

  lemma UpAndDown(n: nat, i: nat, a: real, b: real)
    requires i <= n
    ensures Up(n, i, a, b) + Down(n, i, a, b) == (a + b + n as real) * Mass(n, i, a, b)
  {
    var m, p, q := Mass(n, i, a, b), a + i as real, b + (n - i) as real;
    assert m * p + m * q == m * (p + q);
  }

  /** Each new mass is made of what its two neighbours carry on. */
  ghost predicate Carried(ups: seq<real>, downs: seq<real>, both: seq<real>, next: seq<real>) {
    && |ups| == |downs| == |both| > 0 && |next| == |ups| + 1
    && next[0] == downs[0] && next[|ups|] == ups[|ups| - 1]
    && (forall i :: 0 < i < |ups| ==> next[i] == ups[i - 1] + downs[i])
    && (forall i :: 0 <= i < |ups| ==> both[i] == ups[i] + downs[i])
  }

  lemma {:induction false} CarriedPrefix(ups: seq<real>, downs: seq<real>, both: seq<real>, next: seq<real>, k: nat)
    requires Carried(ups, downs, both, next) && 1 <= k <= |ups|
    ensures Sum(next[..k]) == Sum(both[..k - 1]) + downs[k - 1]
  {
    assert next[..k][..k - 1] == next[..k - 1];
    if k == 1 {
      assert next[..0] == [] && both[..0] == [];
    } else {
      CarriedPrefix(ups, downs, both, next, k - 1);
      assert both[..k - 1][..k - 2] == both[..k - 2];
    }
  }

  lemma CarriedTotal(ups: seq<real>, downs: seq<real>, both: seq<real>, next: seq<real>)
    requires Carried(ups, downs, both, next)
    ensures Sum(next) == Sum(both)
  {
    CarriedPrefix(ups, downs, both, next, |ups|);
    assert next[..|next| - 1] == next[..|ups|];
  }

  lemma MassesAt(n: nat, i: nat, a: real, b: real)
    requires i <= n
    ensures Masses(n, a, b)[i] == Mass(n, i, a, b)
  {
  }

  lemma BothAt(n: nat, i: nat, a: real, b: real)
    requires i <= n
    ensures Scaled(a + b + n as real, Masses(n, a, b))[i] == Up(n, i, a, b) + Down(n, i, a, b)
  {
    hide Mass;
    var c, m := a + b + n as real, Mass(n, i, a, b);
    assert Scaled(c, Masses(n, a, b))[i] == c * m by {
      ScaledAt(c, Masses(n, a, b), i);
      MassesAt(n, i, a, b);
    }
    UpAndDown(n, i, a, b);
  }

  lemma NextAt(n: nat, i: nat, a: real, b: real)
    requires 0 < i <= n
    ensures Masses(n + 1, a, b)[i] == Up(n, i - 1, a, b) + Down(n, i, a, b)
  {
    MassInside(n, i, a, b);
  }

  lemma NextAtEnds(n: nat, a: real, b: real)
    ensures Masses(n + 1, a, b)[0] == Down(n, 0, a, b) && Masses(n + 1, a, b)[n + 1] == Up(n, n, a, b)
  {
    MassAtEnds(n, a, b);
  }

  lemma TotalGrows(n: nat, a: real, b: real)
    ensures Sum(Masses(n + 1, a, b)) == Sum(Scaled(a + b + n as real, Masses(n, a, b)))
  {
    var ups := seq(n + 1, i requires 0 <= i <= n => Up(n, i, a, b));
    var downs := seq(n + 1, i requires 0 <= i <= n => Down(n, i, a, b));
    var both, next := Scaled(a + b + n as real, Masses(n, a, b)), Masses(n + 1, a, b);
    forall i | 0 <= i <= n
      ensures both[i] == ups[i] + downs[i]
    {
      BothAt(n, i, a, b);
    }
    forall i | 0 < i <= n
      ensures next[i] == ups[i - 1] + downs[i]
    {
      NextAt(n, i, a, b);
    }
    NextAtEnds(n, a, b);
    CarriedTotal(ups, downs, both, next);
  }

  lemma OneMass(a: real, b: real)
    ensures Sum(Masses(0, a, b)) == 1.0
  {
    assert Masses(0, a, b) == [1.0];
    assert Sum([1.0][..0]) == 0.0;
  }

  /** Chu-Vandermonde: the masses of 0..n losses add up to the rising factorial of a + b. */
  lemma {:induction false} Vandermonde(n: nat, a: real, b: real)
    ensures Sum(Masses(n, a, b)) == Rise(a + b, n)
  {
    hide Mass, Masses, Sum;
    if n == 0 {
      OneMass(a, b);
    } else {
      Vandermonde(n - 1, a, b);
      TotalGrows(n - 1, a, b);
      SumScales(a + b + (n - 1) as real, Masses(n - 1, a, b));
    }
  }

  // ------------------------------------------------------------- probabilities

  lemma PositiveQuotient(x: real, y: real)
    requires x > 0.0 && y > 0.0
    ensures x / y > 0.0
  {
  }

  /** The probability of i losses out of n. */
  function Pmf(n: nat, i: nat, a: real, b: real): (p: real)
    requires i <= n && a > 0.0 && b > 0.0
    ensures p > 0.0
  {
    RiseIsPositive(a + b, n);
    MassIsPositive(n, i, a, b);
    PositiveQuotient(Mass(n, i, a, b), Rise(a + b, n));
    Mass(n, i, a, b) / Rise(a + b, n)
  }

  /** P(X >= k), as the sum of the probabilities of k..n losses. */
  function Tail(k: nat, n: nat, a: real, b: real): real
    requires k <= n + 1 && a > 0.0 && b > 0.0
    decreases n + 1 - k
  {
    if k == n + 1 then 0.0 else Pmf(n, k, a, b) + Tail(k + 1, n, a, b)
  }

  lemma AddQuotients(x: real, y: real, r: real)
    requires r > 0.0
    ensures x / r + y / r == (x + y) / r
  {
  }

  lemma {:induction false} TailIsSuffix(k: nat, n: nat, a: real, b: real)
    requires k <= n + 1 && a > 0.0 && b > 0.0
    ensures Rise(a + b, n) > 0.0
    ensures Tail(k, n, a, b) == (Sum(Masses(n, a, b)) - Sum(Masses(n, a, b)[..k])) / Rise(a + b, n)
    decreases n + 1 - k
  {
    var m, r := Masses(n, a, b), Rise(a + b, n);
    RiseIsPositive(a + b, n);
    if k == n + 1 {
      assert m[..k] == m;
    } else {
      TailIsSuffix(k + 1, n, a, b);
      assert m[..k + 1][..k] == m[..k];
      AddQuotients(m[k], Sum(m) - Sum(m[..k + 1]), r);
    }
  }

  /** The probabilities add up to one. */
  lemma TailOfAll(n: nat, a: real, b: real)
    requires a > 0.0 && b > 0.0
    ensures Tail(0, n, a, b) == 1.0
  {
    TailIsSuffix(0, n, a, b);
    Vandermonde(n, a, b);
    assert Masses(n, a, b)[..0] == [];
    var r := Rise(a + b, n);
    assert r / r == 1.0;
  }

  /** More losses are strictly less likely. */
  lemma {:induction false} TailDecreases(k: nat, k': nat, n: nat, a: real, b: real)
    requires k < k' <= n + 1 && a > 0.0 && b > 0.0
    ensures Tail(k', n, a, b) < Tail(k, n, a, b)
    decreases k' - k
  {
    if k + 1 < k' {
      TailDecreases(k + 1, k', n, a, b);
    }
  }

  lemma TailBounds(k: nat, n: nat, a: real, b: real)
    requires k <= n + 1 && a > 0.0 && b > 0.0
    ensures 0.0 <= Tail(k, n, a, b) <= 1.0
  {
    TailOfAll(n, a, b);
    if k > 0 {
      TailDecreases(0, k, n, a, b);
    }
    if k < n + 1 {
      TailDecreases(k, n + 1, n, a, b);
    }
  }

  /** The loop, its shortcuts and its clamp compute the exact tail: the shortcuts agree with the sum
      and the clamp never changes it. */
  method UpperTail(k: int, n: nat, a: real, b: real) returns (tail: real)
    requires a > 0.0 && b > 0.0
    ensures tail == Tail(if k < 0 then 0 else if k > n then n + 1 else k, n, a, b)
    ensures 0.0 <= tail <= 1.0
  {
    TailOfAll(n, a, b);
    if k <= 0 {
      return 1.0;
    }
    if k > n {
      return 0.0;
    }
    tail := 0.0;
    var i := k;
    while i <= n
      invariant k <= i <= n + 1
      invariant tail + Tail(i, n, a, b) == Tail(k, n, a, b)
    {
      tail := tail + Pmf(n, i, a, b);
      i := i + 1;
    }
    TailBounds(k, n, a, b);
    if tail > 1.0 {
      tail := 1.0;
    }
  }

  // -------------------------------------------------- what the log-gamma terms are

  /** A gamma function, as far as it matters here. */
  ghost predicate IsGamma(gamma: real -> real) {
    && gamma(1.0) == 1.0
    && (forall x: real :: x > 0.0 ==> gamma(x) > 0.0 && gamma(x + 1.0) == x * gamma(x))
  }

  lemma GammaIsPositive(gamma: real -> real, x: real)
    requires IsGamma(gamma) && x > 0.0
    ensures gamma(x) > 0.0
  {
  }

  ghost function Beta(gamma: real -> real, x: real, y: real): real
    requires IsGamma(gamma) && x > 0.0 && y > 0.0
  {
    GammaIsPositive(gamma, x + y);
    gamma(x) * gamma(y) / gamma(x + y)
  }

  /** exp(logChoose(n, i)) with factorials written as gamma values. */
  ghost function GammaChoose(gamma: real -> real, n: nat, i: nat): real
    requires IsGamma(gamma) && i <= n
  {
    GammaIsPositive(gamma, i as real + 1.0);
    GammaIsPositive(gamma, (n - i) as real + 1.0);
    PositiveProduct(gamma(i as real + 1.0), gamma((n - i) as real + 1.0));
    gamma(n as real + 1.0) / (gamma(i as real + 1.0) * gamma((n - i) as real + 1.0))
  }

  lemma Rearrange(y: real, r: real, g: real)
    ensures y * (r * g) == (r * y) * g
  {
  }

  lemma GammaStep(gamma: real -> real, y: real, g: real)
    requires IsGamma(gamma) && y > 0.0 && gamma(y) == g
    ensures gamma(y + 1.0) == y * g
  {
  }

  lemma {:induction false} GammaRises(gamma: real -> real, x: real, n: nat)
    requires IsGamma(gamma) && x > 0.0
    ensures gamma(x + n as real) == Rise(x, n) * gamma(x)
  {
    if n == 0 {
      assert x + 0 as real == x;
    } else {
      hide IsGamma;
      GammaRises(gamma, x, n - 1);
      var y, r, g := x + (n - 1) as real, Rise(x, n - 1), gamma(x);
      GammaStep(gamma, y, r * g);
      assert y + 1.0 == x + n as real;
      Rearrange(y, r, g);
    }
  }

  lemma CastProduct(x: nat, y: nat)
    ensures (x * y) as real == x as real * y as real
  {
  }

  lemma {:induction false} GammaIsFactorial(gamma: real -> real, n: nat)
    requires IsGamma(gamma)
    ensures gamma(n as real + 1.0) == Factorial(n) as real
  {
    if n > 0 {
      hide IsGamma;
      GammaIsFactorial(gamma, n - 1);
      assert (n - 1) as real + 1.0 == n as real;
      GammaStep(gamma, n as real, Factorial(n - 1) as real);
      CastProduct(n, Factorial(n - 1));
    }
  }

  lemma QuotientStep(c0: nat, c1: nat, f: nat, g: nat, i: nat, j: nat, total: nat)
    requires c0 * (f * (j * g)) == total && c1 * ((i * f) * g) == total
    ensures (c0 + c1) * ((i * f) * (j * g)) == (i + j) * total
  {
    assert c0 * ((i * f) * (j * g)) == i * (c0 * (f * (j * g)));
    assert c1 * ((i * f) * (j * g)) == j * (c1 * ((i * f) * g));
    assert (c0 + c1) * ((i * f) * (j * g)) == c0 * ((i * f) * (j * g)) + c1 * ((i * f) * (j * g));
  }

  /** Pascal's recurrence counts n! / (i! (n - i)!). */
  lemma {:induction false} ChooseIsQuotient(n: nat, i: nat)
    requires i <= n
    ensures Choose(n, i) * (Factorial(i) * Factorial(n - i)) == Factorial(n)
  {
    ChooseBounds(n, i);
    if i == 0 {
      assert Factorial(0) == 1;
    } else if i == n {
      assert Factorial(0) == 1;
    } else {
      ChooseIsQuotient(n - 1, i - 1);
      ChooseIsQuotient(n - 1, i);
      QuotientStep(Choose(n - 1, i - 1), Choose(n - 1, i), Factorial(i - 1), Factorial(n - i - 1), i, n - i,
                   Factorial(n - 1));
    }
  }

  lemma Cancel(c: real, d: real, e: real)
    requires d > 0.0 && c * d == e
    ensures e / d == c
  {
  }

  lemma GammaChooseIsChoose(gamma: real -> real, n: nat, i: nat)
    requires IsGamma(gamma) && i <= n
    ensures GammaChoose(gamma, n, i) == Choose(n, i) as real
  {
    hide IsGamma, Factorial, Choose;
    GammaIsFactorial(gamma, n);
    GammaIsFactorial(gamma, i);
    GammaIsFactorial(gamma, n - i);
    ChooseIsQuotient(n, i);
    var f, g := Factorial(i), Factorial(n - i);
    GammaIsPositive(gamma, i as real + 1.0);
    GammaIsPositive(gamma, (n - i) as real + 1.0);
    PositiveProduct(f as real, g as real);
    CastProduct(f, g);
    CastProduct(Choose(n, i), f * g);
    Cancel(Choose(n, i) as real, f as real * g as real, Factorial(n) as real);
  }

  lemma CancelRight(x: real, y: real, z: real)
    requires z > 0.0 && x * z == y * z
    ensures x == y
  {
    assert (x - y) * z == 0.0;
    if x > y {
      PositiveProduct(x - y, z);
    } else if x < y {
      PositiveProduct(y - x, z);
    }
  }

  lemma BetaQuotient(ga: real, gb: real, gab: real, ra: real, rb: real, rab: real)
    requires gab > 0.0 && rab > 0.0 && rab * gab > 0.0
    ensures (ra * ga) * (rb * gb) / (rab * gab) * rab == (ra * rb) * (ga * gb / gab)
  {
    var q := ga * gb / gab;
    assert q * gab == ga * gb;
    assert (ra * ga) * (rb * gb) == (ra * rb) * (ga * gb);
    var lhs := (ra * ga) * (rb * gb) / (rab * gab);
    assert lhs * (rab * gab) == (ra * rb) * (q * gab);
    assert (lhs * rab) * gab == ((ra * rb) * q) * gab;
    CancelRight(lhs * rab, (ra * rb) * q, gab);
  }

  /** Shifting both arguments multiplies a beta value by rising factorials. */
  lemma BetaRatio(gamma: real -> real, n: nat, i: nat, a: real, b: real)
    requires IsGamma(gamma) && i <= n && a > 0.0 && b > 0.0
    ensures Beta(gamma, a, b) > 0.0
    ensures Beta(gamma, i as real + a, (n - i) as real + b) * Rise(a + b, n)
         == (Rise(a, i) * Rise(b, n - i)) * Beta(gamma, a, b)
  {
    hide IsGamma, Rise;
    GammaRises(gamma, a, i);
    GammaRises(gamma, b, n - i);
    GammaRises(gamma, a + b, n);
    assert i as real + a + ((n - i) as real + b) == a + b + n as real;
    assert a + i as real == i as real + a && b + (n - i) as real == (n - i) as real + b;
    RiseIsPositive(a + b, n);
    GammaIsPositive(gamma, a);
    GammaIsPositive(gamma, b);
    GammaIsPositive(gamma, a + b);
    PositiveProduct(Rise(a + b, n), gamma(a + b));
    PositiveProduct(gamma(a), gamma(b));
    PositiveQuotient(gamma(a) * gamma(b), gamma(a + b));
    BetaQuotient(gamma(a), gamma(b), gamma(a + b), Rise(a, i), Rise(b, n - i), Rise(a + b, n));
  }

  lemma FinalQuotient(c: real, up: real, down: real, p: real, r: real)
    requires down > 0.0 && r > 0.0 && up * r == p * down
    ensures c * up / down == c * p / r
  {
    var q := c * p / r;
    assert q * r == c * p;
    assert (q * down) * r == (q * r) * down == (c * p) * down == c * (up * r) == (c * up) * r;
    CancelRight(q * down, c * up, r);
    Cancel(q, down, c * up);
  }

  /** The product of gamma values whose logarithm the loop exponentiates is the probability. */
  lemma TermIsProbability(gamma: real -> real, n: nat, i: nat, a: real, b: real)
    requires IsGamma(gamma) && i <= n && a > 0.0 && b > 0.0
    ensures Beta(gamma, a, b) > 0.0
    ensures GammaChoose(gamma, n, i) * Beta(gamma, i as real + a, (n - i) as real + b) / Beta(gamma, a, b)
      == Pmf(n, i, a, b)
  {
    hide IsGamma, Beta, GammaChoose, Rise, Choose;
    GammaChooseIsChoose(gamma, n, i);
    BetaRatio(gamma, n, i, a, b);
    var c, up, down, p := Choose(n, i) as real, Beta(gamma, i as real + a, (n - i) as real + b), Beta(gamma, a, b),
      Rise(a, i) * Rise(b, n - i);
    var r := Rise(a + b, n);
    RiseIsPositive(a + b, n);
    FinalQuotient(c, up, down, p, r);
  }

  // ------------------------------------------------------------------ detector

  datatype LossConfig = LossConfig(threshold: real, warmup: int)

  datatype LossState = LossState(lost: nat, received: int, n: nat, lastSeen: real)

  datatype LossAlarm = NoAlarm | LossAlarm(ts: real, rate: real, severity: real, tail: real)

  const NEW_STATE := LossState(0, 0, 0, 0.0)

  /** P(at least `lost` of `sent` packets lost) under the baseline and the Jeffreys prior. */
  function LossTail(st: LossState, lost: nat, sent: nat): real
    requires st.received >= 0
  {
    Tail(if lost > sent then sent + 1 else lost, sent, 0.5 + st.lost as real, 0.5 + st.received as real)
  }

  predicate Trips(cfg: LossConfig, st: LossState, lost: nat, sent: nat)
    requires st.received >= 0
  {
    sent > 0 && st.lost + st.received >= cfg.warmup && lost > 0 && LossTail(st, lost, sent) <= cfg.threshold
  }

  function Losses(sent: int, received: int): nat {
    if sent - received < 0 then 0 else sent - received
  }

  function Fold(st: LossState, ts: real, sent: int, received: int): LossState {
    LossState(st.lost + Losses(sent, received), st.received + received, st.n + 1, ts)
  }

  /** Antitone, and 4 at 0.0001: all that matters of the decimal logarithm. */
  ghost predicate IsNegLog10(f: real -> real) {
    && (forall x: real, y: real :: 0.0 < x <= y ==> f(x) >= f(y))
    && f(0.0001) == 4.0
  }

  function Severity(negLog10: real -> real, tail: real): real {
    var weight := negLog10(if tail >= 0.000000000001 then tail else 0.000000000001);
    if weight <= 12.0 then weight else 12.0
  }

  lemma SeverityIsAntitone(negLog10: real -> real, tail: real, tail': real)
    requires IsNegLog10(negLog10) && tail <= tail'
    ensures Severity(negLog10, tail') <= Severity(negLog10, tail)
  {
  }

  class LossBaseline {
    var lost: nat
    var received: int
    var n: nat
    var lastSeen: real

    function View(): LossState
      reads this
    {
      LossState(lost, received, n, lastSeen)
    }

    constructor ()
      ensures View() == NEW_STATE
    {
      lost, received, n, lastSeen := 0, 0, 0, 0.0;
    }

    /** Judges the sample against the baseline before it, then folds it in. An alarm under the
        deployed threshold weighs at least 4. The counts of a sample may be any numbers, but a baseline
        that has fallen below zero has no distribution to judge by. */
    method Step(cfg: LossConfig, ts: real, sent: int, got: int, negLog10: real -> real) returns (alarm: LossAlarm)
      requires IsNegLog10(negLog10) && (sent > 0 ==> received >= 0)
      modifies this
      ensures View() == Fold(old(View()), ts, sent, got)
      ensures lost == old(lost) + (if got < sent then sent - got else 0) && received == old(received) + got
      ensures n == old(n) + 1 && lastSeen == ts
      ensures alarm.LossAlarm? <==> sent > 0 && Trips(cfg, old(View()), Losses(sent, got), sent)
      ensures alarm.LossAlarm? <==>
        && 0 < sent && got < sent && old(lost) + old(received) >= cfg.warmup
        && LossTail(old(View()), sent - got, sent) <= cfg.threshold
      ensures alarm.LossAlarm? ==>
        && alarm.ts == ts && alarm.tail == LossTail(old(View()), Losses(sent, got), sent)
        && 0.0 <= alarm.tail <= cfg.threshold && alarm.tail <= 1.0
        && alarm.severity == Severity(negLog10, alarm.tail) <= 12.0
        && (alarm.tail >= 0.000000000001 && negLog10(alarm.tail) <= 12.0 ==> alarm.severity == negLog10(alarm.tail))
        && alarm.rate == Losses(sent, got) as real / sent as real
        && (cfg.threshold <= 0.0001 ==> alarm.severity >= 4.0)
    {
      alarm := NoAlarm;
      var newLost := sent - got;
      if newLost < 0 {
        newLost := 0;
      }
      if sent > 0 {
        var tail := UpperTail(newLost, sent, 0.5 + lost as real, 0.5 + received as real);
        if lost + received >= cfg.warmup && newLost > 0 && tail <= cfg.threshold {
          SeverityIsAntitone(negLog10, tail, cfg.threshold);
          SeverityIsAntitone(negLog10, if cfg.threshold <= 0.0001 then cfg.threshold else 0.0001, 0.0001);
          alarm := LossAlarm(ts, newLost as real / sent as real, Severity(negLog10, tail), tail);
        }
      }
      lost := lost + newLost;
      received := received + got;
      n := n + 1;
      lastSeen := ts;
    }
  }

  /** If a number of losses trips the detector, so does any larger number up to the packets sent, and
      with at least the same severity. */
  lemma MoreLossTripsToo(cfg: LossConfig, st: LossState, lost: nat, more: nat, sent: nat, negLog10: real -> real)
    requires st.received >= 0 && Trips(cfg, st, lost, sent) && lost <= more <= sent && IsNegLog10(negLog10)
    ensures Trips(cfg, st, more, sent)
    ensures Severity(negLog10, LossTail(st, more, sent)) >= Severity(negLog10, LossTail(st, lost, sent))
  {
    hide Tail, IsNegLog10, Severity;
    if lost < more {
      TailDecreases(lost, more, sent, 0.5 + st.lost as real, 0.5 + st.received as real);
    }
    SeverityIsAntitone(negLog10, LossTail(st, more, sent), LossTail(st, lost, sent));
  }
}
