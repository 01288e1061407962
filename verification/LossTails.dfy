/**
 How the loss detector's tail depends on the baseline (services/argus/betab.go:71-76): it grows with the packets
 lost before and falls with those received, so what is unusual for a lossy path is more so for a cleaner one.
 */
module LossTails {
  import opened Reals
  import opened BetaBinomial

  // -------------------------------------------------------- ratios of probabilities

  lemma {:induction false} RiseShifts(x: real, n: nat)
    ensures Rise(x + 1.0, n) * x == Rise(x, n) * (x + n as real)
  {
    if n > 0 {
      RiseShifts(x, n - 1);
      var r, r', top := Rise(x + 1.0, n - 1), Rise(x, n - 1), x + n as real;
      assert Rise(x + 1.0, n) == r * top;
      assert Rise(x, n) == r' * (x + (n - 1) as real);
      assert r * top * x == r * x * top;
    }
  }

  lemma CrossRatio(m: real, m': real, r: real, r': real, p: real, q: real, s: real, u: real)
    requires r > 0.0 && r' > 0.0 && m' * p == m * q && r' * s == r * u
    ensures (m' / r') * (p * u) == (m / r) * (q * s)
  {
    var x, y := m / r, m' / r';
    assert x * r == m && y * r' == m';
    assert (y * (p * u)) * (r * r') == (m' * p) * (r * u);
    assert (x * (q * s)) * (r * r') == (m * q) * (r' * s);
    PositiveProduct(r, r');
    CancelRight(y * (p * u), x * (q * s), r * r');
  }

  lemma ShiftedMass(c: real, up: real, up': real, other: real, x: real, y: real)
    requires up' * x == up * y
    ensures c * (up' * other) * x == c * (up * other) * y
  {
    assert c * (up' * other) * x == c * other * (up' * x);
    assert c * (up * other) * y == c * other * (up * y);
  }

  /** The two sides of the ratio between probabilities before and after. */
  function Per(c: real, n: nat, a: real, b: real): real {
    c * (a + b + n as real)
  }

  function Factor(f: real, a: real, b: real): real {
    f * (a + b)
  }

  /** One more loss before makes i losses likelier in proportion to a + i. */
  lemma MoreLostBefore(n: nat, i: nat, a: real, b: real)
    requires i <= n && a > 0.0 && b > 0.0
    ensures Pmf(n, i, a + 1.0, b) * Per(a, n, a, b) == Pmf(n, i, a, b) * Factor(a + i as real, a, b)
  {
    hide Rise, Choose;
    var r, r' := Rise(a + b, n), Rise(a + 1.0 + b, n);
    RiseIsPositive(a + b, n);
    RiseIsPositive(a + 1.0 + b, n);
    RiseShifts(a, i);
    assert a + b + 1.0 == a + 1.0 + b;
    RiseShifts(a + b, n);
    ShiftedMass(Choose(n, i) as real, Rise(a, i), Rise(a + 1.0, i), Rise(b, n - i), a, a + i as real);
    CrossRatio(Mass(n, i, a, b), Mass(n, i, a + 1.0, b), r, r', a, a + i as real, a + b, a + b + n as real);
  }

  lemma ShiftedOther(c: real, up: real, other: real, other': real, x: real, y: real)
    requires other' * x == other * y
    ensures c * (up * other') * x == c * (up * other) * y
  {
    assert c * (up * other') * x == c * up * (other' * x);
    assert c * (up * other) * y == c * up * (other * y);
  }

  /** One more packet received before makes i losses likelier in proportion to b + n - i. */
  lemma MoreReceivedBefore(n: nat, i: nat, a: real, b: real)
    requires i <= n && a > 0.0 && b > 0.0
    ensures Pmf(n, i, a, b + 1.0) * Per(b, n, a, b) == Pmf(n, i, a, b) * Factor(b + (n - i) as real, a, b)
  {
    hide Rise, Choose;
    var r, r' := Rise(a + b, n), Rise(a + (b + 1.0), n);
    RiseIsPositive(a + b, n);
    RiseIsPositive(a + (b + 1.0), n);
    RiseShifts(b, n - i);
    assert a + b + 1.0 == a + (b + 1.0);
    RiseShifts(a + b, n);
    ShiftedOther(Choose(n, i) as real, Rise(a, i), Rise(b, n - i), Rise(b + 1.0, n - i), b, b + (n - i) as real);
    CrossRatio(Mass(n, i, a, b), Mass(n, i, a, b + 1.0), r, r', b, b + (n - i) as real, a + b, a + b + n as real);
  }

  // ---------------------------------------------------------------- head and tail

  /** P(X < k). */
  function Head(k: nat, n: nat, a: real, b: real): real
    requires k <= n + 1 && a > 0.0 && b > 0.0
  {
    if k == 0 then 0.0 else Head(k - 1, n, a, b) + Pmf(n, k - 1, a, b)
  }

  lemma {:induction false} HeadAndTail(k: nat, n: nat, a: real, b: real)
    requires k <= n + 1 && a > 0.0 && b > 0.0
    ensures Head(k, n, a, b) + Tail(k, n, a, b) == 1.0
    decreases k
  {
    if k == 0 {
      TailOfAll(n, a, b);
    } else {
      HeadAndTail(k - 1, n, a, b);
    }
  }

  lemma {:induction false} HeadIsPositive(k: nat, n: nat, a: real, b: real)
    requires 0 < k <= n + 1 && a > 0.0 && b > 0.0
    ensures Head(k, n, a, b) > 0.0
    decreases k
  {
    if k > 1 {
      HeadIsPositive(k - 1, n, a, b);
    }
  }

  lemma TailIsPositive(k: nat, n: nat, a: real, b: real)
    requires k <= n && a > 0.0 && b > 0.0
    ensures Tail(k, n, a, b) > 0.0
  {
    TailDecreases(k, n + 1, n, a, b);
  }

  lemma Scales(part: real, x: real, g: real)
    requires part > 0.0 && x < g
    ensures part * x < part * g
  {
  }

  lemma Grows(rest: real, g: real, x: real)
    requires rest > 0.0 && g <= x
    ensures rest * g <= rest * x
  {
  }

  lemma CancelLess(a: real, b: real, x: real)
    requires x > 0.0 && a * x < b * x
    ensures a < b
  {
  }

  lemma OneMoves(part: real, rest: real, part': real, rest': real, x: real, g: real)
    requires part > 0.0 && rest > 0.0 && x > 0.0
    requires part' * x >= part * g && rest' * x < rest * g
    ensures part' > part || rest' < rest
  {
    if g > x {
      Scales(part, x, g);
      CancelLess(part, part', x);
    } else {
      Grows(rest, g, x);
      CancelLess(rest', rest, x);
    }
  }

  /** Weight moved from one part to the other. */
  lemma WeightMoves(part: real, rest: real, part': real, rest': real, x: real, g: real)
    requires part + rest == 1.0 && part' + rest' == 1.0 && part > 0.0 && rest > 0.0 && x > 0.0
    requires part' * x >= part * g && rest' * x < rest * g
    ensures part' > part
  {
    OneMoves(part, rest, part', rest', x, g);
  }

  lemma FactorGrows(f: real, f': real, a: real, b: real)
    requires f <= f' && a > 0.0 && b > 0.0
    ensures Factor(f, a, b) <= Factor(f', a, b)
    ensures f < f' ==> Factor(f, a, b) < Factor(f', a, b)
  {
  }

  lemma PerIsPositive(c: real, n: nat, a: real, b: real)
    requires c > 0.0 && a > 0.0 && b > 0.0
    ensures Per(c, n, a, b) > 0.0
  {
    PositiveProduct(c, a + b + n as real);
  }

  lemma AddedWeights(t: real, p: real, t': real, p': real, x: real, g: real)
    ensures (p' + t') * x == p' * x + t' * x
    ensures (p + t) * g == p * g + t * g
  {
  }

  lemma TailOneMore(j: nat, n: nat, a: real, b: real)
    requires j <= n && a > 0.0 && b > 0.0
    ensures Tail(j, n, a, b) == Pmf(n, j, a, b) + Tail(j + 1, n, a, b)
    ensures Tail(n + 1, n, a, b) == 0.0
  {
    hide Pmf;
  }

  lemma HeadOneMore(j: nat, n: nat, a: real, b: real)
    requires j <= n && a > 0.0 && b > 0.0
    ensures Head(j + 1, n, a, b) == Pmf(n, j, a, b) + Head(j, n, a, b)
    ensures Head(0, n, a, b) == 0.0
  {
    hide Pmf;
  }

  lemma SumAtLeast(t: real, p: real, t': real, p': real, x: real, f: real, g: real)
    requires p > 0.0 && p' * x == p * f && g <= f && t' * x >= t * g
    ensures (p' + t') * x >= (p + t) * g
  {
    Grows(p, g, f);
    AddedWeights(t, p, t', p', x, g);
  }

  lemma SumBelow(t: real, p: real, t': real, p': real, x: real, f: real, g: real)
    requires p > 0.0 && p' * x == p * f && f < g && (t' * x < t * g || t == 0.0 == t')
    ensures (p' + t') * x < (p + t) * g
  {
    Scales(p, f, g);
    AddedWeights(t, p, t', p', x, g);
    assert t == 0.0 == t' ==> t' * x == 0.0 == t * g;
  }

  lemma {:induction false} TailGainsLost(j: nat, k: nat, n: nat, a: real, b: real)
    requires k <= j <= n + 1 && a > 0.0 && b > 0.0
    ensures Tail(j, n, a + 1.0, b) * Per(a, n, a, b) >= Tail(j, n, a, b) * Factor(a + k as real, a, b)
    decreases n + 1 - j
  {
    hide Pmf, Per, Factor;
    if j <= n {
      TailGainsLost(j + 1, k, n, a, b);
      MoreLostBefore(n, j, a, b);
      FactorGrows(a + k as real, a + j as real, a, b);
      SumAtLeast(Tail(j + 1, n, a, b), Pmf(n, j, a, b), Tail(j + 1, n, a + 1.0, b), Pmf(n, j, a + 1.0, b),
                 Per(a, n, a, b), Factor(a + j as real, a, b), Factor(a + k as real, a, b));
    }
  }

  lemma {:induction false} HeadLosesLost(j: nat, k: nat, n: nat, a: real, b: real)
    requires 0 < j <= k <= n && a > 0.0 && b > 0.0
    ensures Head(j, n, a + 1.0, b) * Per(a, n, a, b) < Head(j, n, a, b) * Factor(a + k as real, a, b)
    decreases j
  {
    hide Pmf, Per, Factor, Head;
    var i := j - 1;
    if j > 1 {
      HeadLosesLost(i, k, n, a, b);
    }
    HeadOneMore(i, n, a, b);
    HeadOneMore(i, n, a + 1.0, b);
    MoreLostBefore(n, i, a, b);
    FactorGrows(a + i as real, a + k as real, a, b);
    SumBelow(Head(i, n, a, b), Pmf(n, i, a, b), Head(i, n, a + 1.0, b), Pmf(n, i, a + 1.0, b),
             Per(a, n, a, b), Factor(a + i as real, a, b), Factor(a + k as real, a, b));
  }

  /** The more was lost before, the less unusual are losses now. */
  lemma TailGrowsWithLost(k: nat, n: nat, a: real, b: real)
    requires 0 < k <= n && a > 0.0 && b > 0.0
    ensures Tail(k, n, a, b) < Tail(k, n, a + 1.0, b)
  {
    hide Tail, Head, Pmf, Per, Factor;
    HeadAndTail(k, n, a, b);
    HeadAndTail(k, n, a + 1.0, b);
    HeadIsPositive(k, n, a, b);
    TailIsPositive(k, n, a, b);
    TailGainsLost(k, k, n, a, b);
    HeadLosesLost(k, k, n, a, b);
    PerIsPositive(a, n, a, b);
    WeightMoves(Tail(k, n, a, b), Head(k, n, a, b), Tail(k, n, a + 1.0, b), Head(k, n, a + 1.0, b),
                Per(a, n, a, b), Factor(a + k as real, a, b));
  }

  lemma {:induction false} HeadGainsReceived(j: nat, k: nat, n: nat, a: real, b: real)
    requires j <= k && 0 < k <= n && a > 0.0 && b > 0.0
    ensures Head(j, n, a, b + 1.0) * Per(b, n, a, b) >= Head(j, n, a, b) * Factor(b + (n - k + 1) as real, a, b)
    decreases j
  {
    hide Pmf, Per, Factor, Head;
    if j == 0 {
      HeadOneMore(0, n, a, b);
      HeadOneMore(0, n, a, b + 1.0);
    } else {
      var i := j - 1;
      HeadGainsReceived(i, k, n, a, b);
      HeadOneMore(i, n, a, b);
      HeadOneMore(i, n, a, b + 1.0);
      MoreReceivedBefore(n, i, a, b);
      FactorGrows(b + (n - k + 1) as real, b + (n - i) as real, a, b);
      SumAtLeast(Head(i, n, a, b), Pmf(n, i, a, b), Head(i, n, a, b + 1.0), Pmf(n, i, a, b + 1.0),
                 Per(b, n, a, b), Factor(b + (n - i) as real, a, b), Factor(b + (n - k + 1) as real, a, b));
    }
  }

  lemma {:induction false} TailLosesReceived(j: nat, k: nat, n: nat, a: real, b: real)
    requires 0 < k <= j <= n && a > 0.0 && b > 0.0
    ensures Tail(j, n, a, b + 1.0) * Per(b, n, a, b) < Tail(j, n, a, b) * Factor(b + (n - k + 1) as real, a, b)
    decreases n - j
  {
    hide Pmf, Tail, Per, Factor;
    if j < n {
      TailLosesReceived(j + 1, k, n, a, b);
    }
    TailOneMore(j, n, a, b);
    TailOneMore(j, n, a, b + 1.0);
    MoreReceivedBefore(n, j, a, b);
    FactorGrows(b + (n - j) as real, b + (n - k + 1) as real, a, b);
    SumBelow(Tail(j + 1, n, a, b), Pmf(n, j, a, b), Tail(j + 1, n, a, b + 1.0), Pmf(n, j, a, b + 1.0),
             Per(b, n, a, b), Factor(b + (n - j) as real, a, b), Factor(b + (n - k + 1) as real, a, b));
  }

  /** The more was received before, the more unusual they are. */
  lemma TailFallsWithReceived(k: nat, n: nat, a: real, b: real)
    requires 0 < k <= n && a > 0.0 && b > 0.0
    ensures Tail(k, n, a, b + 1.0) < Tail(k, n, a, b)
  {
    hide Tail, Head, Pmf, Per, Factor;
    HeadAndTail(k, n, a, b);
    HeadAndTail(k, n, a, b + 1.0);
    HeadIsPositive(k, n, a, b);
    TailIsPositive(k, n, a, b);
    HeadGainsReceived(k, k, n, a, b);
    TailLosesReceived(k, k, n, a, b);
    PerIsPositive(b, n, a, b);
    WeightMoves(Head(k, n, a, b), Tail(k, n, a, b), Head(k, n, a, b + 1.0), Tail(k, n, a, b + 1.0),
                Per(b, n, a, b), Factor(b + (n - k + 1) as real, a, b));
  }

  // ------------------------------------------------------------ cleaner baselines

  /** One packet sent is lost with the rate of the baseline, half a packet added on either side. */
  lemma OnePacketTail(st: LossState)
    requires st.received >= 0
    ensures LossTail(st, 1, 1) == (st.lost as real + 0.5) / (st.lost as real + st.received as real + 1.0)
  {
    var a, b := 0.5 + st.lost as real, 0.5 + st.received as real;
    assert Tail(2, 1, a, b) == 0.0;
    assert Rise(a, 1) == Rise(a, 0) * (a + 0.0) == a && Rise(b, 0) == 1.0;
    assert Rise(a + b, 1) == Rise(a + b, 0) * (a + b + 0.0) == a + b;
    assert Choose(1, 1) == Choose(0, 0) + Choose(0, 1) == 1;
    assert Mass(1, 1, a, b) == a;
  }

  lemma {:induction false} LostBaselineGrows(st: LossState, lost: nat, k: nat, sent: nat)
    requires st.received >= 0 && st.lost <= lost && 0 < k <= sent
    ensures LossTail(st, k, sent) <= LossTail(st.(lost := lost), k, sent)
    ensures st.lost < lost ==> LossTail(st, k, sent) < LossTail(st.(lost := lost), k, sent)
    decreases lost - st.lost
  {
    hide Tail;
    if st.lost < lost {
      LostBaselineGrows(st, lost - 1, k, sent);
      var a, b := 0.5 + (lost - 1) as real, 0.5 + st.received as real;
      TailGrowsWithLost(k, sent, a, b);
      assert a + 1.0 == 0.5 + lost as real;
    } else {
      assert st.(lost := lost) == st;
    }
  }

  lemma {:induction false} ReceivedBaselineFalls(st: LossState, received: int, k: nat, sent: nat)
    requires 0 <= st.received <= received && 0 < k <= sent
    ensures LossTail(st.(received := received), k, sent) <= LossTail(st, k, sent)
    ensures st.received < received ==> LossTail(st.(received := received), k, sent) < LossTail(st, k, sent)
    decreases received - st.received
  {
    hide Tail;
    if st.received < received {
      ReceivedBaselineFalls(st, received - 1, k, sent);
      var a, b := 0.5 + st.lost as real, 0.5 + (received - 1) as real;
      TailFallsWithReceived(k, sent, a, b);
      assert b + 1.0 == 0.5 + received as real;
    } else {
      assert st.(received := received) == st;
    }
  }

  lemma TailOfState(st: LossState, st': LossState, k: nat, sent: nat)
    requires st.received >= 0 && st'.lost == st.lost && st'.received == st.received
    ensures LossTail(st, k, sent) == LossTail(st', k, sent)
  {
  }

  /** What trips the detector against a baseline trips it against any cleaner one of at least as many packets, with
      no smaller severity. */
  lemma CleanerBaselineTripsToo(
    cfg: LossConfig, st: LossState, st': LossState, k: nat, sent: nat, negLog10: real -> real)
    requires 0 <= st.received <= st'.received && st'.lost <= st.lost
    requires st.lost + st.received <= st'.lost + st'.received
    requires Trips(cfg, st, k, sent) && k <= sent && IsNegLog10(negLog10)
    ensures LossTail(st', k, sent) <= LossTail(st, k, sent) && Trips(cfg, st', k, sent)
    ensures Severity(negLog10, LossTail(st', k, sent)) >= Severity(negLog10, LossTail(st, k, sent))
  {
    hide LossTail, IsNegLog10, Severity;
    var between := st.(lost := st'.lost);
    LostBaselineGrows(between, st.lost, k, sent);
    assert between.(lost := st.lost) == st;
    ReceivedBaselineFalls(between, st'.received, k, sent);
    TailOfState(between.(received := st'.received), st', k, sent);
    SeverityIsAntitone(negLog10, LossTail(st', k, sent), LossTail(st, k, sent));
  }
}
