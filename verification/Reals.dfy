/** Arithmetic on reals: what the bucket, the two detectors and the statistics share. */
module Reals {
  function Abs(x: real): real {
    if x >= 0.0 then x else -x
  }

  function Max(a: real, b: real): real {
    if a >= b then a else b
  }

  function Min(a: real, b: real): real {
    if a <= b then a else b
  }

  lemma Product(a: real, b: real)
    requires a >= 0.0 && b >= 0.0
    ensures a * b >= 0.0
  {
  }

  lemma PositiveProduct(a: real, b: real)
    requires a > 0.0 && b > 0.0
    ensures a * b > 0.0
  {
  }

  function Sum(terms: seq<real>): real {
    if terms == [] then 0.0 else Sum(terms[..|terms| - 1]) + terms[|terms| - 1]
  }

  function Scaled(c: real, terms: seq<real>): (r: seq<real>)
    ensures |r| == |terms|
  {
    if terms == [] then [] else Scaled(c, terms[..|terms| - 1]) + [c * terms[|terms| - 1]]
  }

  lemma {:induction false} ScaledAt(c: real, terms: seq<real>, j: nat)
    requires j < |terms|
    ensures Scaled(c, terms)[j] == c * terms[j]
    decreases |terms|
  {
    if j < |terms| - 1 {
      ScaledAt(c, terms[..|terms| - 1], j);
    }
  }

  lemma {:induction false} SumScales(c: real, terms: seq<real>)
    ensures Sum(Scaled(c, terms)) == c * Sum(terms)
    decreases |terms|
  {
    if terms != [] {
      var n := |terms| - 1;
      SumScales(c, terms[..n]);
      assert Scaled(c, terms)[..n] == Scaled(c, terms[..n]);
      assert c * (Sum(terms[..n]) + terms[n]) == c * Sum(terms[..n]) + c * terms[n];
    }
  }
}
