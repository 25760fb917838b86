/** The distribution samplers shared by the scenarios. Each takes the stream of
    draws and the cursor at which it starts reading, and returns its value with
    the cursor after the draws it consumed. */
module Samplers {
  import opened Numbers
  import opened Rng

  // ---------------------------------------------------------------------------
  // Categorical sampling: a walk along the cumulative probabilities

  /** probs[0] + ... + probs[n-1], accumulated left to right as `cum` is. */
  function CumSum(probs: seq<real>, n: nat): real
    requires n <= |probs|
  {
    if n == 0 then 0.0 else CumSum(probs, n - 1) + probs[n - 1]
  }

  function CoveringFrom(probs: seq<real>, x: real, i: nat): (j: nat)
    requires i <= |probs|
    ensures i <= j <= |probs|
    ensures j < |probs| ==> x <= CumSum(probs, j + 1)
    ensures forall m :: i < m <= j ==> x > CumSum(probs, m)
    decreases |probs| - i
  {
    if i == |probs| then i
    else if x <= CumSum(probs, i + 1) then i
    else CoveringFrom(probs, x, i + 1)
  }

  /** The least index i whose cumulative probability reaches x, or |probs|
      when none does. */
  function FirstCovering(probs: seq<real>, x: real): (i: nat)
    ensures i <= |probs|
    ensures i < |probs| ==> x <= CumSum(probs, i + 1)
    ensures forall j :: 1 <= j <= i ==> x > CumSum(probs, j)
  {
    CoveringFrom(probs, x, 0)
  }

  /** The two conditions on FirstCovering single out one index. */
  lemma FirstCoveringIs(probs: seq<real>, x: real, i: nat)
    requires i <= |probs|
    requires i < |probs| ==> x <= CumSum(probs, i + 1)
    requires forall j :: 1 <= j <= i ==> x > CumSum(probs, j)
    ensures FirstCovering(probs, x) == i
  {
    var c := FirstCovering(probs, x);
    assert c <= i;
    assert i <= c;
  }

  /** The value `sampleCategorical` returns for the draw x: the first value
      whose cumulative probability reaches x, the last value when the walk
      falls through, and `undefined` (None) for no values at all. */
  function Categorical<T>(values: seq<T>, probs: seq<real>, x: real): (r: Option<T>)
    requires |values| == |probs|
    ensures r.Some? <==> |values| > 0
    ensures r.Some? ==> r.value in values
  {
    if |values| == 0 then None
    else
      var i := FirstCovering(probs, x);
      Some(values[if i < |values| then i else |values| - 1])
  }

  /** `sampleCategorical(values, probs, rng)`: one draw, then the walk. */
  method SampleCategorical<T>(values: seq<T>, probs: seq<real>, u: Draws, pos: nat)
    returns (r: Option<T>, next: nat)
    requires |values| == |probs|
    ensures next == pos + 1
    ensures r == Categorical(values, probs, u(pos))
  {
    var x := u(pos);
    next := pos + 1;
    var cum := 0.0;
    var i := 0;
    while i < |values|
      invariant 0 <= i <= |values|
      invariant cum == CumSum(probs, i)
      invariant forall j :: 1 <= j <= i ==> x > CumSum(probs, j)
    {
      cum := cum + probs[i];
      if x <= cum {
        FirstCoveringIs(probs, x, i);
        r := Some(values[i]);
        return;
      }
      i := i + 1;
    }
    FirstCoveringIs(probs, x, i);
    if |values| == 0 {
      r := None;
    } else {
      r := Some(values[|values| - 1]);
    }
  }

  // ---------------------------------------------------------------------------
  // Poisson sampling by Knuth's product of uniforms

  /** u(pos) * ... * u(pos + n - 1), the running product `p` after n draws. */
  function Product(u: Draws, pos: nat, n: nat): real
  {
    if n == 0 then 1.0 else Product(u, pos, n - 1) * u(pos + n - 1)
  }

  /** 1 - LargestDraw. */
  const Epsilon: real := 1.0 / 4294967296.0

  /** Since no draw exceeds LargestDraw, neither does a product of n draws
      exceed LargestDraw^n. */
  lemma {:induction false} ProductBelowPower(u: Draws, pos: nat, n: nat)
    requires IsStream(u)
    ensures 0.0 <= Product(u, pos, n) <= Pow(LargestDraw, n)
  {
    if n > 0 {
      ProductBelowPower(u, pos, n - 1);
      var x := u(pos + n - 1);
      assert 0.0 <= x <= LargestDraw;
      MulMonotone(Product(u, pos, n - 1), Pow(LargestDraw, n - 1), x, LargestDraw);
    }
  }

  /** Bernoulli's inequality in the form LargestDraw^n * (1 + n * Epsilon) <= 1. */
  lemma {:induction false} Bernoulli(n: nat)
    ensures 0.0 <= Pow(LargestDraw, n)
    ensures Pow(LargestDraw, n) * (1.0 + n as real * Epsilon) <= 1.0
  {
    if n > 0 {
      Bernoulli(n - 1);
      var w := Pow(LargestDraw, n - 1);
      var k := (n - 1) as real;
      assert LargestDraw == 1.0 - Epsilon;
      calc {
        Pow(LargestDraw, n) * (1.0 + n as real * Epsilon);
        w * ((1.0 - Epsilon) * (1.0 + (k + 1.0) * Epsilon));
        { assert (1.0 - Epsilon) * (1.0 + (k + 1.0) * Epsilon) == 1.0 + k * Epsilon - (k + 1.0) * Epsilon * Epsilon; }
        w * (1.0 + k * Epsilon - (k + 1.0) * Epsilon * Epsilon);
      <= { MulMonotone(w, w, 1.0 + k * Epsilon - (k + 1.0) * Epsilon * Epsilon, 1.0 + k * Epsilon); }
        w * (1.0 + k * Epsilon);
      }
    }
  }

  /** The largest number of draws whose product can stay above L. */
  function PoissonBound(L: real): int
    requires L > 0.0
  {
    (4294967296.0 / L).Floor
  }

  /** A product of k draws that is still above L has k <= PoissonBound(L):
      this is why the sampling loop ends. */
  lemma PoissonSteps(u: Draws, pos: nat, k: nat, L: real)
    requires IsStream(u) && 0.0 < L < Product(u, pos, k)
    ensures k <= PoissonBound(L)
  {
    ProductBelowPower(u, pos, k);
    Bernoulli(k);
    var p, w, e := Product(u, pos, k), Pow(LargestDraw, k), 1.0 + k as real * Epsilon;
    BelowOne(L, p, w, e);
    Threshold(L, k as real);
  }

  lemma BelowOne(L: real, p: real, w: real, e: real)
    requires 0.0 < L < p <= w && 1.0 <= e && w * e <= 1.0
    ensures L * e < 1.0
  {
    calc {
      L * e;
    < { StrictScale(L, p, e); }
      p * e;
    <= { MulMonotone(p, w, e, e); }
      w * e;
    <=
      1.0;
    }
  }

  lemma StrictScale(a: real, b: real, c: real)
    requires a < b && 1.0 <= c
    ensures a * c < b * c
  {
    var d := b - a;
    assert d * c >= d * 1.0;
    assert d * c == b * c - a * c;
  }

  lemma Threshold(L: real, k: real)
    requires 0.0 < L && 0.0 <= k && L * (1.0 + k * Epsilon) < 1.0
    ensures k <= 4294967296.0 / L
  {
    var q := 4294967296.0 / L;
    assert L * (1.0 + k * Epsilon) == L + (L * k) * Epsilon;
    var t := L * k;
    assert t * Epsilon < 1.0;
    assert t == (t * Epsilon) * 4294967296.0;
    assert t < 4294967296.0;
    assert q * L == 4294967296.0;
    if k > q {
      MulMonotone(q, k, L, L);
    }
  }

  /** The count of the loop that has already seen k products above L. */
  function PoissonFrom(L: real, u: Draws, pos: nat, k: nat): (n: nat)
    requires 0.0 < L && IsStream(u)
    ensures k <= n
    decreases PoissonBound(L) - k
  {
    if Product(u, pos, k + 1) <= L then k
    else
      PoissonSteps(u, pos, k + 1, L);
      PoissonFrom(L, u, pos, k + 1)
  }

  lemma {:induction false} PoissonFromIs(L: real, u: Draws, pos: nat, k: nat)
    requires 0.0 < L && IsStream(u)
    requires forall j :: 1 <= j <= k ==> Product(u, pos, j) > L
    ensures var n := PoissonFrom(L, u, pos, k);
      (forall j :: 1 <= j <= n ==> Product(u, pos, j) > L) && Product(u, pos, n + 1) <= L
    decreases PoissonBound(L) - k
  {
    if Product(u, pos, k + 1) > L {
      PoissonSteps(u, pos, k + 1, L);
      PoissonFromIs(L, u, pos, k + 1);
    }
  }

  /** The count `samplePoissonKnuth` returns with threshold L = exp(-lambda):
      the number of draws whose running product stays above L. */
  function PoissonCount(L: real, u: Draws, pos: nat): nat
    requires 0.0 < L && IsStream(u)
  {
    PoissonFrom(L, u, pos, 0)
  }

  /** The Poisson count of the draws from each cursor on. */
  function PoissonAt(L: real, u: Draws): (count: nat -> nat)
    requires 0.0 < L && IsStream(u)
  {
    (p: nat) => PoissonCount(L, u, p)
  }

  /** The products of the first PoissonCount draws stay above L, and one more
      draw takes the product to L or below. */
  lemma PoissonCountIs(L: real, u: Draws, pos: nat)
    requires 0.0 < L && IsStream(u)
    ensures var n := PoissonCount(L, u, pos);
      (forall j :: 1 <= j <= n ==> Product(u, pos, j) > L) && Product(u, pos, n + 1) <= L
  {
    PoissonFromIs(L, u, pos, 0);
  }

  /** The two conditions single out one count. */
  lemma PoissonUnique(L: real, u: Draws, pos: nat, n: nat)
    requires 0.0 < L && IsStream(u)
    requires forall j :: 1 <= j <= n ==> Product(u, pos, j) > L
    requires Product(u, pos, n + 1) <= L
    ensures n == PoissonCount(L, u, pos)
  {
    var c := PoissonCount(L, u, pos);
    PoissonCountIs(L, u, pos);
    assert c + 1 > n;
    assert n + 1 > c;
  }

  /** `samplePoissonKnuth(lambda, rng)` with L = exp(-lambda): multiply draws
      until the product falls to L or below, and return one less than the
      number of draws taken. */
  method SamplePoisson(L: real, u: Draws, pos: nat) returns (n: nat, next: nat)
    requires 0.0 < L && IsStream(u)
    ensures next == pos + n + 1
    ensures n == PoissonCount(L, u, pos)
  {
    var k: nat := 0;
    var p := 1.0;
    while true
      invariant p == Product(u, pos, k)
      invariant forall j :: 1 <= j <= k ==> Product(u, pos, j) > L
      invariant k <= PoissonBound(L)
      decreases PoissonBound(L) - k
    {
      k := k + 1;
      p := p * u(pos + k - 1);
      if p <= L {
        n, next := k - 1, pos + k;
        PoissonUnique(L, u, pos, n);
        return;
      }
      PoissonSteps(u, pos, k, L);
    }
  }
}
