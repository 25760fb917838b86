/** JavaScript numbers as the simulations use them, and the running sums and
    averages that every scenario shares. Finite numbers are exact reals (no
    IEEE-754 rounding); the one non-finite value that can arise is the NaN of a
    0/0 (an average over zero replicas, a percentage over zero games). */
module Numbers {

  datatype Option<+T> = None | Some(value: T)

  /** A JavaScript number: a finite value or NaN. */
  datatype Num = Fin(val: real) | NaN

  /** How often `for (let j = 0; j < n; j++)` runs: once for each of the
      integers 0, 1, ... below n. */
  function Below(n: real): (c: nat)
    ensures n <= 0.0 ==> c == 0
    ensures n > 0.0 ==> (c - 1) as real < n <= c as real
  {
    if n <= 0.0 then 0 else -((-n).Floor)
  }

  /** How often `for (let s = 1; s <= n; s++)` runs: once for each of the
      integers 1, 2, ... up to n. */
  function UpTo(n: real): (c: nat)
    ensures n < 1.0 ==> c == 0
    ensures n >= 1.0 ==> c as real <= n < (c + 1) as real
  {
    if n < 1.0 then 0 else n.Floor
  }

  /** The guard `j < n` of a loop that has run j times. */
  lemma BelowGuard(j: nat, n: real)
    requires j <= Below(n)
    ensures j as real < n <==> j < Below(n)
  {
  }

  /** The guard `s <= n` of a replica loop that has run s - 1 times. */
  lemma UpToGuard(s: nat, n: real)
    requires 1 <= s <= UpTo(n) + 1
    ensures s as real <= n <==> s <= UpTo(n)
  {
  }

  /** For a whole, non-negative bound both loops run exactly n times. */
  lemma WholeCount(n: real, k: nat)
    requires n == k as real
    ensures Below(n) == k && UpTo(n) == k
  {
  }

  function Min(a: real, b: real): (m: real)
    ensures m <= a && m <= b
    ensures m == a || m == b
  {
    if a <= b then a else b
  }

  function Max(a: real, b: real): (m: real)
    ensures a <= m && b <= m
    ensures m == a || m == b
  {
    if a <= b then b else a
  }

  /** JavaScript `a / b` where a division by zero can only be 0/0. */
  function Div(a: real, b: real): (r: Num)
    requires b == 0.0 ==> a == 0.0
    ensures r == NaN <==> b == 0.0
  {
    if b == 0.0 then NaN else Fin(a / b)
  }

  /** A finite quotient times the divisor gives back the dividend. */
  lemma DivTimes(a: real, b: real)
    requires b != 0.0
    ensures Div(a, b).Fin? && Div(a, b).val * b == a
  {
  }

  /** JavaScript `x * c`: NaN stays NaN. */
  function Scale(x: Num, c: real): Num
  {
    match x
    case NaN => NaN
    case Fin(v) => Fin(v * c)
  }

  /** JavaScript `x + y`: NaN absorbs. */
  function Plus(x: Num, y: Num): Num
  {
    if x.Fin? && y.Fin? then Fin(x.val + y.val) else NaN
  }

  /** x^n over the reals. */
  function Pow(x: real, n: nat): real
  {
    if n == 0 then 1.0 else Pow(x, n - 1) * x
  }

  /** The running sum `s += f(row)` over rows, in order. */
  function Sum<T>(rows: seq<T>, f: T -> real): real
  {
    if |rows| == 0 then 0.0 else Sum(rows[..|rows| - 1], f) + f(rows[|rows| - 1])
  }

  /** The running sum of a field that may be NaN. */
  function SumNum<T>(rows: seq<T>, f: T -> Num): Num
  {
    if |rows| == 0 then Fin(0.0) else Plus(SumNum(rows[..|rows| - 1], f), f(rows[|rows| - 1]))
  }

  /** The average `sum / nsim` of a replica loop: NaN for nsim == 0, when no
      replica ran and the sum is still 0. */
  function Mean(sum: real, nsim: real): (r: Num)
    requires nsim == 0.0 ==> sum == 0.0
    ensures r == NaN <==> nsim == 0.0
  {
    Div(sum, nsim)
  }

  /** The average of a sum that may itself be NaN. */
  function MeanNum(sum: Num, nsim: real): (r: Num)
    requires nsim == 0.0 ==> sum == Fin(0.0)
    ensures r.Fin? <==> sum.Fin? && nsim != 0.0
  {
    match sum
    case NaN => NaN
    case Fin(s) => Div(s, nsim)
  }

  /** One more row adds its field to the running sum. */
  lemma SumAppend<T>(rows: seq<T>, x: T, f: T -> real)
    ensures Sum(rows + [x], f) == Sum(rows, f) + f(x)
  {
    assert (rows + [x])[..|rows|] == rows;
  }

  lemma SumNumAppend<T>(rows: seq<T>, x: T, f: T -> Num)
    ensures SumNum(rows + [x], f) == Plus(SumNum(rows, f), f(x))
  {
    assert (rows + [x])[..|rows|] == rows;
  }

  /** NaN absorbs across a run: the running sum of a possibly-NaN field is
      finite exactly when every row's field is, and is NaN from the first NaN
      row on. */
  lemma {:induction false} SumNumFinite<T>(rows: seq<T>, f: T -> Num)
    ensures SumNum(rows, f).Fin? <==> forall i :: 0 <= i < |rows| ==> f(rows[i]).Fin?
  {
    if |rows| > 0 {
      var n := |rows| - 1;
      SumNumFinite(rows[..n], f);
      assert forall i :: 0 <= i < n ==> rows[..n][i] == rows[i];
    }
  }

  /** Scaling twice scales by the product, and NaN stays NaN. */
  lemma ScaleTwice(x: Num, a: real, b: real)
    ensures Scale(Scale(x, a), b) == Scale(x, a * b)
    ensures Scale(x, a).Fin? <==> x.Fin?
  {
    if x.Fin? {
      assert x.val * a * b == x.val * (a * b);
    }
  }

  /** The rows of replicas 1, 2, ..., n in order, replica s giving f(s). */
  function Runs<R>(n: nat, f: nat -> R): (rows: seq<R>)
    ensures |rows| == n
  {
    if n == 0 then [] else Runs(n - 1, f) + [f(n)]
  }

  /** Row i of a run belongs to replica i + 1. */
  lemma {:induction false} RunsAt<R>(n: nat, f: nat -> R, i: nat)
    requires i < n
    ensures Runs(n, f)[i] == f(i + 1)
  {
    if i < n - 1 {
      RunsAt(n - 1, f, i);
    }
  }

  /** x added to itself n times. */
  function Times(n: nat, x: real): real
  {
    if n == 0 then 0.0 else Times(n - 1, x) + x
  }

  lemma {:induction false} TimesIs(n: nat, x: real)
    ensures Times(n, x) == n as real * x
  {
    if n > 0 {
      TimesIs(n - 1, x);
      assert (n - 1) as real * x + x == n as real * x;
    }
  }

  /** More terms of a non-negative value sum to more. */
  lemma {:induction false} TimesMonotone(m: nat, n: nat, x: real)
    requires m <= n && x >= 0.0
    ensures 0.0 <= Times(m, x) <= Times(n, x)
  {
    if n > m {
      TimesMonotone(m, n - 1, x);
    } else if m > 0 {
      TimesMonotone(m - 1, m - 1, x);
    }
  }

  /** Repeated addition distributes over a difference. */
  lemma {:induction false} TimesDifference(n: nat, x: real, y: real)
    ensures Times(n, x - y) == Times(n, x) - Times(n, y)
  {
    if n > 0 {
      TimesDifference(n - 1, x, y);
    }
  }

  lemma {:induction false} SumBounds<T>(rows: seq<T>, f: T -> real, lo: real, hi: real)
    requires forall i :: 0 <= i < |rows| ==> lo <= f(rows[i]) <= hi
    ensures Times(|rows|, lo) <= Sum(rows, f) <= Times(|rows|, hi)
  {
    if |rows| > 0 {
      var n := |rows| - 1;
      SumBounds(rows[..n], f, lo, hi);
      assert lo <= f(rows[n]) <= hi;
    }
  }

  lemma {:induction false} SumNumBounds<T>(rows: seq<T>, f: T -> Num, lo: real, hi: real)
    requires forall i :: 0 <= i < |rows| ==> f(rows[i]).Fin? && lo <= f(rows[i]).val <= hi
    ensures SumNum(rows, f).Fin?
    ensures Times(|rows|, lo) <= SumNum(rows, f).val <= Times(|rows|, hi)
  {
    if |rows| > 0 {
      var n := |rows| - 1;
      SumNumBounds(rows[..n], f, lo, hi);
      assert f(rows[n]).Fin? && lo <= f(rows[n]).val <= hi;
    }
  }

  /** An average over a non-empty run lies between the bounds every row keeps. */
  lemma MeanWithin<T>(rows: seq<T>, f: T -> real, lo: real, hi: real)
    requires |rows| > 0
    requires forall i :: 0 <= i < |rows| ==> lo <= f(rows[i]) <= hi
    ensures Mean(Sum(rows, f), |rows| as real).Fin?
    ensures lo <= Mean(Sum(rows, f), |rows| as real).val <= hi
  {
    SumBounds(rows, f, lo, hi);
    Between(Sum(rows, f), |rows|, lo, hi);
  }

  /** The same for a field that may be NaN: when no row is NaN, neither is the average. */
  lemma MeanNumWithin<T>(rows: seq<T>, f: T -> Num, lo: real, hi: real)
    requires |rows| > 0
    requires forall i :: 0 <= i < |rows| ==> f(rows[i]).Fin? && lo <= f(rows[i]).val <= hi
    ensures MeanNum(SumNum(rows, f), |rows| as real).Fin?
    ensures lo <= MeanNum(SumNum(rows, f), |rows| as real).val <= hi
  {
    SumNumBounds(rows, f, lo, hi);
    Between(SumNum(rows, f).val, |rows|, lo, hi);
  }

  /** A sum of n values between lo and hi has its average there too. */
  lemma Between(sum: real, n: nat, lo: real, hi: real)
    requires n > 0 && Times(n, lo) <= sum <= Times(n, hi)
    ensures Mean(sum, n as real).Fin?
    ensures lo <= Mean(sum, n as real).val <= hi
  {
    TimesIs(n, lo);
    TimesIs(n, hi);
    DivTimes(sum, n as real);
    Cancel(lo, Div(sum, n as real).val, hi, n as real, sum);
  }

  lemma MulMonotone(a: real, b: real, c: real, d: real)
    requires 0.0 <= a <= b && 0.0 <= c <= d
    ensures 0.0 <= a * c <= b * d
  {
    assert a * c <= b * c;
  }

  /** Dividing bounds on m * n by a positive n. */
  lemma Cancel(lo: real, m: real, hi: real, n: real, sum: real)
    requires n > 0.0 && m * n == sum && n * lo <= sum <= n * hi
    ensures lo <= m <= hi
  {
  }
}
