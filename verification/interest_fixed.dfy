/** Compound interest at a fixed rate (ModInterestFixed): each period the
    capital K earns K * i, which is added to it. The run is deterministic, so
    every replica of the summary shows the same final capital. */
module InterestFixed {
  import opened Numbers

  /** One row of the trace: period t, capital at its start, the rate, the
      interest earned and the capital at its end. */
  datatype Period = Period(t: nat, start: real, rate: real, interest: real, end: real)

  /** One row of the summary: replica s with the parameters and K(T). */
  datatype Summary = Summary(s: nat, horizon: real, k0: real, rate: real, kt: real)

  /** The capital after n periods, each adding `K * i` to K. */
  function Capital(k0: real, i: real, n: nat): real
  {
    if n == 0 then k0 else Capital(k0, i, n - 1) + Capital(k0, i, n - 1) * i
  }

  /** Period t of the trace, for t >= 1. */
  function PeriodOf(k0: real, i: real): nat -> Period
  {
    (t: nat) => var start := if t == 0 then k0 else Capital(k0, i, t - 1);
      Period(t, start, i, start * i, start + start * i)
  }

  /** The trace of n periods, numbered 1 .. n. */
  function Trace(k0: real, i: real, n: nat): (trace: seq<Period>)
    ensures |trace| == n
  {
    Runs(n, PeriodOf(k0, i))
  }

  /** `runOnce`: the period loop `t = 1 .. T`, pushing one row per period. */
  method RunOnce(k0: real, i: real, horizon: real) returns (trace: seq<Period>, kt: real)
    ensures trace == Trace(k0, i, UpTo(horizon))
    ensures kt == Capital(k0, i, UpTo(horizon))
  {
    var k := k0;
    trace := [];
    var t: nat := 1;
    while (t as real) <= horizon
      invariant 1 <= t <= UpTo(horizon) + 1
      invariant trace == Runs(t - 1, PeriodOf(k0, i))
      invariant k == Capital(k0, i, t - 1)
    {
      UpToGuard(t, horizon);
      var start := k;
      var interest := k * i;
      k := k + interest;
      assert Period(t, start, i, interest, k) == PeriodOf(k0, i)(t);
      trace := trace + [Period(t, start, i, interest, k)];
      t := t + 1;
    }
    UpToGuard(t, horizon);
    kt := k;
  }

  /** The capital after n periods in closed form: K0 * (1 + i)^n. */
  lemma {:induction false} CapitalIsPower(k0: real, i: real, n: nat)
    ensures Capital(k0, i, n) == k0 * Pow(1.0 + i, n)
  {
    if n > 0 {
      CapitalIsPower(k0, i, n - 1);
      var p := Pow(1.0 + i, n - 1);
      assert k0 * p + (k0 * p) * i == k0 * (p * (1.0 + i));
    }
  }

  /** Row j of the trace is period j + 1: it starts with the capital of j
      periods, earns start * i and ends with the capital of j + 1 periods. */
  lemma TraceRow(k0: real, i: real, n: nat, j: nat)
    requires j < n
    ensures var p := Trace(k0, i, n)[j];
      p.t == j + 1 && p.rate == i &&
      p.start == Capital(k0, i, j) && p.interest == p.start * i &&
      p.end == p.start + p.interest && p.end == Capital(k0, i, j + 1)
  {
    RunsAt(n, PeriodOf(k0, i), j);
  }

  /** Each period starts with the capital the previous one ended with, and
      the last row ends with the final capital. */
  lemma TraceContinues(k0: real, i: real, n: nat, j: nat)
    requires j + 1 < n
    ensures Trace(k0, i, n)[j + 1].start == Trace(k0, i, n)[j].end
    ensures Trace(k0, i, n)[n - 1].end == Capital(k0, i, n)
  {
    TraceRow(k0, i, n, j);
    TraceRow(k0, i, n, j + 1);
    TraceRow(k0, i, n, n - 1);
  }

  /** With no whole period before the horizon the trace is empty and the
      capital stays K0. */
  lemma NoPeriods(k0: real, i: real, horizon: real)
    requires horizon < 1.0
    ensures Trace(k0, i, UpTo(horizon)) == []
    ensures Capital(k0, i, UpTo(horizon)) == k0
  {
  }

  /** With positive capital and rate the capital stays positive and each
      period strictly increases it. */
  lemma {:induction false} CapitalGrows(k0: real, i: real, n: nat)
    requires k0 > 0.0 && i > 0.0
    ensures 0.0 < Capital(k0, i, n) < Capital(k0, i, n + 1)
  {
    if n > 0 {
      CapitalGrows(k0, i, n - 1);
    }
    var c := Capital(k0, i, n);
    assert c * i > 0.0;
  }

  /** Hence the final capital strictly increases with the number of periods. */
  lemma {:induction false} CapitalIncreasing(k0: real, i: real, m: nat, n: nat)
    requires k0 > 0.0 && i > 0.0 && m < n
    ensures Capital(k0, i, m) < Capital(k0, i, n)
  {
    CapitalGrows(k0, i, n - 1);
    if m < n - 1 {
      CapitalIncreasing(k0, i, m, n - 1);
    }
  }

  /** The default parameters: 10000 at 3.5% for one period give 10350. */
  lemma OnePeriod()
    ensures Capital(10000.0, 0.035, 1) == 10350.0
  {
  }

  /** Summary row s of a run with final capital kt. */
  function SummaryOf(horizon: real, k0: real, i: real, kt: real): nat -> Summary
  {
    (s: nat) => Summary(s, horizon, k0, i, kt)
  }

  /** `simulate`: one deterministic run, then nsim identical summary rows;
      the averages card shows K(T). */
  method Simulate(nsim: real, horizon: real, k0: real, i: real)
    returns (trace: seq<Period>, rows: seq<Summary>, avgKT: real)
    ensures trace == Trace(k0, i, UpTo(horizon))
    ensures rows == Runs(UpTo(nsim), SummaryOf(horizon, k0, i, Capital(k0, i, UpTo(horizon))))
    ensures avgKT == Capital(k0, i, UpTo(horizon))
  {
    var kt;
    trace, kt := RunOnce(k0, i, horizon);
    rows := [];
    var s: nat := 1;
    while (s as real) <= nsim
      invariant 1 <= s <= UpTo(nsim) + 1
      invariant rows == Runs(s - 1, SummaryOf(horizon, k0, i, kt))
    {
      UpToGuard(s, nsim);
      rows := rows + [Summary(s, horizon, k0, i, kt)];
      s := s + 1;
    }
    UpToGuard(s, nsim);
    avgKT := kt;
  }

  /** Every summary row holds the same parameters and the same K(T); only
      the replica number differs. */
  lemma SummaryRows(nsim: real, horizon: real, k0: real, i: real, j: nat)
    requires j < UpTo(nsim)
    ensures var rows := Runs(UpTo(nsim), SummaryOf(horizon, k0, i, Capital(k0, i, UpTo(horizon))));
      rows[j].s == j + 1 && rows[j].kt == Capital(k0, i, UpTo(horizon)) &&
      rows[j].horizon == horizon && rows[j].k0 == k0 && rows[j].rate == i
  {
    RunsAt(UpTo(nsim), SummaryOf(horizon, k0, i, Capital(k0, i, UpTo(horizon))), j);
  }
}
