/** Compound interest at a rate chosen by tier (ModInterestVariable): the
    initial capital K0 fixes the rate once, and every period then compounds at
    that rate, the same way as at a fixed rate. */
module InterestVariable {
  import opened Numbers
  import opened InterestFixed

  /** `tramo(K0)`: 3.5% up to 10000, 3.7% up to 100000, 4% above. */
  function Tier(k0: real): (rate: real)
    ensures rate == 0.035 || rate == 0.037 || rate == 0.04
  {
    if k0 <= 10000.0 then 0.035 else if k0 <= 100000.0 then 0.037 else 0.04
  }

  /** Each rate belongs to exactly one band of K0, the boundaries going to
      the lower band. */
  lemma TierBands(k0: real)
    ensures Tier(k0) == 0.035 <==> k0 <= 10000.0
    ensures Tier(k0) == 0.037 <==> 10000.0 < k0 <= 100000.0
    ensures Tier(k0) == 0.04 <==> 100000.0 < k0
  {
  }

  /** A larger capital never gets a lower rate. */
  lemma TierMonotone(a: real, b: real)
    requires a <= b
    ensures Tier(a) <= Tier(b)
  {
  }

  /** `runOnce`: the rate is fixed from K0, then the fixed-rate period loop. */
  method RunOnce(k0: real, horizon: real) returns (trace: seq<Period>, kt: real, i0: real)
    ensures i0 == Tier(k0)
    ensures trace == Trace(k0, Tier(k0), UpTo(horizon))
    ensures kt == Capital(k0, Tier(k0), UpTo(horizon))
  {
    i0 := Tier(k0);
    trace, kt := InterestFixed.RunOnce(k0, i0, horizon);
  }

  /** Every period of the trace compounds at the rate of K0, even one whose
      starting capital lies in a higher band. */
  lemma RateFixedOnce(k0: real, n: nat, j: nat)
    requires j < n
    ensures Trace(k0, Tier(k0), n)[j].rate == Tier(k0)
  {
    TraceRow(k0, Tier(k0), n, j);
  }

  /** For instance 9500 crosses 10000 in its third period and still earns
      3.5% there, not the 3.7% of its band. */
  lemma CrossesBand()
    ensures var p := Trace(9500.0, Tier(9500.0), 3)[2];
      p.start > 10000.0 && p.rate == 0.035 && Tier(p.start) == 0.037
  {
    TraceRow(9500.0, 0.035, 3, 2);
    assert Capital(9500.0, 0.035, 2) == 10176.6375;
  }

  /** `simulate`: one run, then nsim identical summary rows; the averages card
      shows K(T) and the rate. */
  method Simulate(nsim: real, horizon: real, k0: real)
    returns (trace: seq<Period>, rows: seq<Summary>, avgKT: real, avgRate: real)
    ensures trace == Trace(k0, Tier(k0), UpTo(horizon))
    ensures rows == Runs(UpTo(nsim), SummaryOf(horizon, k0, Tier(k0), Capital(k0, Tier(k0), UpTo(horizon))))
    ensures avgKT == Capital(k0, Tier(k0), UpTo(horizon)) && avgRate == Tier(k0)
  {
    var kt, i0;
    trace, kt, i0 := RunOnce(k0, horizon);
    rows := [];
    var s: nat := 1;
    while (s as real) <= nsim
      invariant 1 <= s <= UpTo(nsim) + 1
      invariant rows == Runs(s - 1, SummaryOf(horizon, k0, i0, kt))
    {
      UpToGuard(s, nsim);
      rows := rows + [Summary(s, horizon, k0, i0, kt)];
      s := s + 1;
    }
    UpToGuard(s, nsim);
    avgKT, avgRate := kt, i0;
  }
}
