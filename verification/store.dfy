/** The store (ModStore): in each of `horas` hours a number of customer groups
    arrives, floor(u * 5) of them, and each group buys 0, 1, 2 or 3 articles
    with probabilities 0.2, 0.3, 0.4 and 0.1. The day's net gain is the margin
    on the articles sold less the fixed daily cost. */
module Store {
  import opened Numbers
  import opened Rng
  import opened Samplers

  datatype Config = Config(nsim: real, horas: real, precio: real, costo: real, cf: real)

  /** One row of results: replica number, articles sold V and net gain GN. */
  datatype Row = Row(k: nat, v: nat, gn: real)

  datatype Averages = Averages(gn: Num, v: Num)

  /** The quantities a group may buy and their probabilities. */
  const Quantities: seq<int> := [0, 1, 2, 3]
  const Probs: seq<real> := [0.2, 0.3, 0.4, 0.1]

  /** The groups `floor(u * 5)` arriving in an hour whose first draw is x. */
  function Groups(x: real): (a: nat)
    requires 0.0 <= x < 1.0
    ensures a <= 4
    ensures a as real <= x * 5.0 < (a + 1) as real
  {
    (x * 5.0).Floor
  }

  /** The articles a group buys when its draw is x: the cumulative
      probabilities 0.2, 0.5, 0.9 and 1 cut [0, 1) into four intervals. */
  function Quantity(x: real): (q: nat)
    ensures q <= 3
  {
    if x <= 0.2 then 0 else if x <= 0.5 then 1 else if x <= 0.9 then 2 else 3
  }

  /** `sampleCategorical([0, 1, 2, 3], [0.2, 0.3, 0.4, 0.1], rng)` picks
      Quantity(x) for the draw x, for every x. */
  lemma CategoricalIsQuantity(x: real)
    ensures Categorical(Quantities, Probs, x) == Some(Quantity(x))
  {
    assert CumSum(Probs, 1) == 0.2;
    assert CumSum(Probs, 2) == 0.5;
    assert CumSum(Probs, 3) == 0.9;
    assert CumSum(Probs, 4) == 1.0;
    if x <= 0.2 {
      FirstCoveringIs(Probs, x, 0);
    } else if x <= 0.5 {
      FirstCoveringIs(Probs, x, 1);
    } else if x <= 0.9 {
      FirstCoveringIs(Probs, x, 2);
    } else if x <= 1.0 {
      FirstCoveringIs(Probs, x, 3);
    } else {
      FirstCoveringIs(Probs, x, 4);
    }
  }

  /** The articles bought by n groups whose draws start at pos. */
  function GroupSales(u: Draws, pos: nat, n: nat): nat
  {
    if n == 0 then 0 else GroupSales(u, pos, n - 1) + Quantity(u(pos + n - 1))
  }

  /** No group buys more than 3 articles. */
  lemma {:induction false} GroupSalesBound(u: Draws, pos: nat, n: nat)
    ensures GroupSales(u, pos, n) <= 3 * n
  {
    if n > 0 {
      GroupSalesBound(u, pos, n - 1);
    }
  }

  /** The state of the hour loop: articles sold, the cursor, and (for the
      proofs) the groups that arrived. */
  datatype Shift = Shift(sold: nat, pos: nat, groups: nat)

  /** The first n hours of a day. An hour reads one draw for its groups, then
      one draw per group. */
  function Hours(u: Draws, n: nat): Shift
    requires IsStream(u)
  {
    if n == 0 then Shift(0, 0, 0)
    else
      var s := Hours(u, n - 1);
      var a := Groups(u(s.pos));
      Shift(s.sold + GroupSales(u, s.pos + 1, a), s.pos + 1 + a, s.groups + a)
  }

  /** Every hour consumes one draw plus one per group; at most 4 groups arrive
      per hour and each buys at most 3 articles. */
  lemma {:induction false} HoursCounts(u: Draws, n: nat)
    requires IsStream(u)
    ensures Hours(u, n).pos == n + Hours(u, n).groups
    ensures Hours(u, n).groups <= 4 * n
    ensures Hours(u, n).sold <= 3 * Hours(u, n).groups
  {
    if n > 0 {
      HoursCounts(u, n - 1);
      GroupSalesBound(u, Hours(u, n - 1).pos + 1, Groups(u(Hours(u, n - 1).pos)));
    }
  }

  /** The group loop of one hour: a categorical sample per group. */
  method SellGroups(u: Draws, pos: nat, a: nat) returns (v: nat, next: nat)
    ensures next == pos + a
    ensures v == GroupSales(u, pos, a)
  {
    v, next := 0, pos;
    var i: nat := 0;
    while i < a
      invariant i <= a
      invariant next == pos + i
      invariant v == GroupSales(u, pos, i)
    {
      var x;
      x, next := SampleCategorical(Quantities, Probs, u, next);
      CategoricalIsQuantity(u(pos + i));
      v := v + x.value;
      i := i + 1;
    }
  }

  /** The hour loop of one replica. */
  method WorkDay(u: Draws, cfg: Config) returns (v: nat)
    requires IsStream(u)
    ensures v == Hours(u, Below(cfg.horas)).sold
  {
    v := 0;
    var pos: nat := 0;
    var h: nat := 0;
    while (h as real) < cfg.horas
      invariant h <= Below(cfg.horas)
      invariant Hours(u, h).sold == v && Hours(u, h).pos == pos
    {
      BelowGuard(h, cfg.horas);
      var a := Groups(u(pos));
      var sold;
      sold, pos := SellGroups(u, pos + 1, a);
      v := v + sold;
      h := h + 1;
    }
    BelowGuard(h, cfg.horas);
  }

  /** GN: the margin on every article sold, less the fixed cost. */
  function NetGain(v: nat, cfg: Config): real
  {
    (cfg.precio - cfg.costo) * v as real - cfg.cf
  }

  /** The row of replica k, whose hours read the stream u from its start. */
  function Replica(u: Draws, k: nat, cfg: Config): Row
    requires IsStream(u)
  {
    var v := Hours(u, Below(cfg.horas)).sold;
    Row(k, v, NetGain(v, cfg))
  }

  /** One pass of the replica loop's body. */
  method RunReplica(u: Draws, k: nat, cfg: Config) returns (row: Row)
    requires IsStream(u)
    ensures row == Replica(u, k, cfg)
  {
    var v := WorkDay(u, cfg);
    row := Row(k, v, (cfg.precio - cfg.costo) * v as real - cfg.cf);
  }

  /** Replica k as a function of k: its hours read the stream of replica k. */
  function ReplicaOf(b: real, cfg: Config): nat -> Row
  {
    (k: nat) => Replica(ReplicaDraws(b, k), k, cfg)
  }

  /** The rows of a run: one per replica k = 1 .. nsim. */
  function Rows(b: real, cfg: Config): (rows: seq<Row>)
    ensures |rows| == UpTo(cfg.nsim)
  {
    Runs(UpTo(cfg.nsim), ReplicaOf(b, cfg))
  }

  function Gain(r: Row): real { r.gn }
  function Sold(r: Row): real { r.v as real }

  /** The averages card: the two sums divided by nsim. */
  function Average(rows: seq<Row>, nsim: real): Averages
    requires |rows| == UpTo(nsim)
  {
    Averages(Mean(Sum(rows, Gain), nsim), Mean(Sum(rows, Sold), nsim))
  }

  /** `simulate`: the replica loop with the sums sGN and sV. */
  method Simulate(base: JsValue, cfg: Config) returns (rows: seq<Row>, avg: Averages)
    ensures rows == Rows(BaseValue(base), cfg)
    ensures avg == Average(rows, cfg.nsim)
  {
    var b := BaseValue(base);
    rows := [];
    var sGN, sV := 0.0, 0.0;
    var k: nat := 1;
    while (k as real) <= cfg.nsim
      invariant 1 <= k <= UpTo(cfg.nsim) + 1
      invariant rows == Runs(k - 1, ReplicaOf(b, cfg))
      invariant sGN == Sum(rows, Gain) && sV == Sum(rows, Sold)
    {
      UpToGuard(k, cfg.nsim);
      var row := RunReplica(ReplicaDraws(b, k), k, cfg);
      assert row == ReplicaOf(b, cfg)(k);
      SumAppend(rows, row, Gain);
      SumAppend(rows, row, Sold);
      rows := rows + [row];
      sGN, sV := sGN + row.gn, sV + row.v as real;
      k := k + 1;
    }
    UpToGuard(k, cfg.nsim);
    avg := Averages(Mean(sGN, cfg.nsim), Mean(sV, cfg.nsim));
  }

  /** A replica sells between 0 and 12 articles per hour, 3 per group. */
  lemma SalesBound(u: Draws, k: nat, cfg: Config)
    requires IsStream(u)
    ensures Replica(u, k, cfg).v <= 12 * Below(cfg.horas)
    ensures Replica(u, k, cfg).k == k
  {
    HoursCounts(u, Below(cfg.horas));
  }

  /** With a non-negative margin the net gain grows with the articles sold:
      from minus the fixed cost for none to its value for the most. */
  lemma GainBounds(v: nat, most: nat, cfg: Config)
    requires v <= most && cfg.precio >= cfg.costo
    ensures -cfg.cf <= NetGain(v, cfg) <= NetGain(most, cfg)
  {
    MulMonotone(0.0, cfg.precio - cfg.costo, v as real, v as real);
    MulMonotone(cfg.precio - cfg.costo, cfg.precio - cfg.costo, v as real, most as real);
  }

  /** A replica's net gain lies between losing the fixed cost and selling 12
      articles every hour. */
  lemma GainRange(u: Draws, k: nat, cfg: Config)
    requires IsStream(u) && cfg.precio >= cfg.costo
    ensures -cfg.cf <= Replica(u, k, cfg).gn <= NetGain(12 * Below(cfg.horas), cfg)
  {
    SalesBound(u, k, cfg);
    GainBounds(Replica(u, k, cfg).v, 12 * Below(cfg.horas), cfg);
  }

  /** With a whole, positive nsim the average of articles sold lies within
      the per-replica bounds. */
  lemma AverageSoldInRange(b: real, cfg: Config, m: nat)
    requires cfg.nsim == m as real && m > 0
    ensures var avg := Average(Rows(b, cfg), cfg.nsim);
      avg.v.Fin? && 0.0 <= avg.v.val <= (12 * Below(cfg.horas)) as real
  {
    WholeCount(cfg.nsim, m);
    var rows := Rows(b, cfg);
    var most := (12 * Below(cfg.horas)) as real;
    forall i | 0 <= i < |rows|
      ensures 0.0 <= Sold(rows[i]) <= most
    {
      RunsAt(m, ReplicaOf(b, cfg), i);
      SalesBound(ReplicaDraws(b, i + 1), i + 1, cfg);
    }
    MeanWithin(rows, Sold, 0.0, most);
  }
}
