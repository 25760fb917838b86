/** The hen farm (ModHen): every day the hen lays a Poisson number of eggs.
    An egg breaks with probability pRoto; an unbroken egg hatches with
    probability pEclo, and a chick survives with probability pSobre. Unhatched
    eggs and surviving chicks are sold. */
module Hen {
  import opened Numbers
  import opened Rng
  import opened Samplers

  /** `L` is the Poisson threshold exp(-lambda) of the laying rate lambda. */
  datatype Config = Config(nsim: real, dias: real, pvh: real, pvp: real, L: real,
                           pRoto: real, pEclo: real, pSobre: real)

  /** The counters of one replica: broken eggs (THR), surviving chicks (TPS),
      dead chicks (TPM) and eggs sold (TH). */
  datatype Tally = Tally(thr: nat, tps: nat, tpm: nat, th: nat)

  datatype Egg = Broken | Survived | Died | Sold

  /** One row of results, in the order of the results table. */
  datatype Row = Row(k: nat, ib: real, ibpd: Num, thr: nat, tpm: nat, tps: nat, th: nat)

  datatype Averages = Averages(ib: Num, ibpd: Num, thr: Num, tpm: Num, tps: Num, th: Num)

  const NoEggs := Tally(0, 0, 0, 0)

  function Total(t: Tally): nat
  {
    t.thr + t.tps + t.tpm + t.th
  }

  /** The draws an egg consumes: one to break, a second to hatch, a third for
      the chick to survive. */
  function Cost(e: Egg): nat
  {
    match e
    case Broken => 1
    case Sold => 2
    case Survived => 3
    case Died => 3
  }

  /** The draws consumed by the eggs a tally records. */
  function Weight(t: Tally): nat
  {
    t.thr + 2 * t.th + 3 * (t.tps + t.tpm)
  }

  /** The fate of the egg whose first draw is p. */
  function Fate(u: Draws, p: nat, cfg: Config): Egg
  {
    if u(p) < cfg.pRoto then Broken
    else if u(p + 1) < cfg.pEclo then (if u(p + 2) < cfg.pSobre then Survived else Died)
    else Sold
  }

  /** The tally with the counter of e incremented, and no other. */
  function Record(t: Tally, e: Egg): Tally
  {
    match e
    case Broken => t.(thr := t.thr + 1)
    case Survived => t.(tps := t.tps + 1)
    case Died => t.(tpm := t.tpm + 1)
    case Sold => t.(th := t.th + 1)
  }

  /** Recording an egg raises exactly one counter, the egg's own, by one, and
      adds the egg's draws to the weight. */
  lemma RecordCounts(t: Tally, e: Egg)
    ensures Total(Record(t, e)) == Total(t) + 1
    ensures Record(t, e).thr >= t.thr && Record(t, e).tps >= t.tps
    ensures Record(t, e).tpm >= t.tpm && Record(t, e).th >= t.th
    ensures e == Broken ==> Record(t, e).thr == t.thr + 1
    ensures e == Survived ==> Record(t, e).tps == t.tps + 1
    ensures e == Died ==> Record(t, e).tpm == t.tpm + 1
    ensures e == Sold ==> Record(t, e).th == t.th + 1
    ensures Weight(Record(t, e)) == Weight(t) + Cost(e)
  {
  }

  datatype Step = Step(tally: Tally, pos: nat)

  /** n eggs classified one after another from draw p on, onto tally t. */
  function Lay(u: Draws, p: nat, n: nat, cfg: Config, t: Tally): Step
  {
    if n == 0 then Step(t, p)
    else
      var s := Lay(u, p, n - 1, cfg, t);
      var e := Fate(u, s.pos, cfg);
      Step(Record(s.tally, e), s.pos + Cost(e))
  }

  /** A replica's state after some days: the tally, the draws read, the days
      gone and the eggs laid on them. */
  datatype Run = Run(tally: Tally, pos: nat, days: nat, laid: nat)

  /** One more day on top of the run r: the Poisson count read at the cursor,
      then that many eggs from the draw after it. */
  function Day(u: Draws, r: Run, cfg: Config, eggs: nat -> nat): Run
  {
    var hpg := eggs(r.pos);
    var s := Lay(u, r.pos + hpg + 1, hpg, cfg, r.tally);
    Run(s.tally, s.pos, r.days + 1, r.laid + hpg)
  }

  /** The run after d days, where eggs(p) is the Poisson count read at cursor p. */
  function Days(u: Draws, d: nat, cfg: Config, eggs: nat -> nat): Run
  {
    if d == 0 then Run(NoEggs, 0, 0, 0) else Day(u, Days(u, d - 1, cfg, eggs), cfg, eggs)
  }

  /** The daily counts HPG of the first d days, in order. */
  function Daily(u: Draws, d: nat, cfg: Config, eggs: nat -> nat): (hpg: seq<nat>)
    ensures |hpg| == d
  {
    if d == 0 then [] else Daily(u, d - 1, cfg, eggs) + [eggs(Days(u, d - 1, cfg, eggs).pos)]
  }

  /** xs[0] + ... + xs[n-1]. */
  function SumTo(xs: seq<nat>, n: nat): nat
    requires n <= |xs|
  {
    if n == 0 then 0 else SumTo(xs, n - 1) + xs[n - 1]
  }

  /** The sum of a sequence of counts. */
  function SumOf(xs: seq<nat>): nat
  {
    SumTo(xs, |xs|)
  }

  lemma {:induction false} SumToPrefix(xs: seq<nat>, ys: seq<nat>, n: nat)
    requires n <= |xs|
    ensures SumTo(xs + ys, n) == SumTo(xs, n)
  {
    if n > 0 {
      SumToPrefix(xs, ys, n - 1);
      assert (xs + ys)[n - 1] == xs[n - 1];
    }
  }

  /** The eggs laid over d days are the sum of the daily counts. */
  lemma {:induction false} LaidIsDailySum(u: Draws, d: nat, cfg: Config, eggs: nat -> nat)
    ensures Days(u, d, cfg, eggs).laid == SumOf(Daily(u, d, cfg, eggs))
  {
    if d > 0 {
      LaidIsDailySum(u, d - 1, cfg, eggs);
      var xs := Daily(u, d - 1, cfg, eggs);
      SumToPrefix(xs, [eggs(Days(u, d - 1, cfg, eggs).pos)], |xs|);
    }
  }

  /** Laying n eggs adds n to the tally, one to exactly one counter per egg,
      and reads the draws their fates cost. */
  lemma {:induction false} LayCounts(u: Draws, p: nat, n: nat, cfg: Config, t: Tally)
    ensures Total(Lay(u, p, n, cfg, t).tally) == Total(t) + n
    ensures Lay(u, p, n, cfg, t).pos == p + Weight(Lay(u, p, n, cfg, t).tally) - Weight(t)
  {
    if n > 0 {
      LayCounts(u, p, n - 1, cfg, t);
      var s := Lay(u, p, n - 1, cfg, t);
      RecordCounts(s.tally, Fate(u, s.pos, cfg));
    }
  }

  /** The bookkeeping of a run: the counters add up to the eggs laid, and the
      cursor has moved past one Poisson end-draw per day, one draw per egg laid
      and the further draws of each egg's fate. */
  predicate Balanced(r: Run)
  {
    Total(r.tally) == r.laid && r.pos == r.days + r.laid + Weight(r.tally)
  }

  /** A day keeps the bookkeeping and adds its count to the eggs laid. */
  lemma DayCounts(u: Draws, r: Run, cfg: Config, eggs: nat -> nat)
    requires Balanced(r)
    ensures Balanced(Day(u, r, cfg, eggs))
    ensures Day(u, r, cfg, eggs).laid == r.laid + eggs(r.pos)
  {
    var hpg := eggs(r.pos);
    LayCounts(u, r.pos + hpg + 1, hpg, cfg, r.tally);
  }

  /** After d days the run is balanced: THR + TPS + TPM + TH is the number of
      eggs laid, and the cursor is where the bookkeeping says. */
  lemma {:induction false} DaysCounts(u: Draws, d: nat, cfg: Config, eggs: nat -> nat)
    ensures Balanced(Days(u, d, cfg, eggs)) && Days(u, d, cfg, eggs).days == d
  {
    if d > 0 {
      DaysCounts(u, d - 1, cfg, eggs);
      DayCounts(u, Days(u, d - 1, cfg, eggs), cfg, eggs);
    } else {
      NoDays(u, d, cfg, eggs);
    }
  }

  /** No day yet: nothing counted and nothing read. */
  lemma NoDays(u: Draws, d: nat, cfg: Config, eggs: nat -> nat)
    requires d == 0
    ensures Days(u, d, cfg, eggs) == Run(NoEggs, 0, 0, 0)
  {
  }

  /** With pRoto >= 1 every egg breaks: draws are below 1. */
  lemma {:induction false} AllBroken(u: Draws, p: nat, n: nat, cfg: Config, t: Tally)
    requires IsStream(u) && cfg.pRoto >= 1.0
    ensures var r := Lay(u, p, n, cfg, t).tally;
      r.thr == t.thr + n && r.tps == t.tps && r.tpm == t.tpm && r.th == t.th
  {
    if n > 0 {
      AllBroken(u, p, n - 1, cfg, t);
      var s := Lay(u, p, n - 1, cfg, t);
      assert u(s.pos) <= LargestDraw;
    }
  }

  /** With pRoto <= 0 no egg breaks: draws are at least 0. */
  lemma {:induction false} NoneBroken(u: Draws, p: nat, n: nat, cfg: Config, t: Tally)
    requires IsStream(u) && cfg.pRoto <= 0.0
    ensures Lay(u, p, n, cfg, t).tally.thr == t.thr
  {
    if n > 0 {
      NoneBroken(u, p, n - 1, cfg, t);
      var s := Lay(u, p, n - 1, cfg, t);
      assert u(s.pos) >= 0.0;
    }
  }

  /** With pRoto >= 1 a day breaks every egg it lays. */
  lemma DayAllBroken(u: Draws, r: Run, cfg: Config, eggs: nat -> nat)
    requires IsStream(u) && cfg.pRoto >= 1.0
    requires r.tally.thr == r.laid && r.tally.tps == r.tally.tpm == r.tally.th == 0
    ensures var r' := Day(u, r, cfg, eggs);
      r'.tally.thr == r'.laid && r'.tally.tps == r'.tally.tpm == r'.tally.th == 0
  {
    var hpg := eggs(r.pos);
    AllBroken(u, r.pos + hpg + 1, hpg, cfg, r.tally);
  }

  /** With pRoto >= 1 every egg laid over the days is broken: THR is the number
      of eggs laid and the other counters stay 0. */
  lemma {:induction false} DaysAllBroken(u: Draws, d: nat, cfg: Config, eggs: nat -> nat)
    requires IsStream(u) && cfg.pRoto >= 1.0
    ensures var r := Days(u, d, cfg, eggs);
      r.tally.thr == r.laid && r.tally.tps == r.tally.tpm == r.tally.th == 0
  {
    if d > 0 {
      DaysAllBroken(u, d - 1, cfg, eggs);
      DayAllBroken(u, Days(u, d - 1, cfg, eggs), cfg, eggs);
    } else {
      NoDays(u, d, cfg, eggs);
    }
  }

  /** With pRoto <= 0 a day breaks no egg. */
  lemma DayNoneBroken(u: Draws, r: Run, cfg: Config, eggs: nat -> nat)
    requires IsStream(u) && cfg.pRoto <= 0.0
    ensures Day(u, r, cfg, eggs).tally.thr == r.tally.thr
  {
    var hpg := eggs(r.pos);
    NoneBroken(u, r.pos + hpg + 1, hpg, cfg, r.tally);
  }

  /** With pRoto <= 0 no egg is ever broken: THR stays 0. */
  lemma {:induction false} DaysNoneBroken(u: Draws, d: nat, cfg: Config, eggs: nat -> nat)
    requires IsStream(u) && cfg.pRoto <= 0.0
    ensures Days(u, d, cfg, eggs).tally.thr == 0
  {
    if d > 0 {
      DaysNoneBroken(u, d - 1, cfg, eggs);
      DayNoneBroken(u, Days(u, d - 1, cfg, eggs), cfg, eggs);
    } else {
      NoDays(u, d, cfg, eggs);
    }
  }

  /** The gross income IB: eggs sold at pvh each and surviving chicks at pvp each. */
  function Income(t: Tally, cfg: Config): real
  {
    t.th as real * cfg.pvh + t.tps as real * cfg.pvp
  }

  /** The run of replica u: one day per iteration of `d < dias`. */
  function Farm(u: Draws, cfg: Config): Run
    requires IsStream(u) && cfg.L > 0.0
  {
    Days(u, Below(cfg.dias), cfg, PoissonAt(cfg.L, u))
  }

  /** The row of replica k, whose days read the stream u from its start. */
  function Replica(u: Draws, k: nat, cfg: Config): Row
    requires IsStream(u) && cfg.L > 0.0
  {
    var t := Farm(u, cfg).tally;
    var ib := Income(t, cfg);
    Row(k, ib, PerDay(ib, cfg.dias), t.thr, t.tpm, t.tps, t.th)
  }

  /** IBPD: `IB / dias`, which is the 0/0 NaN when there are no days. */
  function PerDay(ib: real, dias: real): (r: Num)
    ensures r == NaN <==> dias == 0.0
  {
    if dias == 0.0 then NaN else Fin(ib / dias)
  }

  /** The eggs of one day: HPG eggs classified from draw pos on, breaking with
      probability pRoto, else hatching with pEclo and then surviving with
      pSobre, an unhatched egg being sold. */
  method LayEggs(u: Draws, pos: nat, HPG: nat, cfg: Config, start: Tally) returns (t: Tally, next: nat)
    ensures Step(t, next) == Lay(u, pos, HPG, cfg, start)
  {
    var THR, TPS, TH, TPM := start.thr, start.tps, start.th, start.tpm;
    next := pos;
    var i: nat := 0;
    while i < HPG
      invariant i <= HPG
      invariant Step(Tally(THR, TPS, TPM, TH), next) == Lay(u, pos, i, cfg, start)
    {
      var x := u(next);
      next := next + 1;
      i := i + 1;
      if x < cfg.pRoto {
        THR := THR + 1;
        continue;
      }
      var y := u(next);
      next := next + 1;
      if y < cfg.pEclo {
        var z := u(next);
        next := next + 1;
        if z < cfg.pSobre {
          TPS := TPS + 1;
        } else {
          TPM := TPM + 1;
        }
      } else {
        TH := TH + 1;
      }
    }
    t := Tally(THR, TPS, TPM, TH);
  }

  /** Every egg laid is counted exactly once: after d days THR + TPS + TPM + TH
      is the sum of the daily Poisson counts. */
  lemma EggsAccounted(u: Draws, d: nat, cfg: Config, eggs: nat -> nat)
    ensures Total(Days(u, d, cfg, eggs).tally) == SumOf(Daily(u, d, cfg, eggs))
  {
    DaysCounts(u, d, cfg, eggs);
    LaidIsDailySum(u, d, cfg, eggs);
  }

  /** With no day to run nothing is sold, so IBPD is the NaN of 0 / 0. */
  lemma NoDaysNoIncome(u: Draws, k: nat, cfg: Config)
    requires IsStream(u) && cfg.L > 0.0 && cfg.dias <= 0.0
    ensures Replica(u, k, cfg).ib == 0.0
    ensures Replica(u, k, cfg).ibpd == NaN <==> cfg.dias == 0.0
  {
    NoDays(u, Below(cfg.dias), cfg, PoissonAt(cfg.L, u));
  }

  /** On a non-zero number of days IBPD times dias gives back IB. */
  lemma IncomePerDay(u: Draws, k: nat, cfg: Config)
    requires IsStream(u) && cfg.L > 0.0 && cfg.dias != 0.0
    ensures Replica(u, k, cfg).ibpd.Fin?
    ensures Replica(u, k, cfg).ibpd.val * cfg.dias == Replica(u, k, cfg).ib
  {
    var ib := Replica(u, k, cfg).ib;
    DivTimes(ib, cfg.dias);
  }

  /** With non-negative prices the income lies between nothing and every egg
      counted sold at the higher of the two prices. */
  lemma IncomeBound(t: Tally, cfg: Config)
    requires cfg.pvh >= 0.0 && cfg.pvp >= 0.0
    ensures 0.0 <= Income(t, cfg) <= Total(t) as real * Max(cfg.pvh, cfg.pvp)
  {
    WeightedBound(t.th as real, t.tps as real, cfg.pvh, cfg.pvp, Max(cfg.pvh, cfg.pvp), Total(t) as real);
  }

  lemma WeightedBound(a: real, b: real, x: real, y: real, m: real, total: real)
    requires 0.0 <= a && 0.0 <= b && 0.0 <= x <= m && 0.0 <= y <= m && a + b <= total
    ensures 0.0 <= a * x + b * y <= total * m
  {
    MulMonotone(a, a, x, m);
    MulMonotone(b, b, y, m);
    calc {
      a * x + b * y;
    <=
      a * m + b * m;
    ==
      (a + b) * m;
    <= { MulMonotone(a + b, total, m, m); }
      total * m;
    }
  }

  /** The day loop of one replica, each day a Poisson number of eggs. */
  method FarmDays(u: Draws, cfg: Config) returns (t: Tally)
    requires IsStream(u) && cfg.L > 0.0
    ensures t == Farm(u, cfg).tally
  {
    var eggs := PoissonAt(cfg.L, u);
    var pos := 0;
    t := NoEggs;
    var d: nat := 0;
    NoDays(u, d, cfg, eggs);
    while (d as real) < cfg.dias
      invariant d <= Below(cfg.dias)
      invariant Days(u, d, cfg, eggs) == Run(t, pos, d, Days(u, d, cfg, eggs).laid)
    {
      BelowGuard(d, cfg.dias);
      var HPG, first := SamplePoisson(cfg.L, u, pos);
      t, pos := LayEggs(u, first, HPG, cfg, t);
      d := d + 1;
    }
    BelowGuard(d, cfg.dias);
  }

  /** One replica: its days, then the income IB and the income per day IBPD. */
  method RunReplica(u: Draws, k: nat, cfg: Config) returns (row: Row)
    requires IsStream(u) && cfg.L > 0.0
    ensures row == Replica(u, k, cfg)
  {
    var t := FarmDays(u, cfg);
    var IB := t.th as real * cfg.pvh + t.tps as real * cfg.pvp;
    var IBPD := PerDay(IB, cfg.dias);
    row := Row(k, IB, IBPD, t.thr, t.tpm, t.tps, t.th);
  }

  /** Replica k as a function of k: its days read the stream of replica k. */
  function ReplicaOf(b: real, cfg: Config): nat -> Row
    requires cfg.L > 0.0
  {
    (k: nat) => Replica(ReplicaDraws(b, k), k, cfg)
  }

  /** The rows of a run: one per replica k = 1 .. nsim. */
  function Rows(b: real, cfg: Config): (rows: seq<Row>)
    requires cfg.L > 0.0
    ensures |rows| == UpTo(cfg.nsim)
  {
    Runs(UpTo(cfg.nsim), ReplicaOf(b, cfg))
  }

  function IB(r: Row): real { r.ib }
  function IBPD(r: Row): Num { r.ibpd }
  function THR(r: Row): real { r.thr as real }
  function TPM(r: Row): real { r.tpm as real }
  function TPS(r: Row): real { r.tps as real }
  function TH(r: Row): real { r.th as real }

  /** The averages card: each of the six summed fields divided by nsim. */
  function Average(rows: seq<Row>, nsim: real): Averages
    requires |rows| == UpTo(nsim)
  {
    Averages(Mean(Sum(rows, IB), nsim), MeanNum(SumNum(rows, IBPD), nsim),
             Mean(Sum(rows, THR), nsim), Mean(Sum(rows, TPM), nsim),
             Mean(Sum(rows, TPS), nsim), Mean(Sum(rows, TH), nsim))
  }

  /** One more row adds its fields to the six running sums. */
  lemma AppendRow(rows: seq<Row>, row: Row)
    ensures Sum(rows + [row], IB) == Sum(rows, IB) + row.ib
    ensures SumNum(rows + [row], IBPD) == Plus(SumNum(rows, IBPD), row.ibpd)
    ensures Sum(rows + [row], THR) == Sum(rows, THR) + row.thr as real
    ensures Sum(rows + [row], TPM) == Sum(rows, TPM) + row.tpm as real
    ensures Sum(rows + [row], TPS) == Sum(rows, TPS) + row.tps as real
    ensures Sum(rows + [row], TH) == Sum(rows, TH) + row.th as real
  {
    SumAppend(rows, row, IB);
    SumNumAppend(rows, row, IBPD);
    SumAppend(rows, row, THR);
    SumAppend(rows, row, TPM);
    SumAppend(rows, row, TPS);
    SumAppend(rows, row, TH);
  }

  /** Before any replica every running sum is 0. */
  lemma NoRows(rows: seq<Row>)
    requires |rows| == 0
    ensures Sum(rows, IB) == 0.0 && SumNum(rows, IBPD) == Fin(0.0)
    ensures Sum(rows, THR) == 0.0 && Sum(rows, TPM) == 0.0
    ensures Sum(rows, TPS) == 0.0 && Sum(rows, TH) == 0.0
  {
  }

  /** The six running sums sIB, sIBPD, sTHR, sTPM, sTPS and sTH of the rows. */
  predicate Summed(rows: seq<Row>, sIB: real, sIBPD: Num, sTHR: real, sTPM: real, sTPS: real, sTH: real)
  {
    sIB == Sum(rows, IB) && sIBPD == SumNum(rows, IBPD) &&
    sTHR == Sum(rows, THR) && sTPM == Sum(rows, TPM) &&
    sTPS == Sum(rows, TPS) && sTH == Sum(rows, TH)
  }

  /** One pass of the replica loop: run replica k, push its row and add it to
      the six sums. */
  method AddReplica(b: real, cfg: Config, k: nat, rows: seq<Row>,
                    sIB: real, sIBPD: Num, sTHR: real, sTPM: real, sTPS: real, sTH: real)
    returns (rows': seq<Row>, sIB': real, sIBPD': Num, sTHR': real, sTPM': real, sTPS': real, sTH': real)
    requires cfg.L > 0.0 && k >= 1
    requires rows == Runs(k - 1, ReplicaOf(b, cfg))
    requires Summed(rows, sIB, sIBPD, sTHR, sTPM, sTPS, sTH)
    ensures rows' == Runs(k, ReplicaOf(b, cfg))
    ensures Summed(rows', sIB', sIBPD', sTHR', sTPM', sTPS', sTH')
  {
    var row := RunReplica(ReplicaDraws(b, k), k, cfg);
    assert row == ReplicaOf(b, cfg)(k);
    AppendRow(rows, row);
    rows' := rows + [row];
    sIB', sIBPD' := sIB + row.ib, Plus(sIBPD, row.ibpd);
    sTHR', sTPM' := sTHR + row.thr as real, sTPM + row.tpm as real;
    sTPS', sTH' := sTPS + row.tps as real, sTH + row.th as real;
  }

  /** The replica loop of `simulate`: one row per replica, with the six
      running sums. */
  method Replicas(b: real, cfg: Config)
    returns (rows: seq<Row>, sIB: real, sIBPD: Num, sTHR: real, sTPM: real, sTPS: real, sTH: real)
    requires cfg.L > 0.0
    ensures rows == Rows(b, cfg)
    ensures Summed(rows, sIB, sIBPD, sTHR, sTPM, sTPS, sTH)
  {
    rows := [];
    sIB, sIBPD, sTHR, sTPM, sTPS, sTH := 0.0, Fin(0.0), 0.0, 0.0, 0.0, 0.0;
    var k: nat := 1;
    while (k as real) <= cfg.nsim
      invariant 1 <= k <= UpTo(cfg.nsim) + 1
      invariant rows == Runs(k - 1, ReplicaOf(b, cfg))
      invariant Summed(rows, sIB, sIBPD, sTHR, sTPM, sTPS, sTH)
    {
      UpToGuard(k, cfg.nsim);
      rows, sIB, sIBPD, sTHR, sTPM, sTPS, sTH := AddReplica(b, cfg, k, rows, sIB, sIBPD, sTHR, sTPM, sTPS, sTH);
      k := k + 1;
    }
    UpToGuard(k, cfg.nsim);
  }

  /** `simulate`: the replica loop, then each sum divided by nsim. */
  method Simulate(base: JsValue, cfg: Config) returns (rows: seq<Row>, avg: Averages)
    requires cfg.L > 0.0
    ensures rows == Rows(BaseValue(base), cfg)
    ensures avg == Average(rows, cfg.nsim)
  {
    var sIB, sIBPD, sTHR, sTPM, sTPS, sTH;
    rows, sIB, sIBPD, sTHR, sTPM, sTPS, sTH := Replicas(BaseValue(base), cfg);
    if cfg.nsim == 0.0 {
      NoRows(rows);
    }
    avg := Averages(Mean(sIB, cfg.nsim), MeanNum(sIBPD, cfg.nsim), Mean(sTHR, cfg.nsim),
                    Mean(sTPM, cfg.nsim), Mean(sTPS, cfg.nsim), Mean(sTH, cfg.nsim));
  }
}
