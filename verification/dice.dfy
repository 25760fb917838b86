/** The dice game (ModDice): in each game the player rolls two dice and wins
    when they sum to 7; otherwise the house wins. The house collects the stake
    every game and pays the player on a win. Replica s plays njuegos games on
    the stream of replica s. */
module Dice {
  import opened Numbers
  import opened Rng

  datatype Config = Config(nsim: real, njuegos: real, costo: real, pagoJugador: real)

  /** One row of results: replica number, net gain of the house, games the
      house won (NJUEC) and their percentage (PJUEC). */
  datatype Row = Row(s: nat, gneta: real, njuec: nat, pjuec: Num)

  datatype Averages = Averages(g: Num, n: Num, p: Num)

  /** The die face `1 + floor(u * 6)` of a draw. */
  function Face(x: real): (d: int)
    requires 0.0 <= x < 1.0
    ensures 1 <= d <= 6
    ensures (d - 1) as real <= x * 6.0 < d as real
  {
    1 + (x * 6.0).Floor
  }

  /** The game whose first die is draw p and whose second is draw p + 1 goes
      to the house: the faces do not sum to 7. */
  predicate HouseWins(u: Draws, p: nat)
    requires IsStream(u)
  {
    Face(u(p)) + Face(u(p + 1)) != 7
  }

  /** The games the house wins among n games read from pos on, two draws each. */
  function Wins(u: Draws, pos: nat, n: nat): (w: nat)
    requires IsStream(u)
    ensures w <= n
  {
    if n == 0 then 0
    else Wins(u, pos, n - 1) + (if HouseWins(u, pos + 2 * (n - 1)) then 1 else 0)
  }

  /** What one game brings the house: the stake when it wins, the stake less
      the payment when the player wins. */
  function GameGain(u: Draws, p: nat, cfg: Config): real
    requires IsStream(u)
  {
    if HouseWins(u, p) then cfg.costo else cfg.costo - cfg.pagoJugador
  }

  /** The house's net gain GNETA over n games read from pos on. */
  function NetGain(u: Draws, pos: nat, n: nat, cfg: Config): real
    requires IsStream(u)
  {
    if n == 0 then 0.0 else NetGain(u, pos, n - 1, cfg) + GameGain(u, pos + 2 * (n - 1), cfg)
  }

  /** The inner loop: njuegos games from draw pos on, two draws per game. */
  method PlayGames(u: Draws, pos: nat, cfg: Config) returns (njuec: nat, gneta: real, next: nat)
    requires IsStream(u)
    ensures next == pos + 2 * Below(cfg.njuegos)
    ensures njuec == Wins(u, pos, Below(cfg.njuegos))
    ensures gneta == NetGain(u, pos, Below(cfg.njuegos), cfg)
  {
    njuec, gneta, next := 0, 0.0, pos;
    var j: nat := 0;
    while (j as real) < cfg.njuegos
      invariant j <= Below(cfg.njuegos)
      invariant next == pos + 2 * j
      invariant njuec == Wins(u, pos, j)
      invariant gneta == NetGain(u, pos, j, cfg)
    {
      BelowGuard(j, cfg.njuegos);
      var d1 := Face(u(next));
      var d2 := Face(u(next + 1));
      if d1 + d2 == 7 {
        gneta := gneta + (cfg.costo - cfg.pagoJugador);
      } else {
        gneta := gneta + cfg.costo;
        njuec := njuec + 1;
      }
      next := next + 2;
      j := j + 1;
    }
    BelowGuard(j, cfg.njuegos);
  }

  /** The net gain in closed form: the stake of every game less the payment of
      every game the player won. */
  lemma {:induction false} NetGainIs(u: Draws, pos: nat, n: nat, cfg: Config)
    requires IsStream(u)
    ensures NetGain(u, pos, n, cfg) == Times(n, cfg.costo) - Times(n - Wins(u, pos, n), cfg.pagoJugador)
  {
    if n > 0 {
      NetGainIs(u, pos, n - 1, cfg);
    }
  }

  /** The row of replica s, whose games read the stream u from its start. */
  function Replica(u: Draws, s: nat, cfg: Config): Row
    requires IsStream(u)
  {
    var n := Below(cfg.njuegos);
    var w := Wins(u, 0, n);
    Row(s, NetGain(u, 0, n, cfg), w, Percentage(w, cfg.njuegos))
  }

  /** PJUEC: `(NJUEC / njuegos) * 100`, NaN when no game was set. */
  function Percentage(w: nat, njuegos: real): (p: Num)
    requires w <= Below(njuegos)
    ensures p == NaN <==> njuegos == 0.0
  {
    Scale(Div(w as real, njuegos), 100.0)
  }

  /** One pass of the replica loop's body: play the games, then the percentage. */
  method RunReplica(u: Draws, s: nat, cfg: Config) returns (row: Row)
    requires IsStream(u)
    ensures row == Replica(u, s, cfg)
  {
    var njuec, gneta, _ := PlayGames(u, 0, cfg);
    row := Row(s, gneta, njuec, Percentage(njuec, cfg.njuegos));
  }

  /** Replica s as a function of s: its games read the stream of replica s. */
  function ReplicaOf(b: real, cfg: Config): nat -> Row
  {
    (s: nat) => Replica(ReplicaDraws(b, s), s, cfg)
  }

  /** The rows of a run: one per replica s = 1 .. nsim. */
  function Rows(b: real, cfg: Config): (rows: seq<Row>)
    ensures |rows| == UpTo(cfg.nsim)
  {
    Runs(UpTo(cfg.nsim), ReplicaOf(b, cfg))
  }

  function Gain(r: Row): real { r.gneta }
  function HouseGames(r: Row): real { r.njuec as real }
  function Percent(r: Row): Num { r.pjuec }

  /** The averages card: each summed field divided by nsim. */
  function Average(rows: seq<Row>, nsim: real): Averages
    requires |rows| == UpTo(nsim)
  {
    Averages(Mean(Sum(rows, Gain), nsim), Mean(Sum(rows, HouseGames), nsim),
             MeanNum(SumNum(rows, Percent), nsim))
  }

  /** `simulate`: the replica loop, accumulating the three sums. */
  method Simulate(base: JsValue, cfg: Config) returns (rows: seq<Row>, avg: Averages)
    ensures rows == Rows(BaseValue(base), cfg)
    ensures avg == Average(rows, cfg.nsim)
  {
    var b := BaseValue(base);
    rows := [];
    var sumG, sumN, sumP := 0.0, 0.0, Fin(0.0);
    var s: nat := 1;
    while (s as real) <= cfg.nsim
      invariant 1 <= s <= UpTo(cfg.nsim) + 1
      invariant |rows| == s - 1
      invariant rows == Runs(s - 1, ReplicaOf(b, cfg))
      invariant sumG == Sum(rows, Gain) && sumN == Sum(rows, HouseGames)
      invariant sumP == SumNum(rows, Percent)
    {
      UpToGuard(s, cfg.nsim);
      var row := RunReplica(ReplicaDraws(b, s), s, cfg);
      assert row == ReplicaOf(b, cfg)(s);
      SumAppend(rows, row, Gain);
      SumAppend(rows, row, HouseGames);
      SumNumAppend(rows, row, Percent);
      rows := rows + [row];
      sumG, sumN, sumP := sumG + row.gneta, sumN + row.njuec as real, Plus(sumP, row.pjuec);
      s := s + 1;
    }
    UpToGuard(s, cfg.nsim);
    avg := Averages(Mean(sumG, cfg.nsim), Mean(sumN, cfg.nsim), MeanNum(sumP, cfg.nsim));
  }

  /** A replica's percentage is NaN exactly when no game was set. */
  lemma PercentNaN(u: Draws, s: nat, cfg: Config)
    requires IsStream(u)
    ensures Replica(u, s, cfg).pjuec == NaN <==> cfg.njuegos == 0.0
    ensures Replica(u, s, cfg).s == s
  {
  }

  /** With a whole, positive number of games k, the house wins between none
      and all of them, and the percentage is 100 * NJUEC / k, in [0, 100]. */
  lemma PercentInRange(u: Draws, s: nat, cfg: Config, k: nat)
    requires IsStream(u) && cfg.njuegos == k as real && k > 0
    ensures Replica(u, s, cfg).njuec <= k
    ensures Replica(u, s, cfg).pjuec.Fin?
    ensures Replica(u, s, cfg).pjuec.val * k as real == 100.0 * Replica(u, s, cfg).njuec as real
    ensures 0.0 <= Replica(u, s, cfg).pjuec.val <= 100.0
  {
    WholeCount(cfg.njuegos, k);
    PercentageBounds(Wins(u, 0, k), k);
  }

  /** Why PercentInRange needs a whole njuegos: `j < 2.5` lets three games be
      played, so three house wins give a PJUEC of 120. */
  lemma FractionalGamesOverflow()
    ensures Below(2.5) == 3
    ensures Percentage(3, 2.5) == Fin(120.0)
  {
  }

  lemma PercentageBounds(w: nat, k: nat)
    requires w <= k && k > 0
    ensures Percentage(w, k as real).Fin?
    ensures Percentage(w, k as real).val * k as real == 100.0 * w as real
    ensures 0.0 <= Percentage(w, k as real).val <= 100.0
  {
    WholeCount(k as real, k);
    var q := Div(w as real, k as real);
    DivTimes(w as real, k as real);
    Cancel(0.0, q.val, 1.0, k as real, w as real);
    Hundredfold(q.val, k as real, w as real);
  }

  lemma Hundredfold(q: real, k: real, w: real)
    requires q * k == w
    ensures (q * 100.0) * k == 100.0 * w
  {
  }

  /** With a non-negative payment the house's net gain lies between losing the
      payment minus the stake on every game and winning the stake on every game. */
  lemma GainRange(u: Draws, s: nat, cfg: Config)
    requires IsStream(u) && cfg.pagoJugador >= 0.0
    ensures var n := Below(cfg.njuegos);
      Times(n, cfg.costo - cfg.pagoJugador) <= Replica(u, s, cfg).gneta <= Times(n, cfg.costo)
  {
    var n := Below(cfg.njuegos);
    NetGainIs(u, 0, n, cfg);
    TimesMonotone(n - Wins(u, 0, n), n, cfg.pagoJugador);
    TimesDifference(n, cfg.costo, cfg.pagoJugador);
  }

  /** With whole, positive nsim and njuegos, the averages of games won and of
      the percentage lie within the per-replica bounds. */
  lemma AveragesInRange(b: real, cfg: Config, m: nat, k: nat)
    requires cfg.nsim == m as real && m > 0
    requires cfg.njuegos == k as real && k > 0
    ensures var avg := Average(Rows(b, cfg), cfg.nsim);
      avg.n.Fin? && 0.0 <= avg.n.val <= k as real &&
      avg.p.Fin? && 0.0 <= avg.p.val <= 100.0
  {
    WholeCount(cfg.nsim, m);
    var rows := Rows(b, cfg);
    forall i | 0 <= i < |rows|
      ensures 0.0 <= HouseGames(rows[i]) <= k as real
      ensures Percent(rows[i]).Fin? && 0.0 <= Percent(rows[i]).val <= 100.0
    {
      RunsAt(m, ReplicaOf(b, cfg), i);
      PercentInRange(ReplicaDraws(b, i + 1), i + 1, cfg, k);
    }
    MeanWithin(rows, HouseGames, 0.0, k as real);
    MeanNumWithin(rows, Percent, 0.0, 100.0);
  }
}
