/** The inventory (ModInventory): a store of capacity cap is reviewed on days
    1, 8, 15 and 22, when the shortfall to capacity is ordered with a lead
    time of 1 to 3 days. Each day, in order: the pipeline ages, arrivals are
    admitted up to capacity (the excess is discarded), the day's demand is
    served from stock, the remaining stock is charged for holding, and on a
    review day an order may be placed. */
module Inventory {
  import opened Numbers
  import opened Rng
  import opened Pipeline

  datatype Config = Config(nsim: real, dias: real, cap: real, cord: real, cui: real, cua: real, puv: real)

  /** The demand DAZU drawn from one draw x: `sampleExponential(mean, rng)`,
      that is -mean * ln(1 - x). The logarithm is not modelled, so the
      transform is a parameter of the model. */
  type Demand = real -> real

  /** A demand transform that never asks for a negative quantity, as
      -mean * ln(1 - x) does for mean >= 0. */
  ghost predicate NonNegative(demand: Demand)
  {
    forall x :: 0.0 <= x < 1.0 ==> demand(x) >= 0.0
  }

  // ---------------------------------------------------------------------------
  // Admitting the arrivals

  /** `Math.min(p.q, Math.max(0, cap - IAZU))`: what an arriving order of q
      units adds to a stock. */
  function Admission(stock: real, q: real, cap: real): real
  {
    Min(q, Max(0.0, cap - stock))
  }

  /** An arriving order adds no more than it carries and no more than the free
      space; with a non-negative quantity it adds nothing negative. */
  lemma AdmissionBounds(stock: real, q: real, cap: real)
    requires q >= 0.0
    ensures 0.0 <= Admission(stock, q, cap) <= q
    ensures stock <= cap ==> stock + Admission(stock, q, cap) <= cap
    ensures stock + q <= cap ==> Admission(stock, q, cap) == q
  {
  }

  /** The stock after admitting orders in turn and the units admitted. */
  datatype Intake = Intake(stock: real, units: real)

  /** Admitting the first n orders of a list, in their order. */
  function AdmitFirst(stock: real, orders: seq<Order>, n: nat, cap: real): Intake
    requires n <= |orders|
  {
    if n == 0 then Intake(stock, 0.0)
    else
      var before := AdmitFirst(stock, orders, n - 1, cap);
      var ing := Admission(before.stock, orders[n - 1].q, cap);
      Intake(before.stock + ing, before.units + ing)
  }

  /** Admitting a whole list of orders. */
  function Admit(stock: real, orders: seq<Order>, cap: real): Intake
  {
    AdmitFirst(stock, orders, |orders|, cap)
  }

  /** Admission keeps a stock within [0, cap]. */
  lemma {:induction false} AdmitFirstBounds(stock: real, orders: seq<Order>, n: nat, cap: real)
    requires n <= |orders| && 0.0 <= stock <= cap
    requires forall i :: 0 <= i < |orders| ==> orders[i].q >= 0.0
    ensures stock <= AdmitFirst(stock, orders, n, cap).stock <= cap
  {
    if n > 0 {
      AdmitFirstBounds(stock, orders, n - 1, cap);
      AdmissionBounds(AdmitFirst(stock, orders, n - 1, cap).stock, orders[n - 1].q, cap);
    }
  }

  /** The same for a whole list. */
  lemma AdmitBounds(stock: real, orders: seq<Order>, cap: real)
    requires 0.0 <= stock <= cap
    requires forall i :: 0 <= i < |orders| ==> orders[i].q >= 0.0
    ensures stock <= Admit(stock, orders, cap).stock <= cap
  {
    AdmitFirstBounds(stock, orders, |orders|, cap);
  }

  /** Whatever the orders, the stock grows by exactly the units admitted. */
  lemma {:induction false} AdmitUnits(stock: real, orders: seq<Order>, n: nat, cap: real)
    requires n <= |orders|
    ensures AdmitFirst(stock, orders, n, cap).stock == stock + AdmitFirst(stock, orders, n, cap).units
  {
    if n > 0 {
      AdmitUnits(stock, orders, n - 1, cap);
    }
  }

  /** The admission loop over the arrived orders. */
  method AdmitArrivals(iazu: real, ctadq: real, arrived: seq<Order>, cfg: Config)
    returns (iazu': real, ctadq': real)
    ensures iazu' == Admit(iazu, arrived, cfg.cap).stock
    ensures ctadq' == ctadq + cfg.cua * Admit(iazu, arrived, cfg.cap).units
  {
    iazu', ctadq' := iazu, ctadq;
    ghost var units := 0.0;
    var i := 0;
    while i < |arrived|
      invariant i <= |arrived|
      invariant AdmitFirst(iazu, arrived, i, cfg.cap) == Intake(iazu', units)
      invariant ctadq' == ctadq + cfg.cua * units
    {
      var p := arrived[i];
      var ing := Admission(iazu', p.q, cfg.cap);
      ghost var spent, before := ctadq', units;
      iazu', ctadq' := iazu' + ing, ctadq' + ing * cfg.cua;
      units := units + ing;
      AddScaled(ctadq, spent, before, ing, cfg.cua, ctadq', units);
      i := i + 1;
    }
  }

  // ---------------------------------------------------------------------------
  // One day

  /** The physical state of `simulateOne`: the stock IAZU, the pipeline and
      the cursor into the stream of draws. */
  datatype State = State(iazu: real, pipe: seq<Order>, pos: nat)

  /** `REV = new Set([1, 8, 15, 22])`. */
  predicate IsReview(d: int)
  {
    d == 1 || d == 8 || d == 15 || d == 22
  }

  /** `1 + floor(u * 3)`. */
  function LeadTime(x: real): (t: int)
    requires 0.0 <= x < 1.0
    ensures 1 <= t <= 3
  {
    1 + (x * 3.0).Floor
  }

  /** The arrivals of the day that starts with pipeline pipe. */
  function IntakeOf(s: State, cfg: Config): Intake
  {
    Admit(s.iazu, Arrived(Aged(s.pipe)), cfg.cap)
  }

  /** VENTAS: the units sold out of the demand. */
  function Sales(stock: real, dazu: real): real
  {
    Min(stock, dazu)
  }

  /** INSAT: the demand left unserved. */
  function Unmet(stock: real, dazu: real): real
  {
    Max(0.0, dazu - Sales(stock, dazu))
  }

  /** Sales and unmet demand split the demand, and the sale never exceeds
      the stock. */
  lemma SaleSplit(stock: real, dazu: real)
    requires stock >= 0.0 && dazu >= 0.0
    ensures Sales(stock, dazu) + Unmet(stock, dazu) == dazu
    ensures 0.0 <= Sales(stock, dazu) <= stock
    ensures Unmet(stock, dazu) == Max(0.0, dazu - stock)
  {
  }

  /** Whether day d places an order when it ends with the given stock: on a
      review day, if the shortfall PAZU to capacity is positive. */
  predicate Orders(d: int, stock: real, cap: real)
  {
    IsReview(d) && cap - stock > 0.0
  }

  /** Physical quantities: the units admitted, sold and held overnight, the
      orders placed and the demand left unmet, of one day or of several. */
  datatype Totals = Totals(admitted: real, sold: real, held: real, orders: nat, unmet: real)

  /** What day d does, starting from the state s; orders is 0 or 1. */
  function Flow(s: State, d: int, u: Draws, cfg: Config, demand: Demand): Totals
    requires IsStream(u)
  {
    var intake := IntakeOf(s, cfg);
    var dazu := demand(u(s.pos));
    var sold := Sales(intake.stock, dazu);
    var held := intake.stock - sold;
    Totals(intake.units, sold, held, if Orders(d, held, cfg.cap) then 1 else 0, Unmet(intake.stock, dazu))
  }

  /** Day d of `simulateOne`, from the state s left by day d - 1: the stock
      left is what is held overnight, and an order for the shortfall PAZU,
      due in `1 + floor(u * 3)` days, joins the pipeline behind the orders
      still on their way. */
  function Day(s: State, d: int, u: Draws, cfg: Config, demand: Demand): State
    requires IsStream(u)
  {
    var f := Flow(s, d, u, cfg, demand);
    if f.orders == 1 then
      State(f.held, NextDay(s.pipe) + [Order(cfg.cap - f.held, LeadTime(u(s.pos + 1)))], s.pos + 2)
    else
      State(f.held, NextDay(s.pipe), s.pos + 1)
  }

  // ---------------------------------------------------------------------------
  // The accounts

  /** The accumulators of `simulateOne`: CORDT, CTINV, CTADQ, IBRU and DIT. */
  datatype Books = Books(cordt: real, ctinv: real, ctadq: real, ibru: real, dit: real)

  /** One day's entries, as the day loop makes them: CORDT grows by cord when
      an order is placed, CTINV by cui per unit held, CTADQ by cua per unit
      admitted, IBRU by puv per unit sold and DIT by the unmet demand. */
  function Charge(b: Books, f: Totals, cfg: Config): Books
  {
    Books(if f.orders == 1 then b.cordt + cfg.cord else b.cordt,
          b.ctinv + cfg.cui * f.held,
          b.ctadq + cfg.cua * f.admitted,
          b.ibru + f.sold * cfg.puv,
          b.dit + f.unmet)
  }

  /** The accounts of a run with the given totals: each is its price times
      its quantity. */
  function Priced(t: Totals, cfg: Config): Books
  {
    Books(cfg.cord * t.orders as real, cfg.cui * t.held, cfg.cua * t.admitted, cfg.puv * t.sold, t.unmet)
  }

  function Add(a: Totals, b: Totals): Totals
  {
    Totals(a.admitted + b.admitted, a.sold + b.sold, a.held + b.held, a.orders + b.orders, a.unmet + b.unmet)
  }

  /** Paying ing * price for ing more units keeps the account at price per
      unit. */
  lemma AddScaled(base: real, acc: real, units: real, ing: real, price: real, acc': real, units': real)
    requires acc == base + price * units
    requires acc' == acc + ing * price && units' == units + ing
    ensures acc' == base + price * units'
  {
  }

  /** Charging a day of at most one order to priced books gives the priced
      books of the totals with that day added. */
  lemma ChargePriced(t: Totals, f: Totals, cfg: Config)
    requires f.orders <= 1
    ensures Charge(Priced(t, cfg), f, cfg) == Priced(Add(t, f), cfg)
  {
    var b, t' := Charge(Priced(t, cfg), f, cfg), Add(t, f);
    AddScaled(0.0, cfg.cui * t.held, t.held, f.held, cfg.cui, b.ctinv, t'.held);
    AddScaled(0.0, cfg.cua * t.admitted, t.admitted, f.admitted, cfg.cua, b.ctadq, t'.admitted);
    AddScaled(0.0, cfg.puv * t.sold, t.sold, f.sold, cfg.puv, b.ibru, t'.sold);
    if f.orders == 1 {
      AddScaled(0.0, cfg.cord * t.orders as real, t.orders as real, 1.0, cfg.cord, b.cordt, t.orders as real + 1.0);
      assert (t.orders + f.orders) as real == t.orders as real + 1.0;
    } else {
      assert t.orders + f.orders == t.orders;
    }
  }

  // ---------------------------------------------------------------------------
  // The day loop

  /** The arrivals part of a day: age the pipeline, admit what arrives,
      drop it from the pipeline. */
  method Receive(s: State, ctadq: real, cfg: Config) returns (pipe: seq<Order>, iazu: real, ctadq': real)
    ensures pipe == NextDay(s.pipe)
    ensures iazu == IntakeOf(s, cfg).stock && ctadq' == ctadq + cfg.cua * IntakeOf(s, cfg).units
  {
    pipe := AgePipe(s.pipe);
    var llegados := Arrived(pipe);
    iazu, ctadq' := AdmitArrivals(s.iazu, ctadq, llegados, cfg);
    pipe := RemoveArrived(pipe);
  }

  /** One pass of the day loop, written as `simulateOne` does it. */
  method RunDay(s: State, b: Books, d: int, u: Draws, cfg: Config, demand: Demand) returns (s': State, b': Books)
    requires IsStream(u)
    ensures s' == Day(s, d, u, cfg, demand)
    ensures b' == Charge(b, Flow(s, d, u, cfg, demand), cfg)
  {
    // arrivals
    var pipe, iazu, ctadq := Receive(s, b.ctadq, cfg);
    // demand
    var dazu := demand(u(s.pos));
    var pos := s.pos + 1;
    var ventas := Min(iazu, dazu);
    var insat := Max(0.0, dazu - ventas);
    iazu := iazu - ventas;
    var ibru := b.ibru + ventas * cfg.puv;
    var dit := b.dit + insat;
    // holding
    var ctinv := b.ctinv + cfg.cui * iazu;
    // review
    var cordt := b.cordt;
    if IsReview(d) {
      var pazu := cfg.cap - iazu;
      if pazu > 0.0 {
        var tent := LeadTime(u(pos));
        pos := pos + 1;
        pipe := pipe + [Order(pazu, tent)];
        cordt := cordt + cfg.cord;
      }
    }
    s' := State(iazu, pipe, pos);
    b' := Books(cordt, ctinv, ctadq, ibru, dit);
  }

  /** The state before the first day: no stock and no orders. */
  const Start: State := State(0.0, [], 0)

  /** Where a run stands after some days: the state and the totals so far. */
  datatype Progress = Progress(s: State, t: Totals)

  /** The state after days 1 .. n and the totals of those days. */
  function Days(u: Draws, n: nat, cfg: Config, demand: Demand): Progress
    requires IsStream(u)
  {
    if n == 0 then Progress(Start, Totals(0.0, 0.0, 0.0, 0, 0.0))
    else
      var p := Days(u, n - 1, cfg, demand);
      Progress(Day(p.s, n, u, cfg, demand), Add(p.t, Flow(p.s, n, u, cfg, demand)))
  }

  /** What `simulateOne` returns. */
  datatype Outcome = Outcome(gneta: real, dit: real, ns: Num)

  /** `nivelServicio = (IBRU/puv) / ((IBRU/puv) + DIT || 1)`: the share of the
      demand served, where a zero denominator is replaced by 1. With puv = 0,
      IBRU is 0 too and 0/0 is NaN. */
  function ServiceLevel(ibru: real, puv: real, dit: real): Num
  {
    if puv == 0.0 then NaN
    else
      var served := ibru / puv;
      var total := served + dit;
      Fin(served / (if total == 0.0 then 1.0 else total))
  }

  /** GNETA = IBRU - (CTINV + CTADQ + CORDT), DIT and the service level of a
      run with the given totals. */
  function OutcomeOf(t: Totals, cfg: Config): Outcome
  {
    var b := Priced(t, cfg);
    Outcome(b.ibru - (b.ctinv + b.ctadq + b.cordt), b.dit, ServiceLevel(b.ibru, cfg.puv, b.dit))
  }

  /** `simulateOne(rng)`: the day loop `d = 1 .. dias`, then the results. The
      accounts it accumulates day by day are the priced totals. */
  method SimulateOne(u: Draws, cfg: Config, demand: Demand) returns (r: Outcome)
    requires IsStream(u)
    ensures r == OutcomeOf(Days(u, UpTo(cfg.dias), cfg, demand).t, cfg)
  {
    var s := State(0.0, [], 0);
    var b := Books(0.0, 0.0, 0.0, 0.0, 0.0);
    var d: nat := 1;
    while (d as real) <= cfg.dias
      invariant 1 <= d <= UpTo(cfg.dias) + 1
      invariant s == Days(u, d - 1, cfg, demand).s
      invariant b == Priced(Days(u, d - 1, cfg, demand).t, cfg)
    {
      UpToGuard(d, cfg.dias);
      ChargePriced(Days(u, d - 1, cfg, demand).t, Flow(s, d, u, cfg, demand), cfg);
      s, b := RunDay(s, b, d, u, cfg, demand);
      d := d + 1;
    }
    UpToGuard(d, cfg.dias);
    var ctot := b.ctinv + b.ctadq + b.cordt;
    var gneta := b.ibru - ctot;
    r := Outcome(gneta, b.dit, ServiceLevel(b.ibru, cfg.puv, b.dit));
  }

  // ---------------------------------------------------------------------------
  // What every day keeps

  /** The stock lies within [0, cap], and every outstanding order is for a
      positive quantity of at most cap and is due in 1 to 3 days. */
  predicate Inv(s: State, cfg: Config)
  {
    0.0 <= s.iazu <= cfg.cap && Bounded(s.pipe, cfg.cap, 1, 3)
  }

  /** Totals with nothing negative and no more sold than admitted. */
  predicate Sound(t: Totals)
  {
    0.0 <= t.sold <= t.admitted && 0.0 <= t.held && 0.0 <= t.unmet
  }

  /** A day from a stock within [0, cap] admits, sells, holds and misses no
      negative amount, holds at most cap and sells no more than it had. */
  lemma FlowBounds(s: State, d: int, u: Draws, cfg: Config, demand: Demand)
    requires IsStream(u) && NonNegative(demand) && Inv(s, cfg)
    ensures var f := Flow(s, d, u, cfg, demand);
      0.0 <= f.admitted && 0.0 <= f.sold && 0.0 <= f.held <= cfg.cap && 0.0 <= f.unmet &&
      f.held == s.iazu + f.admitted - f.sold
  {
    DayBounded(s.pipe, cfg.cap, 3);
    AdmitBounds(s.iazu, Arrived(Aged(s.pipe)), cfg.cap);
    AdmitUnits(s.iazu, Arrived(Aged(s.pipe)), |Arrived(Aged(s.pipe))|, cfg.cap);
    SaleSplit(IntakeOf(s, cfg).stock, demand(u(s.pos)));
  }

  /** A day keeps the invariant: admission stops at capacity, a sale never
      takes more than the stock, and a new order fills the shortfall to
      capacity with a lead time of 1 to 3 days. */
  lemma DayKeeps(s: State, d: int, u: Draws, cfg: Config, demand: Demand)
    requires IsStream(u) && NonNegative(demand) && Inv(s, cfg)
    ensures Inv(Day(s, d, u, cfg, demand), cfg)
  {
    DayBounded(s.pipe, cfg.cap, 3);
    FlowBounds(s, d, u, cfg, demand);
    var f := Flow(s, d, u, cfg, demand);
    var waiting := NextDay(s.pipe);
    assert Bounded(waiting, cfg.cap, 1, 3);
    if f.orders == 1 {
      var o := Order(cfg.cap - f.held, LeadTime(u(s.pos + 1)));
      BoundedAppend(waiting, [o], cfg.cap, 1, 3);
    }
  }

  /** Hence every day of a run, with a capacity of at least 0 and a demand
      that is never negative, keeps the invariant; no total is negative and
      the stock is all that was admitted less all that was sold. */
  lemma {:induction false} DaysKeep(u: Draws, n: nat, cfg: Config, demand: Demand)
    requires IsStream(u) && NonNegative(demand) && cfg.cap >= 0.0
    ensures var p := Days(u, n, cfg, demand);
      Inv(p.s, cfg) && p.s.iazu == p.t.admitted - p.t.sold && Sound(p.t)
  {
    if n > 0 {
      DaysKeep(u, n - 1, cfg, demand);
      var s := Days(u, n - 1, cfg, demand).s;
      DayKeeps(s, n, u, cfg, demand);
      FlowBounds(s, n, u, cfg, demand);
    }
  }

  /** At the end of every day each outstanding order is still on its way. */
  lemma DaysPending(u: Draws, n: nat, cfg: Config, demand: Demand)
    requires IsStream(u)
    ensures Pending(Days(u, n, cfg, demand).s.pipe)
  {
    if n > 0 {
      var s := Days(u, n - 1, cfg, demand).s;
      var t := Days(u, n, cfg, demand).s;
      WaitingIsPending(Aged(s.pipe));
      assert t.pipe[..|NextDay(s.pipe)|] == NextDay(s.pipe);
    }
  }

  // ---------------------------------------------------------------------------
  // Ordering

  /** Off a review day nothing is ordered: the pipeline only moves on and the
      day takes one draw. */
  lemma OffReview(s: State, d: int, u: Draws, cfg: Config, demand: Demand)
    requires IsStream(u)
    ensures Flow(s, d, u, cfg, demand).orders <= 1
    ensures !IsReview(d) ==> Flow(s, d, u, cfg, demand).orders == 0
    ensures !IsReview(d) ==> var t := Day(s, d, u, cfg, demand);
      t.pipe == NextDay(s.pipe) && t.pos == s.pos + 1
  {
  }

  /** A day that adds an order is a review day; the order fills the stock the
      day ends with up to capacity, is due in 1 to 3 days and takes a second
      draw. */
  lemma NewOrder(s: State, d: int, u: Draws, cfg: Config, demand: Demand)
    requires IsStream(u)
    requires |Day(s, d, u, cfg, demand).pipe| != |NextDay(s.pipe)|
    ensures var t := Day(s, d, u, cfg, demand);
      var o := t.pipe[|t.pipe| - 1];
      IsReview(d) && Flow(s, d, u, cfg, demand).orders == 1 &&
      t.iazu < cfg.cap && t.iazu + o.q == cfg.cap && 1 <= o.tent <= 3 &&
      t.pipe == NextDay(s.pipe) + [o] && t.pos == s.pos + 2
  {
  }

  /** The number of review days among days 1 .. n. */
  function Reviews(n: nat): (r: nat)
    ensures r <= 4 && r <= n
  {
    if n >= 22 then 4 else if n >= 15 then 3 else if n >= 8 then 2 else if n >= 1 then 1 else 0
  }

  lemma ReviewsStep(n: nat)
    requires n >= 1
    ensures Reviews(n) == Reviews(n - 1) + (if IsReview(n) then 1 else 0)
  {
  }

  /** At most one order per review day, so at most four orders in a run and
      CORDT is at most 4 * cord. */
  lemma {:induction false} OrdersPerReview(u: Draws, n: nat, cfg: Config, demand: Demand)
    requires IsStream(u)
    ensures Days(u, n, cfg, demand).t.orders <= Reviews(n)
  {
    if n > 0 {
      OrdersPerReview(u, n - 1, cfg, demand);
      ReviewsStep(n);
      OffReview(Days(u, n - 1, cfg, demand).s, n, u, cfg, demand);
    }
  }

  // ---------------------------------------------------------------------------
  // The lead-time rule

  /** Whatever a day orders, the orders already outstanding keep their place
      at the front of the pipeline. */
  lemma DayPrefix(s: State, d: int, u: Draws, cfg: Config, demand: Demand, a: seq<Order>)
    requires IsStream(u) && Leads(a, s.pipe)
    ensures Leads(NextDay(a), Day(s, d, u, cfg, demand).pipe)
  {
    PrefixDay(a, s.pipe);
    var t := Day(s, d, u, cfg, demand);
    assert t.pipe[..|NextDay(s.pipe)|] == NextDay(s.pipe);
  }

  /** The pipeline after each day of a run. */
  ghost function Pipes(u: Draws, cfg: Config, demand: Demand): nat -> seq<Order>
    requires IsStream(u)
  {
    (n: nat) => Days(u, n, cfg, demand).s.pipe
  }

  /** The pipeline after day n, a day older, opens the pipeline after day
      n + 1. */
  lemma DaysLead(u: Draws, n: nat, cfg: Config, demand: Demand)
    requires IsStream(u)
    ensures Leads(NextDay(Days(u, n, cfg, demand).s.pipe), Days(u, n + 1, cfg, demand).s.pipe)
  {
    var s := Days(u, n, cfg, demand).s;
    DayPrefix(s, n + 1, u, cfg, demand, s.pipe);
  }

  /** The orders outstanding after day d, left to themselves for j days,
      are still at the front of the pipeline after day e = d + j: orders
      placed later queue behind them. */
  lemma DaysPrefix(u: Draws, d: nat, j: nat, e: nat, cfg: Config, demand: Demand)
    requires IsStream(u) && e == d + j
    ensures Leads(Advance(Days(u, d, cfg, demand).s.pipe, j), Days(u, e, cfg, demand).s.pipe)
  {
    var pipes := Pipes(u, cfg, demand);
    forall n: nat
      ensures Leads(NextDay(pipes(n)), pipes(n + 1))
    {
      DaysLead(u, n, cfg, demand);
    }
    LeadsOn(pipes, d, j, e);
    assert pipes(d) == Days(u, d, cfg, demand).s.pipe;
    assert pipes(e) == Days(u, e, cfg, demand).s.pipe;
  }

  /** Every order outstanding after day d with tent k >= 1 arrives on day
      d + k: those orders, in their order and with tent 0, open the list of
      that day's arrivals. */
  lemma LeadTimeRule(u: Draws, d: nat, k: nat, cfg: Config, demand: Demand)
    requires IsStream(u) && k >= 1
    ensures var p := Days(u, d, cfg, demand).s.pipe;
      Leads(Shift(Exactly(p, k), k), Arrived(Aged(Days(u, d + k - 1, cfg, demand).s.pipe)))
  {
    var p := Days(u, d, cfg, demand).s.pipe;
    DaysPending(u, d, cfg, demand);
    DaysPrefix(u, d, k - 1, d + k - 1, cfg, demand);
    PrefixDay(Advance(p, k - 1), Days(u, d + k - 1, cfg, demand).s.pipe);
    ArrivalsOnDay(p, k);
  }

  // ---------------------------------------------------------------------------
  // The service level

  /** With a positive price the service level is the share of the demand that
      was served, sold / (sold + unmet), or 0 when there was no demand; it
      lies in [0, 1]. */
  lemma ServiceShare(sold: real, unmet: real, puv: real)
    requires puv > 0.0 && sold >= 0.0 && unmet >= 0.0
    ensures ServiceLevel(puv * sold, puv, unmet) ==
      Fin(if sold + unmet == 0.0 then 0.0 else sold / (sold + unmet))
    ensures 0.0 <= ServiceLevel(puv * sold, puv, unmet).val <= 1.0
  {
    assert (puv * sold) / puv == sold;
    var total := sold + unmet;
    if total != 0.0 {
      var m := sold / total;
      assert m * total == sold;
      Cancel(0.0, m, 1.0, total, sold);
    }
  }

  /** A share: a number in [0, 1]. */
  predicate Share(x: Num)
  {
    x.Fin? && 0.0 <= x.val <= 1.0
  }

  /** The same for the outcome of a run with sound totals. */
  lemma OutcomeService(t: Totals, cfg: Config)
    requires cfg.puv > 0.0 && Sound(t)
    ensures OutcomeOf(t, cfg).ns ==
      Fin(if t.sold + t.unmet == 0.0 then 0.0 else t.sold / (t.sold + t.unmet))
    ensures Share(OutcomeOf(t, cfg).ns)
  {
    ServiceShare(t.sold, t.unmet, cfg.puv);
  }

  /** With a positive price, a capacity of at least 0 and a demand that is
      never negative, a replica's service level is a share. */
  lemma ReplicaService(u: Draws, k: nat, cfg: Config, demand: Demand)
    requires IsStream(u) && NonNegative(demand) && cfg.cap >= 0.0 && cfg.puv > 0.0
    ensures Share(Replica(u, k, cfg, demand).ns)
  {
    DaysKeep(u, UpTo(cfg.dias), cfg, demand);
    OutcomeService(Days(u, UpTo(cfg.dias), cfg, demand).t, cfg);
  }

  /** At most one order per review day, so CORDT is at most 4 * cord. */
  lemma OrderCosts(t: Totals, cfg: Config)
    requires t.orders <= 4 && cfg.cord >= 0.0
    ensures 0.0 <= Priced(t, cfg).cordt <= 4.0 * cfg.cord
  {
    var o := t.orders as real;
    assert 0.0 <= o <= 4.0;
    MulMonotone(cfg.cord, cfg.cord, o, 4.0);
    assert Priced(t, cfg).cordt == cfg.cord * o;
  }

  // ---------------------------------------------------------------------------
  // Replicas

  /** One row of the table: replica k, GNETA, DIT and the service level. */
  datatype Row = Row(k: nat, gneta: real, dit: real, ns: Num)

  /** The averages card. */
  datatype Averages = Averages(g: Num, dit: Num, ns: Num)

  /** Replica k run over the stream u. */
  function Replica(u: Draws, k: nat, cfg: Config, demand: Demand): Row
    requires IsStream(u)
  {
    var o := OutcomeOf(Days(u, UpTo(cfg.dias), cfg, demand).t, cfg);
    Row(k, o.gneta, o.dit, o.ns)
  }

  /** One pass of the replica loop's body. */
  method RunReplica(u: Draws, k: nat, cfg: Config, demand: Demand) returns (row: Row)
    requires IsStream(u)
    ensures row == Replica(u, k, cfg, demand)
  {
    var r := SimulateOne(u, cfg, demand);
    row := Row(k, r.gneta, r.dit, r.ns);
  }

  /** Replica k as a function of k: it reads the stream of replica k. */
  function ReplicaOf(b: real, cfg: Config, demand: Demand): nat -> Row
  {
    (k: nat) => Replica(ReplicaDraws(b, k), k, cfg, demand)
  }

  /** The rows of a run: one per replica k = 1 .. nsim. */
  function Rows(b: real, cfg: Config, demand: Demand): (rows: seq<Row>)
    ensures |rows| == UpTo(cfg.nsim)
  {
    Runs(UpTo(cfg.nsim), ReplicaOf(b, cfg, demand))
  }

  function Gain(r: Row): real { r.gneta }
  function Unserved(r: Row): real { r.dit }
  function Service(r: Row): Num { r.ns }

  /** `{g: sG/nsim, dit: sD/nsim, ns: sN/nsim}`. */
  function Average(rows: seq<Row>, nsim: real): Averages
    requires |rows| == UpTo(nsim)
  {
    Averages(Mean(Sum(rows, Gain), nsim), Mean(Sum(rows, Unserved), nsim),
             MeanNum(SumNum(rows, Service), nsim))
  }

  /** `simulate`: the replica loop, accumulating the three sums. */
  method Simulate(base: JsValue, cfg: Config, demand: Demand) returns (rows: seq<Row>, avg: Averages)
    ensures rows == Rows(BaseValue(base), cfg, demand)
    ensures avg == Average(rows, cfg.nsim)
  {
    var b := BaseValue(base);
    rows := [];
    var sG, sD, sN := 0.0, 0.0, Fin(0.0);
    var k: nat := 1;
    while (k as real) <= cfg.nsim
      invariant 1 <= k <= UpTo(cfg.nsim) + 1
      invariant |rows| == k - 1
      invariant rows == Runs(k - 1, ReplicaOf(b, cfg, demand))
      invariant sG == Sum(rows, Gain) && sD == Sum(rows, Unserved)
      invariant sN == SumNum(rows, Service)
    {
      UpToGuard(k, cfg.nsim);
      var row := RunReplica(ReplicaDraws(b, k), k, cfg, demand);
      assert row == ReplicaOf(b, cfg, demand)(k);
      SumAppend(rows, row, Gain);
      SumAppend(rows, row, Unserved);
      SumNumAppend(rows, row, Service);
      rows := rows + [row];
      sG, sD, sN := sG + row.gneta, sD + row.dit, Plus(sN, row.ns);
      k := k + 1;
    }
    UpToGuard(k, cfg.nsim);
    avg := Averages(Mean(sG, cfg.nsim), Mean(sD, cfg.nsim), MeanNum(sN, cfg.nsim));
  }

  /** With a whole, positive nsim, a positive price, a capacity of at least 0
      and a demand that is never negative, the average service level is a
      share in [0, 1]. */
  lemma AverageServiceInRange(b: real, cfg: Config, demand: Demand, m: nat)
    requires cfg.nsim == m as real && m > 0
    requires NonNegative(demand) && cfg.cap >= 0.0 && cfg.puv > 0.0
    ensures var avg := Average(Rows(b, cfg, demand), cfg.nsim);
      avg.ns.Fin? && 0.0 <= avg.ns.val <= 1.0
  {
    WholeCount(cfg.nsim, m);
    var rows := Rows(b, cfg, demand);
    forall i | 0 <= i < |rows|
      ensures Service(rows[i]).Fin? && 0.0 <= Service(rows[i]).val <= 1.0
    {
      RunsAt(m, ReplicaOf(b, cfg, demand), i);
      ReplicaService(ReplicaDraws(b, i + 1), i + 1, cfg, demand);
    }
    MeanNumWithin(rows, Service, 0.0, 1.0);
  }
}
