/** The order pipeline of the inventory (ModInventory): outstanding orders,
    each with its quantity q and the days `tent` until it arrives. Every day
    lowers every tent by one; the orders whose tent reaches 0 arrive and
    leave the pipeline, the others stay in the order they were placed. */
module Pipeline {

  datatype Order = Order(q: real, tent: int)

  /** Every order's tent lowered by k, in place. */
  function Shift(p: seq<Order>, k: int): (r: seq<Order>)
    ensures |r| == |p|
  {
    if p == [] then [] else [Order(p[0].q, p[0].tent - k)] + Shift(p[1..], k)
  }

  /** `for (const p of pipe) p.tent -= 1`. */
  function Aged(p: seq<Order>): (r: seq<Order>)
    ensures |r| == |p|
  {
    Shift(p, 1)
  }

  /** The orders whose tent exceeds k, in pipeline order. */
  function Above(p: seq<Order>, k: int): seq<Order>
  {
    if p == [] then [] else (if p[0].tent > k then [p[0]] else []) + Above(p[1..], k)
  }

  /** The orders whose tent is at most k, in pipeline order. */
  function AtMost(p: seq<Order>, k: int): seq<Order>
  {
    if p == [] then [] else (if p[0].tent <= k then [p[0]] else []) + AtMost(p[1..], k)
  }

  /** The orders whose tent is exactly k, in pipeline order. */
  function Exactly(p: seq<Order>, k: int): seq<Order>
  {
    if p == [] then [] else (if p[0].tent == k then [p[0]] else []) + Exactly(p[1..], k)
  }

  /** `pipe.filter(p => p.tent <= 0)`: the orders that arrive. */
  function Arrived(p: seq<Order>): seq<Order>
  {
    AtMost(p, 0)
  }

  /** What the removal loop leaves: the orders still on their way. */
  function Waiting(p: seq<Order>): seq<Order>
  {
    Above(p, 0)
  }

  // ---------------------------------------------------------------------------
  // The in-place loops

  /** The aging loop: lowers each order's tent by one. */
  method AgePipe(p: seq<Order>) returns (pipe: seq<Order>)
    ensures pipe == Aged(p)
  {
    pipe := p;
    var i := 0;
    while i < |pipe|
      invariant i <= |pipe| == |p|
      invariant forall j :: 0 <= j < i ==> pipe[j] == Order(p[j].q, p[j].tent - 1)
      invariant forall j :: i <= j < |p| ==> pipe[j] == p[j]
    {
      pipe := pipe[i := Order(pipe[i].q, pipe[i].tent - 1)];
      i := i + 1;
    }
    forall j | 0 <= j < |p|
      ensures pipe[j] == Aged(p)[j]
    {
      ShiftAt(p, 1, j);
    }
  }

  /** The removal loop: from the last order down to the first, each order
      whose tent has reached 0 is spliced out. */
  method RemoveArrived(p: seq<Order>) returns (pipe: seq<Order>)
    ensures pipe == Waiting(p)
  {
    pipe := p;
    var i: int := |p| - 1;
    while i >= 0
      invariant -1 <= i < |p|
      invariant pipe == p[..i + 1] + Waiting(p[i + 1..])
    {
      assert p[i..] == [p[i]] + p[i + 1..];
      assert pipe[i] == p[i];
      if pipe[i].tent <= 0 {
        pipe := pipe[..i] + pipe[i + 1..];
        assert pipe == p[..i] + Waiting(p[i + 1..]);
      } else {
        assert p[..i + 1] == p[..i] + [p[i]];
      }
      i := i - 1;
    }
  }

  // ---------------------------------------------------------------------------
  // Properties

  lemma {:induction false} ShiftAt(p: seq<Order>, k: int, i: nat)
    requires i < |p|
    ensures Shift(p, k)[i] == Order(p[i].q, p[i].tent - k)
  {
    if i > 0 {
      ShiftAt(p[1..], k, i - 1);
    }
  }

  // The four transformations distribute over concatenation.

  lemma {:induction false} ShiftAppend(a: seq<Order>, b: seq<Order>, k: int)
    ensures Shift(a + b, k) == Shift(a, k) + Shift(b, k)
  {
    if a == [] {
      assert a + b == b;
    } else {
      var h := [Order(a[0].q, a[0].tent - k)];
      assert (a + b)[0] == a[0] && (a + b)[1..] == a[1..] + b;
      calc {
        Shift(a + b, k);
        h + Shift(a[1..] + b, k);
        { ShiftAppend(a[1..], b, k); }
        h + (Shift(a[1..], k) + Shift(b, k));
        (h + Shift(a[1..], k)) + Shift(b, k);
      }
    }
  }

  lemma {:induction false} AboveAppend(a: seq<Order>, b: seq<Order>, k: int)
    ensures Above(a + b, k) == Above(a, k) + Above(b, k)
  {
    if a == [] {
      assert a + b == b;
    } else {
      var h := (if a[0].tent > k then [a[0]] else []);
      assert (a + b)[0] == a[0] && (a + b)[1..] == a[1..] + b;
      calc {
        Above(a + b, k);
        h + Above(a[1..] + b, k);
        { AboveAppend(a[1..], b, k); }
        h + (Above(a[1..], k) + Above(b, k));
        (h + Above(a[1..], k)) + Above(b, k);
      }
    }
  }

  lemma {:induction false} AtMostAppend(a: seq<Order>, b: seq<Order>, k: int)
    ensures AtMost(a + b, k) == AtMost(a, k) + AtMost(b, k)
  {
    if a == [] {
      assert a + b == b;
    } else {
      var h := (if a[0].tent <= k then [a[0]] else []);
      assert (a + b)[0] == a[0] && (a + b)[1..] == a[1..] + b;
      calc {
        AtMost(a + b, k);
        h + AtMost(a[1..] + b, k);
        { AtMostAppend(a[1..], b, k); }
        h + (AtMost(a[1..], k) + AtMost(b, k));
        (h + AtMost(a[1..], k)) + AtMost(b, k);
      }
    }
  }

  lemma {:induction false} ExactlyAppend(a: seq<Order>, b: seq<Order>, k: int)
    ensures Exactly(a + b, k) == Exactly(a, k) + Exactly(b, k)
  {
    if a == [] {
      assert a + b == b;
    } else {
      var h := (if a[0].tent == k then [a[0]] else []);
      assert (a + b)[0] == a[0] && (a + b)[1..] == a[1..] + b;
      calc {
        Exactly(a + b, k);
        h + Exactly(a[1..] + b, k);
        { ExactlyAppend(a[1..], b, k); }
        h + (Exactly(a[1..], k) + Exactly(b, k));
        (h + Exactly(a[1..], k)) + Exactly(b, k);
      }
    }
  }

  /** Filtering after a shift is shifting after filtering at the shifted
      threshold. */
  lemma {:induction false} AboveShift(p: seq<Order>, j: int, k: int)
    ensures Above(Shift(p, j), k) == Shift(Above(p, j + k), j)
  {
    if p != [] {
      AboveShift(p[1..], j, k);
      ShiftAppend(if p[0].tent > j + k then [p[0]] else [], Above(p[1..], j + k), j);
    }
  }

  lemma {:induction false} AtMostShift(p: seq<Order>, j: int, k: int)
    ensures AtMost(Shift(p, j), k) == Shift(AtMost(p, j + k), j)
  {
    if p != [] {
      AtMostShift(p[1..], j, k);
      ShiftAppend(if p[0].tent <= j + k then [p[0]] else [], AtMost(p[1..], j + k), j);
    }
  }

  lemma {:induction false} ShiftShift(p: seq<Order>, a: int, b: int)
    ensures Shift(Shift(p, a), b) == Shift(p, a + b)
  {
    if p != [] {
      ShiftShift(p[1..], a, b);
    }
  }

  /** Raising the threshold of a filter twice keeps the higher one. */
  lemma {:induction false} AboveAbove(p: seq<Order>, a: int, b: int)
    requires a <= b
    ensures Above(Above(p, a), b) == Above(p, b)
  {
    if p != [] {
      AboveAbove(p[1..], a, b);
      AboveAppend(if p[0].tent > a then [p[0]] else [], Above(p[1..], a), b);
    }
  }

  /** Among the orders with tent above k, those with tent at most k + 1 are
      those with tent exactly k + 1. */
  lemma {:induction false} NextDue(p: seq<Order>, k: int)
    ensures AtMost(Above(p, k), k + 1) == Exactly(p, k + 1)
  {
    if p != [] {
      NextDue(p[1..], k);
      AtMostAppend(if p[0].tent > k then [p[0]] else [], Above(p[1..], k), k + 1);
    }
  }

  /** The two filters split a pipeline: every order goes to exactly one side,
      the arrivals all have tent <= k and the survivors tent > k. */
  lemma {:induction false} Partition(p: seq<Order>, k: int)
    ensures multiset(Above(p, k)) + multiset(AtMost(p, k)) == multiset(p)
    ensures forall o :: o in Above(p, k) ==> o.tent > k
    ensures forall o :: o in AtMost(p, k) ==> o.tent <= k
  {
    if p != [] {
      Partition(p[1..], k);
      assert p == [p[0]] + p[1..];
    }
  }

  /** Orders still on their way, as every pipeline is at the end of a day. */
  predicate Pending(p: seq<Order>)
  {
    forall i :: 0 <= i < |p| ==> p[i].tent > 0
  }

  lemma {:induction false} PendingIsAbove(p: seq<Order>)
    requires Pending(p)
    ensures Above(p, 0) == p && Shift(p, 0) == p
  {
    if p != [] {
      PendingIsAbove(p[1..]);
      assert p == [p[0]] + p[1..];
    }
  }

  /** One day of a pipeline without new orders: age, then remove arrivals. */
  function NextDay(p: seq<Order>): seq<Order>
  {
    Waiting(Aged(p))
  }

  /** k days of a pipeline without new orders. */
  function Advance(p: seq<Order>, k: nat): seq<Order>
  {
    if k == 0 then p else NextDay(Advance(p, k - 1))
  }

  /** After k days the orders left are those whose tent exceeded k, still in
      their order, each with its tent k lower. */
  lemma {:induction false} AdvanceIs(p: seq<Order>, k: nat)
    requires Pending(p)
    ensures Advance(p, k) == Shift(Above(p, k), k)
  {
    if k == 0 {
      PendingIsAbove(p);
    } else {
      var x := Above(p, k - 1);
      calc {
        Advance(p, k);
        Waiting(Aged(Advance(p, k - 1)));
        { AdvanceIs(p, k - 1); }
        Above(Shift(Shift(x, k - 1), 1), 0);
        { ShiftShift(x, k - 1, 1); }
        Above(Shift(x, k), 0);
        { AboveShift(x, k, 0); }
        Shift(Above(x, k), k);
        { AboveAbove(p, k - 1, k); }
        Shift(Above(p, k), k);
      }
    }
  }

  /** The lead-time rule: the orders arriving on the k-th day are exactly
      those whose tent was k, in their order, each with tent 0. */
  lemma ArrivalsOnDay(p: seq<Order>, k: nat)
    requires Pending(p) && k >= 1
    ensures Arrived(Aged(Advance(p, k - 1))) == Shift(Exactly(p, k), k)
  {
    var x := Above(p, k - 1);
    calc {
      Arrived(Aged(Advance(p, k - 1)));
      { AdvanceIs(p, k - 1); }
      AtMost(Shift(Shift(x, k - 1), 1), 0);
      { ShiftShift(x, k - 1, 1); }
      AtMost(Shift(x, k), 0);
      { AtMostShift(x, k, 0); }
      Shift(AtMost(x, k), k);
      { NextDue(p, k - 1); }
      Shift(Exactly(p, k), k);
    }
  }

  /** One day of a pipeline: the survivors are the orders whose tent exceeded
      1, in their order, each one lower; the arrivals are those whose tent was
      at most 1. */
  lemma OneDay(p: seq<Order>)
    ensures Waiting(Aged(p)) == Shift(Above(p, 1), 1)
    ensures Arrived(Aged(p)) == Shift(AtMost(p, 1), 1)
  {
    AboveShift(p, 1, 0);
    AtMostShift(p, 1, 0);
  }

  /** No order left after the removal loop has tent <= 0. */
  lemma WaitingIsPending(p: seq<Order>)
    ensures Pending(Waiting(p))
  {
    Partition(p, 0);
    var w := Waiting(p);
    forall i | 0 <= i < |w|
      ensures w[i].tent > 0
    {
      assert w[i] in w;
    }
  }

  /** The days of a pipeline split over its two halves. */
  lemma NextDayAppend(a: seq<Order>, b: seq<Order>)
    ensures NextDay(a + b) == NextDay(a) + NextDay(b)
    ensures Arrived(Aged(a + b)) == Arrived(Aged(a)) + Arrived(Aged(b))
  {
    ShiftAppend(a, b, 1);
    AboveAppend(Aged(a), Aged(b), 0);
    AtMostAppend(Aged(a), Aged(b), 0);
  }

  /** The orders a open the pipeline q, in their order. */
  predicate Leads(a: seq<Order>, q: seq<Order>)
  {
    a <= q
  }

  /** A day keeps the orders that lead a pipeline in the lead, both among
      those that wait and among those that arrive. */
  lemma PrefixDay(a: seq<Order>, q: seq<Order>)
    requires Leads(a, q)
    ensures Leads(NextDay(a), NextDay(q))
    ensures Leads(Arrived(Aged(a)), Arrived(Aged(q)))
  {
    var rest := q[|a|..];
    assert q == a + rest;
    NextDayAppend(a, rest);
  }

  /** Every pipeline leads itself. */
  lemma LeadsSelf(p: seq<Order>)
    ensures Leads(Advance(p, 0), p)
  {
    assert p[..|p|] == p;
  }

  /** Leading is transitive. */
  lemma LeadsTrans(a: seq<Order>, b: seq<Order>, c: seq<Order>)
    requires Leads(a, b) && Leads(b, c)
    ensures Leads(a, c)
  {
    assert c[..|b|][..|a|] == a;
  }

  /** For any succession of pipelines in which the orders of each pipeline,
      a day older, lead the next, the orders of pipeline d, left to themselves
      for j days, lead pipeline e = d + j. */
  lemma {:induction false} LeadsOn(pipes: nat -> seq<Order>, d: nat, j: nat, e: nat)
    requires forall n: nat :: Leads(NextDay(pipes(n)), pipes(n + 1))
    requires e == d + j
    ensures Leads(Advance(pipes(d), j), pipes(e))
  {
    if j > 0 {
      LeadsOn(pipes, d, j - 1, e - 1);
      var a := Advance(pipes(d), j - 1);
      var q := pipes(e - 1);
      PrefixDay(a, q);
      assert Leads(NextDay(q), pipes(e - 1 + 1));
      LeadsTrans(NextDay(a), NextDay(q), pipes(e));
    } else {
      LeadsSelf(pipes(d));
    }
  }

  // ---------------------------------------------------------------------------
  // Bounds on quantities and lead times

  /** Every order carries more than 0 and at most cap units and is due in lo
      to hi days. */
  predicate Bounded(p: seq<Order>, cap: real, lo: int, hi: int)
  {
    forall i :: 0 <= i < |p| ==> 0.0 < p[i].q <= cap && lo <= p[i].tent <= hi
  }

  lemma BoundedAppend(a: seq<Order>, b: seq<Order>, cap: real, lo: int, hi: int)
    requires Bounded(a, cap, lo, hi) && Bounded(b, cap, lo, hi)
    ensures Bounded(a + b, cap, lo, hi)
  {
    forall i | 0 <= i < |a + b|
      ensures 0.0 < (a + b)[i].q <= cap && lo <= (a + b)[i].tent <= hi
    {
      if i >= |a| {
        assert (a + b)[i] == b[i - |a|];
      }
    }
  }

  /** Shifting by k shifts the lead-time bounds by k. */
  lemma ShiftBounded(p: seq<Order>, cap: real, lo: int, hi: int, k: int)
    requires Bounded(p, cap, lo, hi)
    ensures Bounded(Shift(p, k), cap, lo - k, hi - k)
  {
    forall i | 0 <= i < |p|
      ensures 0.0 < Shift(p, k)[i].q <= cap && lo - k <= Shift(p, k)[i].tent <= hi - k
    {
      ShiftAt(p, k, i);
    }
  }

  /** The orders above k are due in k + 1 days or later. */
  lemma {:induction false} AboveBounded(p: seq<Order>, cap: real, lo: int, hi: int, k: int)
    requires Bounded(p, cap, lo, hi)
    ensures Bounded(Above(p, k), cap, k + 1, hi)
  {
    if p != [] {
      AboveBounded(p[1..], cap, lo, hi, k);
      BoundedAppend(if p[0].tent > k then [p[0]] else [], Above(p[1..], k), cap, k + 1, hi);
    }
  }

  /** The orders at most k are due in k days or earlier. */
  lemma {:induction false} AtMostBounded(p: seq<Order>, cap: real, lo: int, hi: int, k: int)
    requires Bounded(p, cap, lo, hi)
    ensures Bounded(AtMost(p, k), cap, lo, k)
  {
    if p != [] {
      AtMostBounded(p[1..], cap, lo, hi, k);
      BoundedAppend(if p[0].tent <= k then [p[0]] else [], AtMost(p[1..], k), cap, lo, k);
    }
  }

  /** Over one day, orders due in 1 to hi days are due in 1 to hi - 1 days, and
      those that arrive keep their positive quantities. */
  lemma DayBounded(p: seq<Order>, cap: real, hi: int)
    requires Bounded(p, cap, 1, hi)
    ensures Bounded(NextDay(p), cap, 1, hi - 1)
    ensures Bounded(Arrived(Aged(p)), cap, 0, 0)
  {
    ShiftBounded(p, cap, 1, hi, 1);
    AboveBounded(Aged(p), cap, 0, hi - 1, 0);
    AtMostBounded(Aged(p), cap, 0, hi - 1, 0);
  }
}
