/** The seeded pseudo-random number generator (mulberry32), the coercion of a
    user-supplied seed into a generator, and the derivation of one independent
    stream per replica from a single base seed.

    A generator is seen two ways here: as the class Mulberry32, whose Next
    advances a 32-bit state exactly as the closure returned by `mulberry32`
    does, and as its whole sequence of draws, SeededDraws(seed), a function from
    the call index to the value returned. The samplers and simulators read draws
    from such a sequence through an explicit cursor. */
module Rng {
  import opened Numbers

  const TwoTo32: int := 0x1_0000_0000

  /** An unsigned 32-bit integer, the result of `>>> 0`. */
  type Uint32 = x: int | 0 <= x < 0x1_0000_0000

  /** The additive step of the generator state. */
  const Increment: Uint32 := 0x6D2B79F5

  /** The largest value a draw can take: (2^32 - 1) / 2^32. */
  const LargestDraw: real := 4294967295.0 / 4294967296.0

  /** The multiplier that spreads replica seeds apart. */
  const ReplicaStride: int := 1000003

  /** The avalanche steps that turn the advanced state into the 32-bit output
      word, on 32-bit words: `Math.imul` is multiplication modulo 2^32, `>>>` a
      logical shift, and `^` reduces the sum `t + Math.imul(...)` modulo 2^32. */
  function MixWord(t: bv32): bv32
  {
    var a := (t ^ (t >> 15)) * (t | 1);
    var b := a ^ (a + (a ^ (a >> 7)) * (a | 61));
    b ^ (b >> 14)
  }

  /** The output word of the state, as the unsigned integer `(...) >>> 0`. */
  function Mix(state: Uint32): Uint32
  {
    MixWord(state as bv32) as int
  }

  /** The value a call returns once the state has become `state`: the output
      word divided by 2^32, so a multiple of 2^-32 in [0, 1). */
  function Draw(state: Uint32): (u: real)
    ensures u * 4294967296.0 == Mix(state) as real
    ensures 0.0 <= u <= LargestDraw < 1.0
  {
    Mix(state) as real / 4294967296.0
  }

  /** Known values of seed 42: the first call returns 2581720956 / 2^32, the
      second 1925393290 / 2^32. */
  lemma SeedFortyTwo()
    ensures StateAfter(42, 1) == 1831565855 && Mix(1831565855) == 2581720956
    ensures StateAfter(42, 2) == 3663131668 && Mix(3663131668) == 1925393290
  {
  }

  /** The state after n calls on a generator seeded with `seed`: each call
      adds Increment modulo 2^32. */
  function StateAfter(seed: Uint32, n: nat): Uint32
  {
    if n == 0 then seed else (StateAfter(seed, n - 1) + Increment) % TwoTo32
  }

  /** A stream of draws: the value of the i-th call, counting from 0. */
  type Draws = nat -> real

  /** Every draw is a value a mulberry32 generator can return. */
  ghost predicate IsStream(u: Draws)
  {
    forall i: nat :: 0.0 <= u(i) <= LargestDraw
  }

  /** All the draws of a generator seeded with `seed`. */
  function SeededDraws(seed: Uint32): (u: Draws)
    ensures IsStream(u)
  {
    (i: nat) => Draw(StateAfter(seed, i + 1))
  }

  /** The generator returned by `mulberry32(seed)`; `state` is the captured
      `seed` variable that every call advances. */
  class Mulberry32 {
    var state: Uint32
    ghost const seed: Uint32
    ghost var calls: nat

    ghost predicate Valid()
      reads this
    {
      state == StateAfter(seed, calls)
    }

    constructor (s: Uint32)
      ensures Valid() && seed == s && calls == 0 && state == s
    {
      state := s;
      seed := s;
      calls := 0;
    }

    /** One call of the generator. */
    method Next() returns (u: real)
      requires Valid()
      modifies this
      ensures Valid() && calls == old(calls) + 1
      ensures state == (old(state) + Increment) % TwoTo32
      ensures u == Draw(state)
      ensures u == SeededDraws(seed)(old(calls))
    {
      state := (state + Increment) % TwoTo32;
      calls := calls + 1;
      u := Draw(state);
    }
  }

  /** The first n values of a fresh generator: they depend on the seed alone. */
  method Replay(seed: Uint32, n: nat) returns (draws: seq<real>)
    ensures |draws| == n
    ensures forall i :: 0 <= i < n ==> draws[i] == SeededDraws(seed)(i)
  {
    var g := new Mulberry32(seed);
    draws := [];
    while |draws| < n
      invariant g.Valid() && g.seed == seed && g.calls == |draws| <= n
      invariant forall i :: 0 <= i < |draws| ==> draws[i] == SeededDraws(seed)(i)
    {
      var x := g.Next();
      draws := draws + [x];
    }
  }

  /** Two generators built from one seed and called alternately return the same
      values: each owns its state, so neither disturbs the other. */
  method TwoGenerators(seed: Uint32, n: nat) returns (xs: seq<real>, ys: seq<real>)
    ensures |xs| == |ys| == n
    ensures xs == ys
  {
    var g := new Mulberry32(seed);
    var h := new Mulberry32(seed);
    xs, ys := [], [];
    while |xs| < n
      invariant g != h
      invariant g.Valid() && h.Valid() && g.seed == h.seed
      invariant g.calls == h.calls == |xs| == |ys| <= n
      invariant xs == ys
    {
      var x := g.Next();
      var y := h.Next();
      xs, ys := xs + [x], ys + [y];
    }
  }

  // ---------------------------------------------------------------------------
  // Seed values and their coercion

  /** The values a seed can take: the text of the seed field, a clock reading,
      or nothing. */
  datatype JsValue = Undefined | Null | JsNum(n: Num) | JsStr(s: string)

  /** Truncation toward zero. */
  function Trunc(x: real): (t: int)
    ensures 0.0 <= x ==> 0 <= t && t as real <= x < t as real + 1.0
    ensures x < 0.0 ==> t <= 0 && t as real - 1.0 < x <= t as real
  {
    if x >= 0.0 then x.Floor else -((-x).Floor)
  }

  /** `x >>> 0`: NaN becomes 0; otherwise truncate toward zero and reduce
      modulo 2^32. */
  function ToUint32(n: Num): (w: Uint32)
    ensures n == NaN ==> w == 0
    ensures n.Fin? ==> (Trunc(n.val) - w) % TwoTo32 == 0
  {
    match n
    case NaN => 0
    case Fin(x) => Trunc(x) % TwoTo32
  }

  /** `c.charCodeAt(0)` for one element of `Array.from(text)`: a code point
      beyond U+FFFF yields its leading (high) surrogate. */
  function CharCode(c: char): (code: nat)
    ensures code < 0x10000
    ensures (c as int) < 0x10000 ==> code == c as int
    ensures (c as int) >= 0x10000 ==> 0xD800 <= code < 0xDC00
  {
    if (c as int) < 0x10000 then c as int else 0xD800 + ((c as int) - 0x10000) / 0x400
  }

  /** The `reduce` that sums the character codes of a seed text, left to right. */
  function CharCodeSum(s: string): nat
  {
    if |s| == 0 then 0 else CharCodeSum(s[..|s| - 1]) + CharCode(s[|s| - 1])
  }

  /** What `makeRng` returns: `Math.random` itself, or a seeded mulberry32. */
  datatype Generator = MathRandom | Seeded(seed: Uint32)

  /** `makeRng(seed)`: an empty seed gives the non-reproducible source, a
      number is used modulo 2^32, any other text is replaced by the sum of its
      character codes. */
  function MakeRng(seed: JsValue): (g: Generator)
    ensures g == MathRandom <==> seed == Undefined || seed == Null || seed == JsStr("")
    ensures seed.JsNum? ==> g == Seeded(ToUint32(seed.n))
    ensures seed.JsStr? && seed.s != "" ==> g.Seeded? && g.seed == CharCodeSum(seed.s) % TwoTo32
  {
    match seed
    case Undefined => MathRandom
    case Null => MathRandom
    case JsNum(n) => Seeded(ToUint32(n))
    case JsStr(s) => if s == "" then MathRandom else Seeded(ToUint32(Fin(CharCodeSum(s) as real)))
  }

  lemma {:induction false} CharCodeSumAppend(a: string, b: string)
    ensures CharCodeSum(a + b) == CharCodeSum(a) + CharCodeSum(b)
    decreases |b|
  {
    if |b| > 0 {
      var n := |b| - 1;
      assert (a + b)[..|a + b| - 1] == a + b[..n];
      CharCodeSumAppend(a, b[..n]);
    } else {
      assert a + b == a;
    }
  }

  /** A text seed is the numeric seed equal to its character-code sum. */
  lemma TextSeedIsCodeSum(s: string)
    requires s != ""
    ensures MakeRng(JsStr(s)) == MakeRng(JsNum(Fin(CharCodeSum(s) as real)))
  {
  }

  /** Only the characters of a text seed matter, not their order: "ab" and "ba"
      seed the same generator. */
  lemma {:induction false} TextSeedIgnoresOrder(a: string, b: string)
    ensures MakeRng(JsStr(a + b)) == MakeRng(JsStr(b + a))
  {
    CharCodeSumAppend(a, b);
    CharCodeSumAppend(b, a);
    assert a + b == "" <==> b + a == "";
  }

  /** Numeric seeds that differ by a multiple of 2^32 give the same generator. */
  lemma {:induction false} NumericSeedWraps(x: int, m: int)
    ensures MakeRng(JsNum(Fin(x as real))) == MakeRng(JsNum(Fin((x + m * TwoTo32) as real)))
  {
    assert Trunc(x as real) == x;
    assert Trunc((x + m * TwoTo32) as real) == x + m * TwoTo32;
    assert (x + m * TwoTo32) % TwoTo32 == x % TwoTo32;
  }

  // ---------------------------------------------------------------------------
  // `Number(text)`: the part of the string-to-number conversion a seed uses

  predicate IsSpace(c: char)
  {
    var n := c as int;
    n == 0x9 || n == 0xA || n == 0xB || n == 0xC || n == 0xD || n == 0x20 || n == 0xA0
    || n == 0x1680 || (0x2000 <= n <= 0x200A) || n == 0x2028 || n == 0x2029
    || n == 0x202F || n == 0x205F || n == 0x3000 || n == 0xFEFF
  }

  predicate IsDigit(c: char)
  {
    '0' <= c <= '9'
  }

  predicate AllDigits(s: string)
  {
    forall i :: 0 <= i < |s| ==> IsDigit(s[i])
  }

  function TrimStart(s: string): (t: string)
    ensures |t| <= |s| && t == s[|s| - |t|..]
  {
    if s != [] && IsSpace(s[0]) then TrimStart(s[1..]) else s
  }

  function TrimEnd(s: string): (t: string)
    ensures |t| <= |s| && t == s[..|t|]
  {
    if s != [] && IsSpace(s[|s| - 1]) then TrimEnd(s[..|s| - 1]) else s
  }

  function DigitsValue(s: string): nat
    requires AllDigits(s)
  {
    if s == [] then 0 else DigitsValue(s[..|s| - 1]) * 10 + (s[|s| - 1] as int - '0' as int)
  }

  function Pow10(n: nat): (p: nat)
    ensures p >= 1
  {
    if n == 0 then 1 else 10 * Pow10(n - 1)
  }

  function IndexOfDot(t: string): (k: nat)
    ensures k <= |t|
    ensures k < |t| ==> t[k] == '.'
    ensures forall j :: 0 <= j < k ==> t[j] != '.'
  {
    if t == [] || t[0] == '.' then 0 else 1 + IndexOfDot(t[1..])
  }

  /** An unsigned decimal literal `digits[.digits]` with at least one digit. */
  function DecimalLiteral(t: string): Num
  {
    var k := IndexOfDot(t);
    var whole := t[..k];
    var frac := if k < |t| then t[k + 1..] else t[|t|..];
    if AllDigits(whole) && AllDigits(frac) && (whole != "" || frac != "") then
      Fin(DigitsValue(whole) as real + DigitsValue(frac) as real / Pow10(|frac|) as real)
    else
      NaN
  }

  function Negate(n: Num): Num
  {
    match n
    case NaN => NaN
    case Fin(x) => Fin(-x)
  }

  /** `Number(text)` for decimal text: surrounding white space is ignored,
      blank text is 0, anything that is not a signed decimal literal is NaN. */
  function StringToNumber(s: string): Num
  {
    var t := TrimEnd(TrimStart(s));
    if t == "" then Fin(0.0)
    else if t[0] == '-' then Negate(DecimalLiteral(t[1..]))
    else if t[0] == '+' then DecimalLiteral(t[1..])
    else DecimalLiteral(t)
  }

  /** `Number(v)`. */
  function ToNumber(v: JsValue): Num
  {
    match v
    case Undefined => NaN
    case Null => Fin(0.0)
    case JsNum(n) => n
    case JsStr(s) => StringToNumber(s)
  }

  /** A character that can appear in a numeric text. */
  predicate IsNumeral(c: char)
  {
    IsDigit(c) || c == '.' || c == '+' || c == '-' || IsSpace(c)
  }

  lemma {:induction false} TrimKeeps(s: string, c: char)
    requires c in s && !IsSpace(c)
    ensures c in TrimStart(s) && c in TrimEnd(s)
    decreases |s|
  {
    if s != [] && IsSpace(s[0]) {
      assert c in s[1..];
      TrimKeeps(s[1..], c);
    }
    if s != [] && IsSpace(s[|s| - 1]) {
      assert c in s[..|s| - 1];
      TrimKeeps(s[..|s| - 1], c);
    }
  }

  lemma DecimalLiteralRejects(t: string, c: char)
    requires c in t && !IsDigit(c) && c != '.'
    ensures DecimalLiteral(t) == NaN
  {
    var k := IndexOfDot(t);
    var i :| 0 <= i < |t| && t[i] == c;
    if i < k {
      assert !AllDigits(t[..k]) by { assert t[..k][i] == c; }
    } else {
      assert i != k;
      assert !AllDigits(t[k + 1..]) by { assert t[k + 1..][i - k - 1] == c; }
    }
  }

  /** A text with any character that cannot occur in a number is NaN. */
  lemma StrayCharacterIsNaN(s: string, i: nat)
    requires i < |s| && !IsNumeral(s[i])
    ensures ToNumber(JsStr(s)) == NaN
  {
    var c := s[i];
    TrimKeeps(s, c);
    TrimKeeps(TrimStart(s), c);
    var t := TrimEnd(TrimStart(s));
    assert c in t;
    if t[0] == '-' || t[0] == '+' {
      assert c in t[1..];
      DecimalLiteralRejects(t[1..], c);
    } else {
      DecimalLiteralRejects(t, c);
    }
  }

  // ---------------------------------------------------------------------------
  // Replica streams

  /** `Number(base) || 0`: NaN (and zero) become 0. */
  function BaseValue(base: JsValue): real
  {
    match ToNumber(base)
    case NaN => 0.0
    case Fin(x) => x
  }

  /** `seedForReplica(base, k)`: (b + k * 1000003) >>> 0. */
  function SeedForReplica(base: JsValue, k: int): Uint32
  {
    SeedFrom(BaseValue(base), k)
  }

  /** The seed of replica k over the base number b. */
  function SeedFrom(b: real, k: int): Uint32
  {
    ToUint32(Fin(b + (k * ReplicaStride) as real))
  }

  /** The base seed of a run: the seed text, or the clock reading when the text
      is empty (`seed || Date.now()`). */
  function BaseSeed(seedText: string, now: int): (base: JsValue)
    ensures seedText != "" ==> base == JsStr(seedText)
  {
    if seedText == "" then JsNum(Fin(now as real)) else JsStr(seedText)
  }

  /** `rngForReplica(base)`: replica k gets `makeRng(seedForReplica(base, k))`. */
  function RngForReplica(base: JsValue): int -> Generator
  {
    k => MakeRng(JsNum(Fin(SeedForReplica(base, k) as real)))
  }

  /** The draws of replica k over the base number b = `Number(base) || 0`. */
  function ReplicaDraws(b: real, k: int): (u: Draws)
    ensures IsStream(u)
  {
    SeededDraws(SeedFrom(b, k))
  }

  /** For a whole base number b, the replica seed is (b + k * 1000003) mod 2^32. */
  lemma ReplicaSeedValue(b: real, k: int)
    requires b == b.Floor as real
    ensures SeedFrom(b, k) == (b.Floor + k * ReplicaStride) % TwoTo32
  {
    var n := b.Floor + k * ReplicaStride;
    assert b + (k * ReplicaStride) as real == n as real;
    WholeToUint32(n);
  }

  /** A whole number converts to its residue modulo 2^32. */
  lemma WholeToUint32(n: int)
    ensures ToUint32(Fin(n as real)) == n % TwoTo32
  {
    assert Trunc(n as real) == n;
  }

  /** Every replica stream is a seeded mulberry32 with the replica's seed, never
      the non-reproducible source: its argument is always a number. */
  lemma ReplicaIsSeeded(base: JsValue, k: int)
    ensures RngForReplica(base)(k) == Seeded(SeedForReplica(base, k))
  {
    WordSeed(SeedForReplica(base, k));
  }

  /** A 32-bit word as a numeric seed seeds mulberry32 with itself. */
  lemma WordSeed(w: Uint32)
    ensures MakeRng(JsNum(Fin(w as real))) == Seeded(w)
  {
    WholeToUint32(w);
  }

  /** A base whose text is not a number counts as base 0. */
  lemma NonNumericBaseIsZero(s: string, i: nat)
    requires i < |s| && !IsNumeral(s[i])
    ensures BaseValue(JsStr(s)) == 0.0
  {
    StrayCharacterIsNaN(s, i);
  }

  /** 1000003 * 2021759595 == 1 + 470729 * 2^32: the stride is invertible modulo 2^32. */
  const StrideInverse: int := 2021759595

  lemma StrideIsInvertible()
    ensures ReplicaStride * StrideInverse == 1 + 470729 * TwoTo32
  {
  }

  /** For a whole base number, replica indices less than 2^32 apart get
      distinct seeds, because the stride is odd. */
  lemma DistinctReplicaSeeds(b: real, k1: int, k2: int)
    requires b == b.Floor as real
    requires k1 != k2 && -TwoTo32 < k1 - k2 < TwoTo32
    ensures SeedFrom(b, k1) != SeedFrom(b, k2)
  {
    ReplicaSeedValue(b, k1);
    ReplicaSeedValue(b, k2);
    var x1, x2 := b.Floor + k1 * ReplicaStride, b.Floor + k2 * ReplicaStride;
    assert x1 - x2 == (k1 - k2) * ReplicaStride;
    ResiduesDiffer(x1, x2, k1 - k2);
  }

  /** A fractional base breaks DistinctReplicaSeeds: with b = -1000003.5 the
      truncation toward zero sends replicas 1 and 1 + 2021759595 to seed 0. */
  lemma FractionalBaseCollides()
    ensures SeedFrom(-1000003.5, 1) == 0
    ensures SeedFrom(-1000003.5, 1 + StrideInverse) == 0
  {
    assert -1000003.5 + (1 * ReplicaStride) as real == -0.5;
    assert -1000003.5 + ((1 + StrideInverse) * ReplicaStride) as real == 470729.0 * 4294967296.0 + 0.5;
    assert Trunc(470729.0 * 4294967296.0 + 0.5) == 470729 * TwoTo32;
  }

  lemma ResiduesDiffer(x1: int, x2: int, d: int)
    requires x1 - x2 == d * ReplicaStride
    requires d != 0 && -TwoTo32 < d < TwoTo32
    ensures x1 % TwoTo32 != x2 % TwoTo32
  {
    if x1 % TwoTo32 == x2 % TwoTo32 {
      var m := x1 / TwoTo32 - x2 / TwoTo32;
      SameResidue(x1, x2);
      StrideCancels(d, m);
      MultipleOfModulus(d, m * StrideInverse - d * 470729);
    }
  }

  lemma SameResidue(x1: int, x2: int)
    requires x1 % TwoTo32 == x2 % TwoTo32
    ensures x1 - x2 == (x1 / TwoTo32 - x2 / TwoTo32) * TwoTo32
  {
  }

  lemma StrideCancels(d: int, m: int)
    requires d * ReplicaStride == m * TwoTo32
    ensures d == (m * StrideInverse - d * 470729) * TwoTo32
  {
    calc {
      d;
      d * (ReplicaStride * StrideInverse) - d * 470729 * TwoTo32;
      (d * ReplicaStride) * StrideInverse - d * 470729 * TwoTo32;
      (m * TwoTo32) * StrideInverse - d * 470729 * TwoTo32;
      (m * StrideInverse - d * 470729) * TwoTo32;
    }
  }

  lemma MultipleOfModulus(d: int, q: int)
    requires d == q * TwoTo32 && -TwoTo32 < d < TwoTo32
    ensures d == 0
  {
  }
}
