# Monte Carlo simulation engine of simulacion_diagramas, in Dafny

This project models the computational core of the `simulacion_diagramas` web
application:
- a seeded pseudo-random generator with its samplers;
- six scenario simulators;
- a rule-based form validator.

It proves properties of that model.

- `rng.dfy` (module `Rng`) models the seeded generator, `utils/rng.js`:
  - mulberry32 is a class whose `Next` advances a 32-bit state. Its whole output is also a stream of draws, `SeededDraws(seed)`.
  - It models the coercion of a seed into a generator (`makeRng`) and the derivation of one seed per replica (`seedForReplica`, `rngForReplica`).
  - It includes the part of JavaScript's `Number()` that the replica base goes through.
- `samplers.dfy` (`Samplers`) models `sampleCategorical` and Knuth's Poisson sampler.
  - Each reads a stream of draws from a cursor and returns the cursor after the draws it used.
  - The sampler's loop terminates because no mulberry32 draw exceeds (2^32 - 1) / 2^32.
- `dice.dfy`, `hen.dfy`, `store.dfy` (`Dice`, `Hen`, `Store`) model the dice game, the hen farm and the store.
  - Each has its game, day or hour loops as methods, proved against recursive specification functions.
  - Each replica loop builds one row per replica and the averages card.
- `interest_fixed.dfy` and `interest_variable.dfy` (`InterestFixed`, `InterestVariable`) model compound interest. The rate is either fixed, or chosen once by the tier rule `tramo`.
- `pipeline.dfy` and `inventory.dfy` (`Pipeline`, `Inventory`) model the inventory simulator `simulateOne`.
  - Each day ages the order pipeline and admits arrivals up to capacity.
  - It then serves the demand, charges holding, and on review days 1, 8, 15 and 22 orders the shortfall with a lead time of 1 to 3 days.
  - The day loop is a method proved against a function `Days` of the draw stream. Its accounts are shown to be prices times physical totals.
  - Its invariant (stock in [0, cap], orders due in 1 to 3 days) and the lead-time rule are proved over all days.
- `validators.dfy` (`Validators`) models the atomic rules, `validate` and `zeros`.
- `numbers.dfy` (`Numbers`) holds what the scenarios share:
  - JavaScript numbers as exact reals or NaN;
  - the iteration counts of `for` loops with a real bound;
  - running sums and averages;
  - the list of replica rows.

Two properties hold only for whole numbers. The code is modelled as written in both cases:
- **Games.** `Dice.PercentInRange` needs a whole njuegos. With njuegos = 2.5 the loop `j < njuegos` plays three games, so PJUEC can reach 120 % (`Dice.FractionalGamesOverflow`).
- **Replica seeds.** `Rng.DistinctReplicaSeeds` needs a whole base. With a fractional base, truncation toward zero lets seeds collide: for b = -1000003.5, replicas 1 and 1 + 2021759595 both get seed 0 (`Rng.FractionalBaseCollides`).

Two behaviours of the code are kept as written:
- **Service level with no demand.** When no demand arose (sold + unmet = 0), the inventory service level is 0, not 1. The expression replaces a zero denominator by 1 and divides 0 by it (`Inventory.ServiceShare`).
- **Text bases.** The replica base goes through `Number(base) || 0`. Every seed text that is not a number therefore gives the streams of base 0 (`Rng.NonNumericBaseIsZero`). The character-code path of `makeRng` is only reachable by calling it directly (`Rng.TextSeedIsCodeSum`).

## Model

| member | source | states |
|---|---|---|
| Numbers.Below | simulacion_diagramas/src/modules/ModDice.jsx:27 | `for (j = 0; j < n; j++)` runs the number of integers in [0, n): none for n <= 0, else the least count c with n <= c |
| Numbers.UpTo | simulacion_diagramas/src/modules/ModDice.jsx:24 | `for (s = 1; s <= n; s++)` runs floor(n) times for n >= 1, none below 1 |
| Numbers.BelowGuard | simulacion_diagramas/src/modules/ModDice.jsx:27 | after j passes, the guard `j < n` holds exactly when more passes remain |
| Numbers.UpToGuard | simulacion_diagramas/src/modules/ModDice.jsx:24 | after s - 1 passes, the guard `s <= n` holds exactly when more passes remain |
| Numbers.WholeCount | simulacion_diagramas/src/modules/ModDice.jsx:24-27 | with a whole bound k both loop forms run exactly k times |
| Numbers.Div | simulacion_diagramas/src/modules/ModHen.jsx:43 | a quotient whose only zero divisor is 0/0 is NaN exactly when the divisor is 0 |
| Numbers.DivTimes | simulacion_diagramas/src/modules/ModHen.jsx:43 | a finite quotient times the divisor gives back the dividend |
| Numbers.ScaleTwice | simulacion_diagramas/src/modules/ModDice.jsx:33 | scaling by a and then by b is scaling by a * b, and the result is NaN exactly when the input is |
| Numbers.SumNumFinite | simulacion_diagramas/src/modules/ModHen.jsx:45 | NaN absorbs across a run: the running sum is finite exactly when every row's field is finite |
| Numbers.Mean | simulacion_diagramas/src/modules/ModDice.jsx:39 | an average `sum / nsim` is NaN exactly when nsim is 0 |
| Numbers.MeanNum | simulacion_diagramas/src/modules/ModHen.jsx:49 | an average of a possibly-NaN sum is finite exactly when the sum is finite and nsim is not 0 |
| Numbers.SumAppend | simulacion_diagramas/src/modules/ModDice.jsx:35 | one more row adds its field to the running sum |
| Numbers.SumNumAppend | simulacion_diagramas/src/modules/ModHen.jsx:45 | the same for a field that may be NaN |
| Numbers.Runs | simulacion_diagramas/src/modules/ModDice.jsx:24-34 | the row list of replicas 1 .. n has n rows |
| Numbers.RunsAt | simulacion_diagramas/src/modules/ModDice.jsx:24-34 | row i of the list is the row of replica i + 1 |
| Numbers.TimesIs | simulacion_diagramas/src/modules/ModDice.jsx:30-31 | adding x n times gives n * x |
| Numbers.SumBounds | simulacion_diagramas/src/modules/ModDice.jsx:35 | a sum of rows each within [lo, hi] lies within [n lo, n hi] |
| Numbers.MeanWithin | simulacion_diagramas/src/modules/ModDice.jsx:39 | the average of a non-empty run lies within the bounds every row keeps |
| Numbers.MeanNumWithin | simulacion_diagramas/src/modules/ModDice.jsx:39 | the same for a possibly-NaN field: with no NaN row the average is finite and within bounds |
| Rng.SeedFortyTwo | simulacion_diagramas/src/utils/rng.js:2-7 | seed 42 advances to states 1831565855 and 3663131668, whose output words are 2581720956 and 1925393290 |
| Rng.Draw | simulacion_diagramas/src/utils/rng.js:7 | a draw is the 32-bit output word divided by 2^32, so it lies in [0, (2^32 - 1)/2^32] |
| Rng.SeededDraws | simulacion_diagramas/src/utils/rng.js:2-8 | every value of a seeded generator is a possible mulberry32 draw |
| Rng.Mulberry32.constructor | simulacion_diagramas/src/utils/rng.js:2-3 | a new generator holds its seed as state and has made no call |
| Rng.Mulberry32.Next | simulacion_diagramas/src/utils/rng.js:3-7 | each call adds 0x6D2B79F5 to the state modulo 2^32 and returns the draw of the new state, which is value number `calls` of the seed's stream |
| Rng.Replay | simulacion_diagramas/src/utils/rng.js:2-8 | the first n values of a fresh generator are the first n values of its seed's stream, whatever else happens |
| Rng.TwoGenerators | simulacion_diagramas/src/utils/rng.js:2-8 | two generators from one seed, called alternately, return identical sequences |
| Rng.Trunc | simulacion_diagramas/src/utils/rng.js:22 | the truncation that `>>> 0` applies first rounds toward zero: t <= x < t + 1 for x >= 0 and t - 1 < x <= t for x < 0 |
| Rng.ToUint32 | simulacion_diagramas/src/utils/rng.js:22 | `x >>> 0` maps NaN to 0 and a finite x to the 32-bit residue of its truncation |
| Rng.CharCode | simulacion_diagramas/src/utils/rng.js:15 | `charCodeAt(0)` of a character is its code below U+10000 and its high surrogate above |
| Rng.MakeRng | simulacion_diagramas/src/utils/rng.js:11-17 | empty text, null and undefined (and only they) give `Math.random`; a number seeds mulberry32 with its 32-bit residue; other text with its code sum modulo 2^32 |
| Rng.CharCodeSumAppend | simulacion_diagramas/src/utils/rng.js:15 | the code sum of a concatenation is the sum of the code sums |
| Rng.TextSeedIsCodeSum | simulacion_diagramas/src/utils/rng.js:13-16 | a non-empty text seed gives the generator of the number equal to its code sum |
| Rng.TextSeedIgnoresOrder | simulacion_diagramas/src/utils/rng.js:15 | swapping the two halves of a text seed gives the same generator |
| Rng.NumericSeedWraps | simulacion_diagramas/src/utils/rng.js:16 | numeric seeds that differ by a multiple of 2^32 give the same generator |
| Rng.StrayCharacterIsNaN | simulacion_diagramas/src/utils/rng.js:21 | `Number(text)` is NaN when the text holds a character that no number contains |
| Rng.NonNumericBaseIsZero | simulacion_diagramas/src/utils/rng.js:21 | such a text as replica base counts as base 0 |
| Rng.BaseSeed | simulacion_diagramas/src/modules/ModDice.jsx:19 | a non-empty seed text is the base; only the empty text falls back to the clock |
| Rng.ReplicaDraws | simulacion_diagramas/src/utils/rng.js:24-25 | every replica stream is a mulberry32 stream |
| Rng.ReplicaSeedValue | simulacion_diagramas/src/utils/rng.js:20-23 | for a whole base b, replica k is seeded with (b + 1000003 k) mod 2^32 |
| Rng.WholeToUint32 | simulacion_diagramas/src/utils/rng.js:22 | a whole number converts to its residue modulo 2^32 |
| Rng.ReplicaIsSeeded | simulacion_diagramas/src/utils/rng.js:24-26 | `rngForReplica(base)(k)` is always a seeded mulberry32 with the replica seed, never `Math.random` |
| Rng.WordSeed | simulacion_diagramas/src/utils/rng.js:13-16 | a 32-bit word used as numeric seed seeds mulberry32 with itself |
| Rng.StrideIsInvertible | simulacion_diagramas/src/utils/rng.js:22 | 1000003 has an inverse modulo 2^32 |
| Rng.DistinctReplicaSeeds | simulacion_diagramas/src/utils/rng.js:19-23 | for a whole base, replica indices fewer than 2^32 apart get distinct seeds |
| Rng.FractionalBaseCollides | simulacion_diagramas/src/utils/rng.js:19-23 | with the fractional base -1000003.5, replicas 1 and 1 + 2021759595 both get seed 0 |
| Samplers.FirstCovering | simulacion_diagramas/src/utils/rng.js:30-34 | the least index whose cumulative probability reaches x, or the length when none does |
| Samplers.FirstCoveringIs | simulacion_diagramas/src/utils/rng.js:30-34 | those two conditions determine the index uniquely |
| Samplers.Categorical | simulacion_diagramas/src/utils/rng.js:28-36 | there is a result exactly when there are values, and it is one of them |
| Samplers.SampleCategorical | simulacion_diagramas/src/utils/rng.js:28-36 | the cumulative walk consumes exactly one draw and returns the first covering value, else the last |
| Samplers.ProductBelowPower | simulacion_diagramas/src/utils/rng.js:43 | a product of n draws is at most ((2^32 - 1)/2^32)^n |
| Samplers.Bernoulli | simulacion_diagramas/src/utils/rng.js:41-45 | ((2^32 - 1)/2^32)^n (1 + n/2^32) <= 1, which bounds the loop |
| Samplers.PoissonSteps | simulacion_diagramas/src/utils/rng.js:41-45 | a product of k draws can stay above L > 0 only for k up to a bound depending on L |
| Samplers.PoissonFromIs | simulacion_diagramas/src/utils/rng.js:41-45 | the loop continued from k stops at the first n whose product of n + 1 draws is at most L |
| Samplers.PoissonCountIs | simulacion_diagramas/src/utils/rng.js:38-46 | the Poisson count n has every product of 1 .. n draws above L and the product of n + 1 draws at most L |
| Samplers.PoissonUnique | simulacion_diagramas/src/utils/rng.js:38-46 | those conditions determine the count uniquely |
| Samplers.SamplePoisson | simulacion_diagramas/src/utils/rng.js:38-46 | the loop returns the Poisson count n and consumes exactly n + 1 draws |
| Dice.Face | simulacion_diagramas/src/modules/ModDice.jsx:28-29 | `1 + floor(u * 6)` is a face 1 .. 6 and the interval of u it comes from |
| Dice.Wins | simulacion_diagramas/src/modules/ModDice.jsx:27-31 | the house wins at most as many games as were played |
| Dice.PlayGames | simulacion_diagramas/src/modules/ModDice.jsx:26-32 | the game loop uses two draws per game and returns the house wins and net gain of those games |
| Dice.NetGainIs | simulacion_diagramas/src/modules/ModDice.jsx:30-31 | GNETA = n costo - (n - NJUEC) pagoJugador |
| Dice.Percentage | simulacion_diagramas/src/modules/ModDice.jsx:33 | PJUEC is NaN exactly when no game was set |
| Dice.RunReplica | simulacion_diagramas/src/modules/ModDice.jsx:25-34 | one pass of the replica loop gives that replica's row |
| Dice.Rows | simulacion_diagramas/src/modules/ModDice.jsx:24-34 | one row per replica 1 .. nsim |
| Dice.Simulate | simulacion_diagramas/src/modules/ModDice.jsx:18-40 | the replica loop gives the rows of replicas 1 .. nsim on their own streams, and the averages of the summed fields |
| Dice.PercentNaN | simulacion_diagramas/src/modules/ModDice.jsx:33-34 | a row's percentage is NaN exactly when njuegos is 0, and the row carries its replica number |
| Dice.PercentInRange | simulacion_diagramas/src/modules/ModDice.jsx:27-33 | with k > 0 games, NJUEC <= k and PJUEC = 100 NJUEC / k lies in [0, 100] |
| Dice.FractionalGamesOverflow | simulacion_diagramas/src/modules/ModDice.jsx:27-33 | with njuegos = 2.5 three games are played, and three house wins give PJUEC = 120 |
| Dice.PercentageBounds | simulacion_diagramas/src/modules/ModDice.jsx:33 | 100 w / k lies in [0, 100] for w <= k |
| Dice.GainRange | simulacion_diagramas/src/modules/ModDice.jsx:30-31 | with pagoJugador >= 0, GNETA lies between n (costo - pagoJugador) and n costo |
| Dice.AveragesInRange | simulacion_diagramas/src/modules/ModDice.jsx:35-39 | the average NJUEC lies in [0, njuegos] and the average PJUEC in [0, 100] |
| Hen.RecordCounts | simulacion_diagramas/src/modules/ModHen.jsx:35-38 | an egg raises its own counter by one and leaves the other three unchanged, and costs its draws |
| Hen.Daily | simulacion_diagramas/src/modules/ModHen.jsx:32-33 | one Poisson count HPG per day |
| Hen.LaidIsDailySum | simulacion_diagramas/src/modules/ModHen.jsx:32-34 | the eggs laid over d days are the sum of the daily counts |
| Hen.LayCounts | simulacion_diagramas/src/modules/ModHen.jsx:34-38 | n eggs add n to the counters and consume 1 draw per broken egg, 2 per unhatched, 3 per hatched |
| Hen.DayCounts | simulacion_diagramas/src/modules/ModHen.jsx:32-39 | a day keeps the counters and cursor balanced and adds its count to the eggs laid |
| Hen.DaysCounts | simulacion_diagramas/src/modules/ModHen.jsx:32-39 | after d days THR + TPS + TPM + TH is the eggs laid, and the cursor is one Poisson draw per day plus the eggs' draws |
| Hen.NoDays | simulacion_diagramas/src/modules/ModHen.jsx:32 | before any day nothing is counted or read |
| Hen.AllBroken | simulacion_diagramas/src/modules/ModHen.jsx:35 | with pRoto >= 1 every egg is broken |
| Hen.NoneBroken | simulacion_diagramas/src/modules/ModHen.jsx:35 | with pRoto <= 0 no egg is broken |
| Hen.DayAllBroken | simulacion_diagramas/src/modules/ModHen.jsx:32-35 | with pRoto >= 1 a day keeps every egg laid broken |
| Hen.DaysAllBroken | simulacion_diagramas/src/modules/ModHen.jsx:32-38 | with pRoto >= 1, THR is every egg laid and TPS = TPM = TH = 0 |
| Hen.DayNoneBroken | simulacion_diagramas/src/modules/ModHen.jsx:32-35 | with pRoto <= 0 a day breaks no egg |
| Hen.DaysNoneBroken | simulacion_diagramas/src/modules/ModHen.jsx:32-35 | with pRoto <= 0, THR stays 0 |
| Hen.PerDay | simulacion_diagramas/src/modules/ModHen.jsx:43 | IBPD is NaN exactly when dias is 0 |
| Hen.LayEggs | simulacion_diagramas/src/modules/ModHen.jsx:34-39 | the egg loop classifies HPG eggs from the cursor on, as the egg specification does |
| Hen.EggsAccounted | simulacion_diagramas/src/modules/ModHen.jsx:32-39 | THR + TPS + TPM + TH equals the sum of the daily Poisson counts |
| Hen.NoDaysNoIncome | simulacion_diagramas/src/modules/ModHen.jsx:42-43 | with dias <= 0, IB is 0 and IBPD is NaN exactly when dias is 0 |
| Hen.IncomePerDay | simulacion_diagramas/src/modules/ModHen.jsx:42-43 | with dias not 0, IBPD times dias gives back IB |
| Hen.IncomeBound | simulacion_diagramas/src/modules/ModHen.jsx:42 | with non-negative prices, 0 <= IB <= eggs counted times the higher price |
| Hen.FarmDays | simulacion_diagramas/src/modules/ModHen.jsx:30-40 | the day loop gives the counters of the replica's run |
| Hen.RunReplica | simulacion_diagramas/src/modules/ModHen.jsx:29-44 | one pass of the replica loop gives that replica's row |
| Hen.Rows | simulacion_diagramas/src/modules/ModHen.jsx:28-44 | one row per replica 1 .. nsim |
| Hen.AppendRow | simulacion_diagramas/src/modules/ModHen.jsx:45 | one more row adds its fields to each of the six sums |
| Hen.NoRows | simulacion_diagramas/src/modules/ModHen.jsx:26 | the six sums start at 0 |
| Hen.AddReplica | simulacion_diagramas/src/modules/ModHen.jsx:28-46 | one pass appends replica k's row and keeps the six sums equal to the sums of the rows |
| Hen.Replicas | simulacion_diagramas/src/modules/ModHen.jsx:26-46 | the replica loop gives the rows of replicas 1 .. nsim and their six sums |
| Hen.Simulate | simulacion_diagramas/src/modules/ModHen.jsx:22-50 | the rows of replicas 1 .. nsim and each average as its sum over nsim |
| Store.Groups | simulacion_diagramas/src/modules/ModStore.jsx:28 | `floor(u * 5)` is a group count 0 .. 4 |
| Store.Quantity | simulacion_diagramas/src/modules/ModStore.jsx:30 | a group buys 0 .. 3 articles |
| Store.CategoricalIsQuantity | simulacion_diagramas/src/modules/ModStore.jsx:30 | the categorical sample over [0, 1, 2, 3] with [0.2, 0.3, 0.4, 0.1] is that quantity for every draw |
| Store.GroupSalesBound | simulacion_diagramas/src/modules/ModStore.jsx:29-32 | n groups buy at most 3 n articles |
| Store.HoursCounts | simulacion_diagramas/src/modules/ModStore.jsx:27-32 | each hour consumes 1 + Ah draws, Ah <= 4, and V <= 3 times the groups |
| Store.SellGroups | simulacion_diagramas/src/modules/ModStore.jsx:29-32 | the group loop consumes one draw per group and returns their articles |
| Store.WorkDay | simulacion_diagramas/src/modules/ModStore.jsx:26-33 | the hour loop returns the articles of the horas hours |
| Store.RunReplica | simulacion_diagramas/src/modules/ModStore.jsx:25-35 | one pass of the replica loop gives that replica's row |
| Store.Rows | simulacion_diagramas/src/modules/ModStore.jsx:24-35 | one row per replica 1 .. nsim |
| Store.Simulate | simulacion_diagramas/src/modules/ModStore.jsx:19-39 | the rows of replicas 1 .. nsim and the averages sGN/nsim and sV/nsim |
| Store.SalesBound | simulacion_diagramas/src/modules/ModStore.jsx:27-32 | V <= 12 horas |
| Store.GainBounds | simulacion_diagramas/src/modules/ModStore.jsx:34 | with precio >= costo, GN grows with V and is at least -cf |
| Store.GainRange | simulacion_diagramas/src/modules/ModStore.jsx:34 | a replica's GN lies between -cf and the gain of 12 articles an hour |
| Store.AverageSoldInRange | simulacion_diagramas/src/modules/ModStore.jsx:36-38 | the average V lies in [0, 12 horas] |
| InterestFixed.Trace | simulacion_diagramas/src/modules/ModInterestFixed.jsx:21-25 | the trace of n periods has n rows |
| InterestFixed.RunOnce | simulacion_diagramas/src/modules/ModInterestFixed.jsx:18-28 | the period loop returns the trace of the T periods and the capital after them |
| InterestFixed.CapitalIsPower | simulacion_diagramas/src/modules/ModInterestFixed.jsx:20-24 | K_T = K0 (1 + i)^T |
| InterestFixed.TraceRow | simulacion_diagramas/src/modules/ModInterestFixed.jsx:21-25 | row j is period j + 1: it starts at K_j, earns K_j i and ends at K_(j+1) |
| InterestFixed.TraceContinues | simulacion_diagramas/src/modules/ModInterestFixed.jsx:21-25 | each row starts where the previous one ended, and the last ends at K_T |
| InterestFixed.NoPeriods | simulacion_diagramas/src/modules/ModInterestFixed.jsx:21-27 | a horizon below 1 gives an empty trace and K_T = K0 |
| InterestFixed.CapitalGrows | simulacion_diagramas/src/modules/ModInterestFixed.jsx:22-24 | with K0 > 0 and i > 0 the capital stays positive and strictly increases each period |
| InterestFixed.CapitalIncreasing | simulacion_diagramas/src/modules/ModInterestFixed.jsx:22-24 | hence K_T strictly increases with T |
| InterestFixed.OnePeriod | simulacion_diagramas/src/modules/ModInterestFixed.jsx:11-24 | 10000 at 3.5% for one period gives 10350 |
| InterestFixed.Simulate | simulacion_diagramas/src/modules/ModInterestFixed.jsx:30-38 | the trace, nsim summary rows holding K_T, and the average K_T |
| InterestFixed.SummaryRows | simulacion_diagramas/src/modules/ModInterestFixed.jsx:35 | every summary row holds the same parameters and K_T, only its number differs |
| InterestVariable.Tier | simulacion_diagramas/src/modules/ModInterestVariable.jsx:17 | `tramo` gives 0.035, 0.037 or 0.04 |
| InterestVariable.TierBands | simulacion_diagramas/src/modules/ModInterestVariable.jsx:17 | 0.035 exactly up to 10000, 0.037 exactly above 10000 up to 100000, 0.04 exactly above |
| InterestVariable.TierMonotone | simulacion_diagramas/src/modules/ModInterestVariable.jsx:17 | a larger K0 never gets a lower rate |
| InterestVariable.RunOnce | simulacion_diagramas/src/modules/ModInterestVariable.jsx:19-27 | the rate is `tramo(K0)` and the trace and K_T are those of a fixed-rate run at that rate |
| InterestVariable.RateFixedOnce | simulacion_diagramas/src/modules/ModInterestVariable.jsx:20-23 | every period uses the rate of K0 |
| InterestVariable.CrossesBand | simulacion_diagramas/src/modules/ModInterestVariable.jsx:11-23 | from 9500 the third period starts above 10000 and still earns 3.5% |
| InterestVariable.Simulate | simulacion_diagramas/src/modules/ModInterestVariable.jsx:29-36 | the trace, nsim summary rows, and the averages K_T and i0 |
| Validators.EmptyText | simulacion_diagramas/src/utils/validators.js:2-3 | "" coerces to 0 yet fails `isNumber`, and passes `isInt` |
| Validators.RuleImplications | simulacion_diagramas/src/utils/validators.js:3-6 | `gt0` implies `ge0`, `prob01` implies `ge0`, and any numeric rule passed means the value is not NaN |
| Validators.Prob01Exactly | simulacion_diagramas/src/utils/validators.js:6 | `prob01` accepts exactly the numbers in [0, 1] and rejects NaN |
| Validators.Check | simulacion_diagramas/src/utils/validators.js:27-34 | only the six known rule names can give a message |
| Validators.RequiredFails | simulacion_diagramas/src/utils/validators.js:27 | "required" fails exactly on "", null and undefined |
| Validators.FirstFailureAt | simulacion_diagramas/src/utils/validators.js:26-35 | once the first i rules pass, the field's message is rule i's, or none after the last rule |
| Validators.FirstFailureIsFirst | simulacion_diagramas/src/utils/validators.js:26-35 | a field has a message exactly when some rule fails, and it is that of a failing rule whose predecessors all pass |
| Validators.UnknownRulesPass | simulacion_diagramas/src/utils/validators.js:25-35 | a field with no rules, or only unknown names, gets no message |
| Validators.CheckField | simulacion_diagramas/src/utils/validators.js:24-35 | the rule loop writes the first failing rule's message under the key and clears ok, or changes nothing |
| Validators.Validate | simulacion_diagramas/src/utils/validators.js:19-38 | the errors are those of every field in turn, and ok holds exactly when there are none |
| Validators.ErrorsPerField | simulacion_diagramas/src/utils/validators.js:23-36 | with distinct keys, a field's key has an error exactly when one of its rules fails, and it is the first failing rule's message, whatever the other fields hold |
| Validators.NoKey | simulacion_diagramas/src/utils/validators.js:23-36 | a key of no field gets no error |
| Validators.ErrorKeys | simulacion_diagramas/src/utils/validators.js:23-36 | every error key is the key of some field |
| Validators.NoErrors | simulacion_diagramas/src/utils/validators.js:20-37 | there are no errors exactly when every field passes its rules |
| Validators.Zeros | simulacion_diagramas/src/utils/validators.js:41-45 | `zeros(keys)` has exactly the given keys, each mapped to 0 |
| Pipeline.Aged | simulacion_diagramas/src/modules/ModInventory.jsx:27 | aging keeps the number of orders |
| Pipeline.AgePipe | simulacion_diagramas/src/modules/ModInventory.jsx:27 | the aging loop lowers every tent by one, in place and in order |
| Pipeline.RemoveArrived | simulacion_diagramas/src/modules/ModInventory.jsx:34 | the backward splice loop leaves the orders with tent > 0, in their order |
| Pipeline.ShiftAt | simulacion_diagramas/src/modules/ModInventory.jsx:27 | order i after aging by k has its quantity and tent - k |
| Pipeline.Partition | simulacion_diagramas/src/modules/ModInventory.jsx:28-34 | the arrivals and the survivors split the pipeline: every order lands on exactly one side |
| Pipeline.PendingIsAbove | simulacion_diagramas/src/modules/ModInventory.jsx:34 | a pipeline of orders on their way is unchanged by keeping tent > 0 |
| Pipeline.OneDay | simulacion_diagramas/src/modules/ModInventory.jsx:27-34 | after a day the survivors are the orders with tent > 1, each one lower, in order; the arrivals those with tent <= 1 |
| Pipeline.WaitingIsPending | simulacion_diagramas/src/modules/ModInventory.jsx:34 | after the removal loop no order has tent <= 0 |
| Pipeline.AdvanceIs | simulacion_diagramas/src/modules/ModInventory.jsx:27-34 | after k days the orders left are those with tent > k, in order, each k lower |
| Pipeline.ArrivalsOnDay | simulacion_diagramas/src/modules/ModInventory.jsx:27-34 | the arrivals of day k are exactly the orders with tent k, in order |
| Pipeline.NextDayAppend | simulacion_diagramas/src/modules/ModInventory.jsx:27-34 | a day acts on the two halves of a pipeline separately |
| Pipeline.PrefixDay | simulacion_diagramas/src/modules/ModInventory.jsx:27-34 | orders at the front of a pipeline stay at the front of its survivors and of its arrivals |
| Pipeline.LeadsOn | simulacion_diagramas/src/modules/ModInventory.jsx:25-34 | in any run whose days only append orders, the orders of day d, j days on, open the pipeline of day d + j |
| Pipeline.DayBounded | simulacion_diagramas/src/modules/ModInventory.jsx:27-34 | orders due in 1 .. hi days are due in 1 .. hi - 1 a day later, and arrivals keep their quantities |
| Inventory.AdmissionBounds | simulacion_diagramas/src/modules/ModInventory.jsx:30-32 | an arrival admits at least 0 and at most q, never beyond cap, and all of q when it fits |
| Inventory.AdmitFirstBounds | simulacion_diagramas/src/modules/ModInventory.jsx:29-33 | after each arrival the stock stays in [stock, cap] |
| Inventory.AdmitBounds | simulacion_diagramas/src/modules/ModInventory.jsx:29-33 | after all arrivals the stock stays in [stock, cap] |
| Inventory.AdmitUnits | simulacion_diagramas/src/modules/ModInventory.jsx:32 | the stock grows by exactly the units admitted |
| Inventory.AdmitArrivals | simulacion_diagramas/src/modules/ModInventory.jsx:29-33 | the admission loop gives the admitted stock and CTADQ grown by cua per unit admitted |
| Inventory.LeadTime | simulacion_diagramas/src/modules/ModInventory.jsx:46 | `1 + floor(u * 3)` is 1 .. 3 |
| Inventory.SaleSplit | simulacion_diagramas/src/modules/ModInventory.jsx:37-39 | sales + unmet = demand, sales lies in [0, stock], unmet = max(0, demand - stock) |
| Inventory.ChargePriced | simulacion_diagramas/src/modules/ModInventory.jsx:32-48 | the day's charges keep every account at its price times its total: CORDT = cord orders, CTINV = cui held, CTADQ = cua admitted, IBRU = puv sold, DIT = unmet |
| Inventory.Receive | simulacion_diagramas/src/modules/ModInventory.jsx:27-34 | aging, admission and removal give the next day's pipeline, the admitted stock and CTADQ |
| Inventory.RunDay | simulacion_diagramas/src/modules/ModInventory.jsx:25-50 | one pass of the day loop gives the next state and charges the day's totals |
| Inventory.SimulateOne | simulacion_diagramas/src/modules/ModInventory.jsx:22-56 | `simulateOne` returns GNETA, DIT and the service level of the priced totals of days 1 .. dias |
| Inventory.FlowBounds | simulacion_diagramas/src/modules/ModInventory.jsx:29-41 | from a stock in [0, cap] a day admits, sells, holds and misses nothing negative, holds at most cap, and holds stock + admitted - sold |
| Inventory.DayKeeps | simulacion_diagramas/src/modules/ModInventory.jsx:25-50 | a day keeps the stock in [0, cap] and every outstanding order positive, at most cap, and due in 1 .. 3 days |
| Inventory.DaysKeep | simulacion_diagramas/src/modules/ModInventory.jsx:23-50 | so does every run: the stock is admitted less sold, and no total is negative |
| Inventory.DaysPending | simulacion_diagramas/src/modules/ModInventory.jsx:27-47 | at the end of every day each outstanding order has tent > 0 |
| Inventory.OffReview | simulacion_diagramas/src/modules/ModInventory.jsx:43-50 | a day places at most one order, none off a review day, where it takes one draw |
| Inventory.NewOrder | simulacion_diagramas/src/modules/ModInventory.jsx:43-49 | a new order is placed on a review day, for the shortfall cap - IAZU > 0, due in 1 .. 3 days, at the back of the pipeline |
| Inventory.Reviews | simulacion_diagramas/src/modules/ModInventory.jsx:24 | there are at most four review days among days 1 .. n |
| Inventory.OrdersPerReview | simulacion_diagramas/src/modules/ModInventory.jsx:24-49 | a run places at most one order per review day |
| Inventory.OrderCosts | simulacion_diagramas/src/modules/ModInventory.jsx:48 | hence CORDT lies in [0, 4 cord] |
| Inventory.DayPrefix | simulacion_diagramas/src/modules/ModInventory.jsx:27-47 | a day keeps the orders already outstanding at the front of the pipeline |
| Inventory.DaysLead | simulacion_diagramas/src/modules/ModInventory.jsx:25-50 | the pipeline of day n, a day older, opens the pipeline of day n + 1 |
| Inventory.DaysPrefix | simulacion_diagramas/src/modules/ModInventory.jsx:25-50 | the orders of day d, j days on, open the pipeline of day d + j |
| Inventory.LeadTimeRule | simulacion_diagramas/src/modules/ModInventory.jsx:25-47 | an order outstanding after day d with tent k arrives on day d + k, in its order among that day's arrivals |
| Inventory.ServiceShare | simulacion_diagramas/src/modules/ModInventory.jsx:54 | with puv > 0 the service level is sold / (sold + unmet), 0 when there was no demand, and lies in [0, 1] |
| Inventory.OutcomeService | simulacion_diagramas/src/modules/ModInventory.jsx:52-54 | the same for a run's outcome |
| Inventory.ReplicaService | simulacion_diagramas/src/modules/ModInventory.jsx:54-63 | a replica's service level lies in [0, 1] |
| Inventory.RunReplica | simulacion_diagramas/src/modules/ModInventory.jsx:63-65 | one pass of the replica loop gives that replica's row |
| Inventory.Rows | simulacion_diagramas/src/modules/ModInventory.jsx:62-64 | one row per replica 1 .. nsim |
| Inventory.Simulate | simulacion_diagramas/src/modules/ModInventory.jsx:58-68 | the rows of replicas 1 .. nsim on their own streams, and the averages sG/nsim, sD/nsim, sN/nsim |
| Inventory.AverageServiceInRange | simulacion_diagramas/src/modules/ModInventory.jsx:65-67 | the average service level lies in [0, 1] |

## Left out

- Floating point: numbers are exact reals. IEEE-754 rounding and the `toFixed` formatting of the tables are not modelled.
- The mulberry32 state is kept as a 32-bit residue. The closure's `seed` is a JavaScript double that grows by 0x6D2B79F5 per call. The two agree until it passes 2^53, after about 4.9 million calls.
- `Math.random` is a `Generator` value with no draws. `Date.now()` is the parameter `now` of `Rng.BaseSeed`. Neither is reproducible.
- The `Simulate` methods of `Dice`, `Hen`, `Store` and `Inventory` take the base `seed || Date.now()` as their parameter `base`. `Rng.BaseSeed` states how that base is formed, but no `Simulate` calls it, because the clock reading is not modelled.
- `Inventory.SimulateOne` takes the exponential demand `-mean * ln(1 - u)` as a parameter `demand` (a function of the draw), since the logarithm is not modelled. Properties that need non-negative demand assume `NonNegative(demand)`, which holds for mean >= 0. The `mean` field is replaced by this parameter.
- `Samplers.SamplePoisson` takes the threshold exp(-lambda) as a parameter `L > 0`, since the exponential is not modelled. `Hen` takes it as a configuration field.
- Number coercion: `Rng.ToNumber` handles undefined, null, numbers and signed decimal text with surrounding white space. Exponents, hexadecimal and `Infinity` are not modelled. The unary `+v` of the validators uses the same coercion.
- `Inventory.ServiceShare`: with puv = 0, IBRU / puv is 0/0 and the service level is NaN. The model computes this, but the range lemmas require puv > 0.
- Averages that can only be NaN through 0/0 are modelled. Infinite values from division by a non-zero number cannot arise.
- The pipeline is a sequence value that the day's loops reassign, not an array of shared order objects. `p.tent -= 1` also changes the objects in `llegados`, but that list is only read before the next change, so the difference is not observable.
- Distributional claims (empirical frequencies, means of the samplers) are out of scope.
- The React components, `useState` setters, JSX and the input handlers are presentation, and not part of this model.
