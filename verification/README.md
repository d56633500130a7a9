# BettingArbitrage in Dafny

A model of the core of BettingArbitrage, a system that ingests betting odds
from several providers, finds risk-free arbitrage books across them, stakes
them so that every outcome pays the same, and evaluates staking strategies
by backtests and Monte Carlo bankroll simulation. The model covers:

- **Odds ingestion** (`ingest_odds.dfy`, with `text.dfy`, `keep_best.dfy`):
  conversion of decimal, American and fractional prices to decimal odds,
  canonical event resolution, the market records built runner by runner,
  and the last-write-wins de-duplication by timestamp.
- **Arbitrage detection** (`arbitrage.dfy`, with `grouping.dfy`,
  `ordered_map.dfy`, `sorting.dfy`): the best quote per runner, grouping by
  event and market, the stake plan, the provider and edge filters, and the
  ordering by profit.
- **The analytics service** (`arbitrage_service.dfy`, `service_risk.dfy`,
  `service_model.dfy`): the same detection in the Java service, with its
  risk metrics, its Monte Carlo run and the re-simulation of a reported
  opportunity.
- **Staking and simulation** (`kelly.dfy`, `pnl_simulator.dfy`,
  `metrics.dfy`, `montecarlo.dfy`, `numeric.dfy`): fractional Kelly with its
  caps and cent rounding, the deterministic backtest, returns, mean,
  deviation, Sharpe ratio, drawdown, percentiles and the Monte Carlo report.
- **The in-memory store** (`storage.dfy`): users, betting sites, the market
  table with its retention of the 500 newest markets, and the latest and
  historical arbitrage opportunities.
- **The schema** (`schema.dfy`): market types and the stake and opportunity
  records.
- **Model input preparation** (`features.dfy`, `predictions.dfy`): feature
  vectors, column standardisation, min-max normalisation and the sliding
  windows of the odds-prediction model.
- **The Spark backtester's trade simulator** (`spark_backtest.dfy`).

Money, odds and probabilities are `real`s. Values that can become NaN or
infinite in the source are `Numeric.Num` (`Finite(v)` or `NonFinite`).
`toFixed` is modelled exactly as round-half-away-from-zero
(`Numeric.RoundFixed`). Things the program takes from its environment are
parameters:

- the clock (`now`);
- `Math.sqrt` (`sqrt`, with `Numeric.IsSqrt` where a lemma needs a true
  square root);
- the random number streams (`draws`/`rng`, read from a position on);
- `Date.parse` (`parseDate`).

JavaScript `Map`s, which iterate in insertion order, are association lists
(`OrderedMap`). The library sorts are a stable sort by key
(`Sorting.SortBy`).

Behaviour of the code worth knowing:

- The decimal and American branches only yield odds above 1
  (server/workers/ingestOdds.ts:100, 106-115). The fractional branch does
  not check the sign of the numerator, though: "0/1" is accepted as odds
  of exactly 1, and "-1/2" converts to 0.5, which is then refused only by
  the market schema because its implied probability exceeds 1
  (`IngestOdds.ZeroFractionAccepted`, `IngestOdds.NegativeFractionRejected`).
- Record ids join the provider slug and the provider's event id with a
  hyphen, so providers with hyphenated slugs can collide
  (`IngestOdds.HyphenatedSlugsCollide`).
- The Java service applies no minimum-provider filter. Its bankroll falls
  back to 1000 when not positive.
- The feature standardisation divides by `max(n - 1, 1)` (sample
  variance). The metrics module divides by `n`.

## Model

| member | source | states |
|---|---|---|
| Kelly.KellyStake | server/sim/kelly.ts:12-37 | the stake is never negative, and it is 0 for a non-positive bankroll or for odds of at most 1 |
| Kelly.KellyWholeCents | server/sim/kelly.ts:36 | the stake is a whole number of cents: rounding it to two places again changes nothing |
| Kelly.KellyPercentCap | server/sim/kelly.ts:28-30 | a given percent cap bounds the stake, up to rounding to the cent |
| Kelly.KellyAbsoluteCap | server/sim/kelly.ts:32-34 | a given absolute cap bounds the stake, up to rounding to the cent |
| Kelly.KellyNoEdge | server/sim/kelly.ts:21-25 | a non-positive edge b·p − (1 − p) with a non-negative multiplier stakes nothing |
| Kelly.KellyUncapped | server/sim/kelly.ts:24-36 | with a positive edge and no caps, the stake is the multiplier times the full-Kelly fraction of the bankroll, rounded to the cent |
| Kelly.KellyQuarterExample | server/sim/kelly.ts:10-37 | bankroll 1000 at even money with a 55% chance and the default quarter multiplier stakes 25 |
| Numeric.RoundFixed | server/sim/kelly.ts:36 | `Number(x.toFixed(d))` lies within half a unit of the last place of x and keeps the sign of x |
| Numeric.RoundFixedMonotone | server/sim/kelly.ts:36 | rounding to d places never reverses the order of two values |
| Numeric.RoundFixedOnGrid | server/sim/kelly.ts:36 | a multiple of 10^-d is its own rounding |
| Numeric.RoundFixedIdempotent | server/sim/kelly.ts:36 | rounding twice is rounding once |
| Schema.ParseMarketType | shared/schema.ts:84-86 | an absent tag defaults to "other"; a given tag is accepted exactly when it is one of the four names, and then it is that type's name |
| Schema.MarketTypeRoundTrip | shared/schema.ts:84-86 | every market type survives printing its tag and parsing it back |
| Schema.DerivedStakeValid | shared/schema.ts:105-113 | a stake with positive odds, a non-negative fraction and bankroll, and amount and payout derived from them passes the stake schema |
| Metrics.Returns | server/sim/metrics.ts:1-14 | one return per step of the curve (none for a curve of at most one point), each the step's relative change, or 0 after a non-positive value |
| Metrics.ReturnsCompound | server/sim/metrics.ts:4-12 | compounding each return onto its previous positive value rebuilds the next value; after a non-positive value the return is 0 |
| Metrics.CompoundAt | server/sim/metrics.ts:11 | a single step: current = previous · (1 + return) when previous > 0 |
| Metrics.ReturnsFromEquityCurve | server/sim/metrics.ts:1-14 | the loop computes exactly `Returns` of the curve |
| Metrics.MeanBetween | server/sim/metrics.ts:16-20 | the mean of a non-empty list lies between any lower and upper bound of its values |
| Metrics.MeanShift | server/sim/metrics.ts:16-20 | shifting every value by c shifts the mean by c |
| Metrics.SquaredDeviations | server/sim/metrics.ts:25 | one squared difference from the mean per value |
| Metrics.VarianceNonNegative | server/sim/metrics.ts:22-27 | the population variance is never negative |
| Metrics.StandardDeviationNonNegative | server/sim/metrics.ts:22-27 | the standard deviation is never negative |
| Metrics.ConstantNoDeviation | server/sim/metrics.ts:22-27 | values that are all equal have a standard deviation of 0 |
| Metrics.ConstantNoVariance | server/sim/metrics.ts:22-27 | values that are all equal have a variance of 0 |
| Metrics.SharpeShortCurve | server/sim/metrics.ts:47-53 | a curve of at most two points gives a ratio of 0 |
| Metrics.SharpeSign | server/sim/metrics.ts:39-55 | with a positive spread the ratio is positive exactly when the mean excess return is, and negative exactly when it is |
| Metrics.SharpeConstantExcess | server/sim/metrics.ts:50-53 | excess returns that do not vary give a ratio of 0 |
| Metrics.DrawFold | server/sim/metrics.ts:58-68 | the loop state after a curve: a finite maximum is never negative, and a peak exists exactly when the curve is non-empty |
| Metrics.MaxDrawdown | server/sim/metrics.ts:57-70 | the result is 0 for an empty curve and never negative when finite |
| Metrics.MaxDrawdownOf | server/sim/metrics.ts:57-70 | the loop computes exactly `MaxDrawdown` of the curve |
| Metrics.PeakIsMaximum | server/sim/metrics.ts:61-63 | the running peak is the largest value of the curve and is one of its values |
| Metrics.PositiveCurveDrawdownBelowOne | server/sim/metrics.ts:57-70 | on a curve of positive values the drawdown is finite and below 1 |
| Metrics.PositiveCurveDrawdownDominates | server/sim/metrics.ts:57-70 | on a positive curve the drawdown is at least every fall (curve[i] − curve[j]) / curve[i] with i ≤ j |
| Metrics.PositiveCurveDrawdownAttained | server/sim/metrics.ts:57-70 | on a positive curve a nonzero drawdown equals one of those falls |
| Metrics.NonDecreasingNoDrawdown | server/sim/metrics.ts:57-70 | a curve that never falls has drawdown 0, and its peak is its last value |
| Metrics.ZeroPeakInfinite | server/sim/metrics.ts:64 | a fall below a zero peak makes the drawdown non-finite ([0, −1] gives +Infinity) |
| PnlSimulator.ResolveStakeAmount | server/sim/pnlSimulator.ts:47-73 | an explicit stake is used as given; without Kelly or a win probability the stake is the lower of the percentage cap and the absolute cap; otherwise it is the Kelly stake with the configured fraction and caps |
| PnlSimulator.StakeWithinCaps | server/sim/pnlSimulator.ts:47-73 | without an explicit stake, and with a non-negative bankroll and caps, the stake is never negative and at most the percentage cap plus half a cent of rounding |
| PnlSimulator.SettleNet | server/sim/pnlSimulator.ts:91-108 | a stake ≤ 0 only repeats the bankroll on the curve; a positive stake moves the bankroll by the outcome's net (stake·(odds − 1), 0 or −stake), counts exactly that outcome and appends the bankroll rounded to cents |
| PnlSimulator.Run | server/sim/pnlSimulator.ts:84-109 | the curve starts at the starting bankroll and gains one point per bet; at most one outcome is counted per bet |
| PnlSimulator.LastPointRounds | server/sim/pnlSimulator.ts:92-109 | to cents, the curve's last point equals the bankroll, whether or not the last bet was staked |
| PnlSimulator.ProfitWithinCent | server/sim/pnlSimulator.ts:111-125 | the profit rounded to cents is within a cent of the rounded final bankroll less the starting bankroll |
| PnlSimulator.Backtest | server/sim/pnlSimulator.ts:75-126 | the result has one curve point per bet after the start, counts every bet, counts at most one outcome per bet and has a drawdown that is non-negative whenever it is finite; the final bankroll is the curve's last point to cents, and the profit is the final bankroll less the starting one, within a cent |
| PnlSimulator.SettleAll | server/sim/pnlSimulator.ts:84-109 | the settlement loop ends with exactly the ledger `Run` describes |
| PnlSimulator.BacktestBets | server/sim/pnlSimulator.ts:75-126 | `backtestBets` returns exactly `Backtest` of its bets and options |
| PnlSimulator.Nets | server/sim/pnlSimulator.ts:96-106 | one bankroll change per bet that carries an explicit positive stake |
| PnlSimulator.ExplicitStakesLedger | server/sim/pnlSimulator.ts:84-109 | with an explicit positive stake on every bet, the final bankroll is the start plus the sum of the nets, and the wins, losses and pushes count the outcomes and add up to the number of bets |
| PnlSimulator.ExampleLedger | tests/simulations.test.ts:16-34 | the test's three bets from 500 end at 600 with two wins and one loss |
| PnlSimulator.ExampleNets | tests/simulations.test.ts:17-27 | the nets of the test's bets sum to 100 |
| PnlSimulator.ExampleCounts | tests/simulations.test.ts:17-27 | the test's bets are two wins, one loss and no push |
| PnlSimulator.ExampleBacktest | tests/simulations.test.ts:16-34 | the test's backtest reports final bankroll 600, profit 100, three bets and four curve points |
| PnlSimulator.ExampleRounding | server/sim/pnlSimulator.ts:116-122 | 600 and 100 are whole cents, so `toFixed(2)` keeps them |
| MonteCarlo.ChooseStrategy | server/sim/montecarlo.ts:111 | a supplied strategy is used; otherwise the default Kelly strategy over the resolved options |
| MonteCarlo.DefaultStrategyStakes | server/sim/montecarlo.ts:52-68 | the default strategy stakes a non-negative amount, nothing for a non-positive bankroll or odds of at most 1, at the default odds |
| MonteCarlo.StepSettles | server/sim/montecarlo.ts:76-86 | the stake is the lower of the decision and the bankroll; a stake ≤ 0 changes nothing and uses no draw; otherwise one draw is used, a draw below the win probability adds stake·(odds − 1) and any other loses the stake |
| MonteCarlo.Walk | server/sim/montecarlo.ts:75-87 | a path of n steps uses at most n random draws |
| MonteCarlo.StepNonNegative | server/sim/montecarlo.ts:76-86 | with non-negative odds, a step never makes a non-negative bankroll negative |
| MonteCarlo.WalkNonNegative | server/sim/montecarlo.ts:70-89 | with non-negative odds, a path starting from a non-negative bankroll stays non-negative |
| MonteCarlo.SimulatePath | server/sim/montecarlo.ts:70-89 | the loop returns exactly the rounded final bankroll and draw position `PathResult` describes |
| MonteCarlo.DefaultPathFlat | server/sim/montecarlo.ts:52-68 | with default odds of at most 1 the default strategy never bets, so the bankroll stays at its start |
| MonteCarlo.RankIndexBounds | server/sim/montecarlo.ts:93-95 | for a rank in [0, 1] the rank index and its floor and ceiling are valid indices in order |
| MonteCarlo.Percentile | server/sim/montecarlo.ts:91-101 | an empty list gives 0 |
| MonteCarlo.PercentileBetween | server/sim/montecarlo.ts:91-101 | on a sorted list the percentile lies between the values at the floor and the ceiling of the rank index, hence between the first and last values |
| MonteCarlo.PercentileAtIndex | server/sim/montecarlo.ts:96-98 | a whole rank index picks that value exactly |
| MonteCarlo.PercentileEnds | server/sim/montecarlo.ts:91-101 | rank 0 gives the first value and rank 1 the last |
| MonteCarlo.Paths | server/sim/montecarlo.ts:113-117 | k simulations give k final bankrolls |
| MonteCarlo.PathsInOrder | server/sim/montecarlo.ts:113-117 | the i-th path is simulated from the draws left over by the first i paths |
| MonteCarlo.FinalBankrolls | server/sim/montecarlo.ts:113-117 | one final bankroll per simulation (none for a non-positive count) |
| MonteCarlo.CollectPaths | server/sim/montecarlo.ts:113-117 | the loop collects exactly `FinalBankrolls` |
| MonteCarlo.RunMonteCarlo | server/sim/montecarlo.ts:103-140 | `runMonteCarlo` returns exactly the summary `MonteCarloRun` describes |
| MonteCarlo.FractionBounds | server/sim/montecarlo.ts:123-128 | the fraction of paths below a limit is finite exactly when there are paths, and then lies in [0, 1] |
| MonteCarlo.FractionBelowMonotone | server/sim/montecarlo.ts:123-128 | a lower limit never gives a larger fraction |
| MonteCarlo.Probabilities | server/sim/montecarlo.ts:123-136 | the loss and ruin probabilities are finite exactly when there are paths, lie in [0, 1], and ruin is never more likely than loss for a non-negative start |
| MonteCarlo.FinalBankrollsNonNegative | server/sim/montecarlo.ts:70-117 | with a non-negative start and non-negative odds every final bankroll is non-negative |
| MonteCarlo.ReportedPercentileBounds | server/sim/montecarlo.ts:137-138 | a reported percentile is 0 for no paths and lies within the rounded bounds of the values otherwise |
| MonteCarlo.SummaryNonNegative | server/sim/montecarlo.ts:130-139 | non-negative final bankrolls give a non-negative reported mean, median and 10th and 90th percentiles |
| IngestOdds.DecimalOdds | server/workers/ingestOdds.ts:98-104 | decimal odds are accepted exactly when the value is finite and above 1, and are then returned as they are; otherwise the decimal error |
| IngestOdds.AmericanOdds | server/workers/ingestOdds.ts:106-115 | an American price is accepted exactly when it is finite with magnitude at least 100; +v gives v/100 + 1, −v gives odds whose winnings times v are 100, and the odds always exceed 1 |
| IngestOdds.FractionalOdds | server/workers/ingestOdds.ts:117-135 | a numeric price is accepted exactly when finite and positive and gives price + 1; a string "n/d" is accepted exactly when both parts are numbers and d ≠ 0, and gives n/d + 1 |
| IngestOdds.ConvertOddsToDecimal | server/workers/ingestOdds.ts:94-138 | each format dispatches to its branch, with strings read by `Number` for decimal and American; accepted decimal and American odds exceed 1 |
| IngestOdds.AmericanRoundTrip | server/workers/ingestOdds.ts:106-115 | converting an accepted American price other than −100 to decimal odds and back gives the price again |
| IngestOdds.AmericanEvenMoney | server/workers/ingestOdds.ts:111-114 | −100 and +100 both convert to even money, 2.0 |
| IngestOdds.ZeroFractionAccepted | server/workers/ingestOdds.ts:124-134 | the numerator is not sign-checked: "0/1" is accepted and gives odds of exactly 1 |
| IngestOdds.FindIndex | server/workers/ingestOdds.ts:151-171 | `find` returns the first element that satisfies the test, or nothing when none does |
| IngestOdds.SynthesizedEvent | server/workers/ingestOdds.ts:173-183 | the made-up event has id `slug-eventId`, the event's name, start and teams, and its sport or "unknown" when the sport is missing or empty |
| IngestOdds.InferCanonicalEvent | server/workers/ingestOdds.ts:146-184 | the first candidate with the event's id wins; failing that, the first fuzzy match (names equal ignoring case, or both teams equal ignoring case); failing that, the synthesised event |
| IngestOdds.ResolveTimestamp | server/workers/ingestOdds.ts:191-192 | the option's timestamp if non-empty, else the payload's if non-empty, else the clock |
| IngestOdds.MarketRecord | server/workers/ingestOdds.ts:208-228 | a conversion error propagates; an accepted price yields either a schema violation or a valid record carrying the composite id, provider, canonical event, market name, runner, odds, 1/odds rounded to six places and the timestamp |
| IngestOdds.ImpliedOfOddsAboveOne | server/workers/ingestOdds.ts:225 | for odds above 1 the rounded implied probability lies in [0, 1] |
| IngestOdds.OnlyFractionStringsViolateSchema | server/workers/ingestOdds.ts:208-228 | unless the price is a fractional string, a record is built exactly when the price converts |
| IngestOdds.ZeroFractionRecord | server/workers/ingestOdds.ts:208-228 | a runner priced "0/1" yields a record whose implied probability is exactly 1 |
| IngestOdds.NegativeFractionRejected | server/workers/ingestOdds.ts:124-134 | "-1/2" converts to odds 0.5, but its implied probability of 2 fails the market schema |
| IngestOdds.RecordIdsDistinct | server/workers/ingestOdds.ts:215 | two providers whose slugs differ and contain no hyphen never produce the same record id |
| IngestOdds.HyphenatedSlugsCollide | server/workers/ingestOdds.ts:215 | with hyphenated slugs two providers can produce the same record id (slug "a" with event "b-c", slug "a-b" with event "c") |
| IngestOdds.MarketSlots | server/workers/ingestOdds.ts:207 | one slot per runner of the market, in order |
| IngestOdds.BuildRecordsSpec | server/workers/ingestOdds.ts:198-233 | the nested loops succeed exactly when every runner's record does, and then hold exactly those records in loop order |
| IngestOdds.BuildRecordsErrorSticks | server/workers/ingestOdds.ts:198-233 | once a runner has failed, later runners do not change the error that is thrown |
| IngestOdds.BuildRecordsConcat | server/workers/ingestOdds.ts:198-233 | records of two consecutive runs concatenate, and the first run's error wins over the second's |
| IngestOdds.TimestampOrder | server/workers/ingestOdds.ts:243 | string `<` on timestamps is a strict weak order |
| IngestOdds.DedupeChosen | server/workers/ingestOdds.ts:238-248 | each kept record is an input record with the greatest timestamp of its key, the first such on ties |
| IngestOdds.DedupeKeysDistinct | server/workers/ingestOdds.ts:238-248 | no two kept records share a key |
| IngestOdds.DedupeComplete | server/workers/ingestOdds.ts:238-248 | every key of the input is represented in the output |
| IngestOdds.DedupeMarkets | server/workers/ingestOdds.ts:238-248 | the loop over the `Map` returns exactly `Dedupe` of the records |
| IngestOdds.MarketRecords | server/workers/ingestOdds.ts:207-231 | the runner loop returns exactly the records of the market's slots, or the first error |
| IngestOdds.EventRecords | server/workers/ingestOdds.ts:199-232 | the market loop returns exactly the records of the event's slots, or the first error |
| IngestOdds.NormalizeMarkets | server/workers/ingestOdds.ts:186-236 | `normalizeMarkets` returns exactly `Normalize`: the de-duplicated records of every slot, or the first error |
| Text.Lower | server/workers/ingestOdds.ts:155 | `toLowerCase` keeps the length of the string |
| Text.StrLessIrreflexive | server/workers/ingestOdds.ts:243 | no string is below itself |
| Text.StrLessTransitive | server/workers/ingestOdds.ts:243 | string `<` is transitive |
| Text.StrLessTotal | server/workers/ingestOdds.ts:243 | any two different strings are ordered one way or the other |
| Text.StrLessAsymmetric | server/workers/ingestOdds.ts:243 | string `<` never holds in both directions |
| Text.IndexOf | server/workers/ingestOdds.ts:124 | the first position of the separator, or none when it does not occur |
| KeepBest.Step | server/workers/ingestOdds.ts:242-245 | one iteration keeps keys distinct and adds the element's key |
| KeepBest.Fold | server/workers/ingestOdds.ts:238-248 | the keep-best map holds one entry per key |
| KeepBest.FoldKeys | server/workers/ingestOdds.ts:238-248 | the map ends with exactly the keys that occur in the list |
| KeepBest.ChosenUnique | server/workers/ingestOdds.ts:243 | at most one position is the kept element of its key |
| KeepBest.FoldChosen | server/workers/ingestOdds.ts:238-248 | every stored value is the chosen element of its key: no element of that key is better, and no earlier one is as good |
| KeepBest.FoldEntries | server/workers/ingestOdds.ts:238-248 | every entry is (key, element) for the chosen element of that key |
| KeepBest.FoldComplete | server/workers/ingestOdds.ts:238-248 | every element's key is represented by some entry |
| KeepBest.FoldValuesSatisfy | server/workers/ingestOdds.ts:238-248 | a property every input element has, every kept element has |
| Storage.MemStorage.constructor | server/storage.ts:59-84 | a new store has no users and next user id 1, the two seeded sites Bet365 and Betway with next site id 3, and no markets or opportunities |
| Storage.NumberedKeys | server/storage.ts:97-105 | a table numbered 1, 2, 3, … in insertion order has distinct keys, exactly 1 to its length |
| Storage.MemStorage.GetUser | server/storage.ts:86-88 | a user is found exactly for the ids handed out so far, and it carries that id |
| Storage.FirstNamed | server/storage.ts:90-94 | `find` returns the first user, in creation order, with that username, or nothing when none has it |
| Storage.MemStorage.GetUserByUsername | server/storage.ts:90-94 | a found user has that username and is stored; nothing is found exactly when no stored user has it |
| Storage.MemStorage.CreateUser | server/storage.ts:96-107 | the new user gets the next id and the given fields, with notifications on by default; the id counter advances by one, the user is appended, and nothing else changes |
| Storage.MemStorage.GetBettingSites | server/storage.ts:109-111 | the sites in creation order, numbered from 1, the two seeded sites first |
| Storage.MemStorage.CreateBettingSite | server/storage.ts:113-118 | the new site gets the next id (at least 3) and the given fields; the counter advances by one, the site is appended, and nothing else changes |
| Storage.NewestFirst | server/storage.ts:157-161 | a permutation of the markets, ordered by descending parsed timestamp |
| Storage.MemStorage.GetMarkets | server/storage.ts:157-161 | every stored market exactly once, newest first |
| Storage.Retain | server/storage.ts:146-152 | the result stays keyed by id, only keeps entries of the table, and is either within the limit of 500 or the untouched table |
| Storage.Upsert | server/storage.ts:137-152 | the table stays keyed by id, and a table within the limit stays within it |
| Storage.MergedKeyedById | server/storage.ts:142-144 | setting each market under its id keeps the table keyed by id |
| Storage.RetainKeepsNewest | server/storage.ts:146-152 | over the limit exactly 500 markets are kept, and no dropped market is newer than a kept one |
| Storage.RetainValues | server/storage.ts:147-151 | over the limit the kept markets are the first 500 of the newest-first order, in that order |
| Storage.NewestPrefix | server/storage.ts:147-150 | nothing outside a newest-first prefix is newer than anything inside it |
| Storage.UpsertGet | server/storage.ts:137-152 | an empty batch changes nothing; otherwise each id holds the last market of the batch with that id, or its old market; retention only drops entries, and under the limit drops none |
| Storage.RetainGet | server/storage.ts:146-152 | retention never changes the market stored under an id |
| Storage.SetEach | server/storage.ts:142-144 | the set loop gives exactly the table with every batch market set under its id in batch order |
| Storage.SetAndTrim | server/storage.ts:138-152 | the table update is exactly `Upsert`, and the result is keyed by id and within the limit |
| Storage.MemStorage.UpsertMarkets | server/storage.ts:137-155 | the market table becomes `Upsert` of the old table and the batch, the result is the new table newest first, the store stays valid and nothing else changes |
| Storage.Stamped | server/storage.ts:167-170 | every opportunity gets a creation time: its own when it has one, otherwise the clock reading; nothing else about it changes |
| Storage.Latest | server/storage.ts:172-177 | the latest map is rebuilt from the batch alone: its keys are exactly the batch's `eventId:marketName` keys, and each entry is stored under its own key with a creation time |
| Storage.LatestLastWins | server/storage.ts:172-177 | on a repeated key the later opportunity of the batch is the one stored |
| Storage.History | server/storage.ts:179-182 | the stamped batch comes first, then the old history, cut to at most 200 entries |
| Storage.ByProfit | server/storage.ts:185-189 | a permutation of the latest opportunities, most profitable first |
| Storage.MemStorage.SetArbitrageOpportunities | server/storage.ts:163-183 | the latest map becomes `Latest` of the batch and the history becomes `History` of the stamped batch and the old history; nothing else changes |
| Storage.MemStorage.GetArbitrageOpportunities | server/storage.ts:185-189 | every latest opportunity exactly once, most profitable first |
| Storage.MemStorage.GetArbitrageHistory | server/storage.ts:191-193 | the history never holds more than 200 entries |
| OrderedMap.Find | server/storage.ts:87 | the position of the first entry with the key, or none when no entry has it |
| OrderedMap.Values | server/storage.ts:110 | `Array.from(map.values())` lists the values in entry order |
| OrderedMap.Get | server/storage.ts:87 | `get` finds a value exactly for the keys the map holds |
| OrderedMap.GetAt | server/storage.ts:87 | with distinct keys, `get` of an entry's key returns that entry's value |
| OrderedMap.Set | server/storage.ts:143 | `set` stores the value under the key, leaves every other key alone, replaces in place for a present key and appends a new one |
| OrderedMap.Entries | server/storage.ts:151 | `list.map(x => [key(x), x])` pairs each element with its key, in order |
| OrderedMap.SetAll | server/storage.ts:142-144 | a run of `set`s keeps keys distinct, adds exactly the run's keys, and only holds entries of the map or of the run |
| OrderedMap.LastValue | server/storage.ts:172-177 | the value of the last entry with the key, none when the key does not occur |
| OrderedMap.SetAllGet | server/storage.ts:142-144 | after a run of `set`s a key holds the value it was last set to, or its old value |
| OrderedMap.FromEntries | server/storage.ts:151 | `new Map(entries)` has distinct keys, exactly the entries' keys, and only entries from the list |
| OrderedMap.FromDistinctEntries | server/storage.ts:151 | entries whose keys are already distinct are kept as they are |
| Sorting.SortBy | server/storage.ts:158-160 | the sort returns a permutation of its input ordered by the key |
| Sorting.SortAscending | server/sim/montecarlo.ts:119 | `[...values].sort((a, b) => a - b)` is a permutation in ascending order |
| Sorting.InsertTies | server/storage.ts:158-160 | inserting an element places it after every element with the same key |
| Sorting.SortByStable | server/workers/arbitrage.ts:153-155 | the sort is stable: the elements with any given key come out in their input order |
| Storage.TrimmedFromTable | server/storage.ts:147-151 | the trimmed map rebuilt from the newest 500 markets is keyed by id, within the limit, and holds only entries of the old table |
| Storage.KeptStored | server/storage.ts:147-150 | each of the newest 500 markets is a market of the old table |
| Storage.LatestKeys | server/storage.ts:172-177 | the latest map holds exactly the batch's keys, each entry under its own key and stamped |
| Storage.StampedKeys | server/storage.ts:167-177 | stamping keeps each opportunity's `eventId:marketName` key |
| Grouping.Add | server/workers/arbitrage.ts:58-60 | `get ?? []`, `push`, `set` keeps one group per key |
| Grouping.Grouped | server/workers/arbitrage.ts:53-62 | grouping a list gives one group per key |
| Grouping.WithKey | server/workers/arbitrage.ts:55-59 | the elements with a given key: each carries that key and comes from the list, and every element with the key is among them |
| Grouping.GroupedIsFilter | server/workers/arbitrage.ts:53-62 | the group under a key is exactly the list filtered to that key, in list order, and no group exists for a key nothing has |
| Grouping.GroupsPartition | server/workers/arbitrage.ts:53-62 | every group is non-empty and equals its key's filter, and every element lands in the group of its key |
| Grouping.GroupsSatisfy | server/workers/arbitrage.ts:53-62 | a property of every element holds for every grouped element |
| Arbitrage.QuoteOf | server/workers/arbitrage.ts:39-44 | a quote keeps its market and provider, takes the market's odds, and has implied probability `1 / odds`, which is positive |
| Arbitrage.ImpliedTimesOdds | server/workers/arbitrage.ts:42-43 | a quote's implied probability times its odds is 1 |
| Arbitrage.Quotes | server/workers/arbitrage.ts:35-44 | the candidate quote of each market, in order |
| Arbitrage.BestQuotesByRunner | server/workers/arbitrage.ts:33-48 | the loop builds exactly the keep-best fold over the markets, keyed by event, lower-cased market name and runner id |
| Arbitrage.OddsOrder | server/workers/arbitrage.ts:38 | `existing.odds < market.oddsDecimal` is a strict weak order on quotes |
| Arbitrage.BestQuoteIsMaximal | server/workers/arbitrage.ts:33-48 | every kept quote is that of a market with the highest odds of its runner key, and the first market to reach those odds |
| Arbitrage.BestQuoteAt | server/workers/arbitrage.ts:33-48 | each kept entry names the market it came from, and that market is the best of its key |
| Arbitrage.BestQuotesComplete | server/workers/arbitrage.ts:33-48 | the kept quotes have distinct keys, and every market's runner key has a kept quote |
| Arbitrage.BestQuotesSatisfy | server/workers/arbitrage.ts:33-48 | a property of every market's quote holds for every kept quote |
| Arbitrage.GroupQuotesByEventAndMarket | server/workers/arbitrage.ts:50-63 | the loop builds exactly the grouping of the kept quotes by event and lower-cased market name, in map order |
| Arbitrage.Implieds | server/workers/arbitrage.ts:85-88 | the implied probabilities of the group, in order |
| Arbitrage.ImpliedSumPositive | server/workers/arbitrage.ts:85-88 | a non-empty group of positive-odds quotes has a positive implied sum |
| Arbitrage.CalculateStakes | server/workers/arbitrage.ts:77-112 | no plan for fewer than two quotes or an implied sum of at least 1; otherwise a positive profit fraction and one stake per quote carrying its runner, provider and odds |
| Arbitrage.StakeFractions | server/workers/arbitrage.ts:97 | the stake fractions of a plan, in order |
| Arbitrage.StakeAmounts | server/workers/arbitrage.ts:98 | the stake amounts of a plan, in order |
| Arbitrage.EqualPayouts | server/workers/arbitrage.ts:96-109 | every stake of a plan pays the same, the bankroll over the implied sum, whichever runner wins |
| Arbitrage.StakesSpendBankroll | server/workers/arbitrage.ts:96-109 | the fractions sum to 1 and the amounts to the whole bankroll |
| Arbitrage.GuaranteedProfit | server/workers/arbitrage.ts:93-94 | the profit fraction is `1 / sum - 1`, and every leg's payout less the bankroll is that fraction of the bankroll |
| Arbitrage.StakesValid | server/workers/arbitrage.ts:96-109 | for a non-negative bankroll every stake satisfies the stake schema |
| Arbitrage.GroupOpportunitySound | server/workers/arbitrage.ts:124-150 | a group yields an opportunity exactly when it has enough distinct providers, at least two quotes, an implied sum below 1 and an edge of at least the minimum; the opportunity is sound |
| Arbitrage.PlanSound | server/workers/arbitrage.ts:132-150 | an emitted opportunity has implied sum in (0, 1), profit `1 / sum - 1` at least the minimum edge, the options' bankroll, the clock's time, equal payouts, fractions summing to 1 and enough providers |
| Arbitrage.EdgeCondition | server/workers/arbitrage.ts:134 | the edge filter `1 / s - 1 >= m` holds exactly when `(1 + m) s <= 1` |
| Arbitrage.Collect | server/workers/arbitrage.ts:124-151 | at most one opportunity per group |
| Arbitrage.CollectSound | server/workers/arbitrage.ts:124-151 | every collected opportunity is sound |
| Arbitrage.Groups | server/workers/arbitrage.ts:119-120 | the groups of kept quotes are made of well-formed quotes |
| Arbitrage.Detect | server/workers/arbitrage.ts:114-156 | the opportunities come out ordered by descending profit fraction |
| Arbitrage.DetectArbitrageOpportunities | server/workers/arbitrage.ts:114-156 | the method computes exactly `Detect` |
| Arbitrage.CollectOpportunities | server/workers/arbitrage.ts:124-151 | the loop over the groups computes exactly `Collect` |
| Arbitrage.OpportunityOf | server/workers/arbitrage.ts:125-150 | one loop iteration computes exactly the group's opportunity |
| Arbitrage.DetectSound | server/workers/arbitrage.ts:114-156 | every detected opportunity is sound |
| Arbitrage.DetectValid | shared/schema.ts:115-126 | for a non-negative bankroll every detected opportunity passes the opportunity schema: a creation time and valid stakes |
| Arbitrage.DetectBestArbitrage | server/workers/arbitrage.ts:158-164 | nothing exactly when nothing is detected; otherwise a detected opportunity with the highest profit fraction |
| Arbitrage.SingleProviderNoArbitrage | server/workers/arbitrage.ts:125-130 | with a minimum of two or more providers, the default included, markets from one provider yield no opportunity |
| Arbitrage.GroupsFromProvider | server/workers/arbitrage.ts:119-120 | quotes of one provider group into quotes of that provider |
| Arbitrage.CollectNone | server/workers/arbitrage.ts:124-151 | groups that each yield nothing collect nothing |
| ArbitrageService.QuoteOf | analytics-service/src/main/java/com/bettingarbitrage/analytics/service/ArbitrageService.java:300-312 | a quote copies the snapshot's event, market, runner and provider, takes its odds, and has implied probability `1 / odds` |
| ArbitrageService.Quotes | analytics-service/src/main/java/com/bettingarbitrage/analytics/service/ArbitrageService.java:260-265 | the candidate quote of each snapshot, in order |
| ArbitrageService.BestQuotesByRunner | analytics-service/src/main/java/com/bettingarbitrage/analytics/service/ArbitrageService.java:258-268 | the loop builds exactly the keep-best fold, keyed by event, lower-cased market name and runner id |
| ArbitrageService.BestQuoteAt | analytics-service/src/main/java/com/bettingarbitrage/analytics/service/ArbitrageService.java:258-268 | each kept entry is the quote of a snapshot with the highest odds of its key, the first to reach them |
| ArbitrageService.BestQuotesComplete | analytics-service/src/main/java/com/bettingarbitrage/analytics/service/ArbitrageService.java:258-268 | the kept quotes have distinct keys, and every snapshot's key has a kept quote |
| ArbitrageService.BestQuotesSatisfy | analytics-service/src/main/java/com/bettingarbitrage/analytics/service/ArbitrageService.java:258-268 | a property of every snapshot's quote holds for every kept quote |
| ArbitrageService.GroupByEventAndMarket | analytics-service/src/main/java/com/bettingarbitrage/analytics/service/ArbitrageService.java:270-277 | the loop builds exactly the grouping of the kept quotes by event and lower-cased market name |
| ArbitrageService.Groups | analytics-service/src/main/java/com/bettingarbitrage/analytics/service/ArbitrageService.java:32-33 | every group holds well-formed quotes |
| ArbitrageService.GroupsShareEventMarket | analytics-service/src/main/java/com/bettingarbitrage/analytics/service/ArbitrageService.java:270-285 | every group is non-empty and all its quotes share one event and market key |
| ArbitrageService.ImpliedSumPositive | analytics-service/src/main/java/com/bettingarbitrage/analytics/service/ArbitrageService.java:41-43 | a non-empty group of positive-odds quotes has a positive implied sum |
| ArbitrageService.Stakes | analytics-service/src/main/java/com/bettingarbitrage/analytics/service/ArbitrageService.java:114-132 | one stake per quote |
| ArbitrageService.StakeAt | analytics-service/src/main/java/com/bettingarbitrage/analytics/service/ArbitrageService.java:116-129 | stake i carries quote i's runner name, provider and odds |
| ArbitrageService.CalculateStakes | analytics-service/src/main/java/com/bettingarbitrage/analytics/service/ArbitrageService.java:114-132 | the loop computes exactly the stake list |
| ArbitrageService.StakeFractions | analytics-service/src/main/java/com/bettingarbitrage/analytics/service/ArbitrageService.java:117 | the stake fractions, in order |
| ArbitrageService.StakeAmounts | analytics-service/src/main/java/com/bettingarbitrage/analytics/service/ArbitrageService.java:118 | the stake amounts, in order |
| ArbitrageService.LegPayout | analytics-service/src/main/java/com/bettingarbitrage/analytics/service/ArbitrageService.java:117-119 | a leg staked by its share of the implied sum pays the bankroll over the sum |
| ArbitrageService.StakesSpendBankroll | analytics-service/src/main/java/com/bettingarbitrage/analytics/service/ArbitrageService.java:114-132 | the fractions sum to 1 and the amounts to the bankroll |
| ArbitrageService.FractionsScaleImplieds | analytics-service/src/main/java/com/bettingarbitrage/analytics/service/ArbitrageService.java:117 | each fraction is the quote's implied probability over the sum |
| ArbitrageService.EqualPayouts | analytics-service/src/main/java/com/bettingarbitrage/analytics/service/ArbitrageService.java:114-132 | every stake pays the same, the bankroll over the implied sum |
| ArbitrageService.Bankroll | analytics-service/src/main/java/com/bettingarbitrage/analytics/service/ArbitrageService.java:48 | the bankroll used is positive: the request's when positive, otherwise 1000 |
| ArbitrageService.BaseOpportunity | analytics-service/src/main/java/com/bettingarbitrage/analytics/service/ArbitrageService.java:92-112 | the response copies the first quote's event and market, the sum, the profit fraction, the bankroll, the stakes and the clock's time, with no metrics or simulation yet |
| ArbitrageService.Opportunity | analytics-service/src/main/java/com/bettingarbitrage/analytics/service/ArbitrageService.java:49-59 | the emitted response has the group's implied sum, profit fraction `1 / sum - 1`, the bankroll and the time, and carries metrics and a simulation |
| ArbitrageService.GroupOpportunity | analytics-service/src/main/java/com/bettingarbitrage/analytics/service/ArbitrageService.java:36-61 | a group is emitted exactly when it has at least two quotes, an implied sum in (0, 1) and an edge of at least the request's minimum |
| ArbitrageService.BuildOpportunity | analytics-service/src/main/java/com/bettingarbitrage/analytics/service/ArbitrageService.java:37-59 | one loop iteration computes exactly the group's response |
| ArbitrageService.EmitOpportunity | analytics-service/src/main/java/com/bettingarbitrage/analytics/service/ArbitrageService.java:55-59 | the stakes, response, metrics and simulation built for a passing group are exactly `Opportunity` |
| ArbitrageService.GroupStep | analytics-service/src/main/java/com/bettingarbitrage/analytics/service/ArbitrageService.java:36-61 | the per-group step is defined on every well-formed group |
| ArbitrageService.GroupStepApplies | analytics-service/src/main/java/com/bettingarbitrage/analytics/service/ArbitrageService.java:36-61 | the step applied to a group is that group's response, with the random stream resumed where the last group left it |
| ArbitrageService.WellFormedSteppable | analytics-service/src/main/java/com/bettingarbitrage/analytics/service/ArbitrageService.java:36 | well-formed groups can all be stepped |
| ArbitrageService.Collect | analytics-service/src/main/java/com/bettingarbitrage/analytics/service/ArbitrageService.java:36-61 | at most one response per group |
| ArbitrageService.CollectStep | analytics-service/src/main/java/com/bettingarbitrage/analytics/service/ArbitrageService.java:36-61 | one more group appends its response, if any, and each emitted response consumes 2000 draws |
| ArbitrageService.CollectedFrom | analytics-service/src/main/java/com/bettingarbitrage/analytics/service/ArbitrageService.java:36-61 | every collected response is some group's response |
| ArbitrageService.Emitted | analytics-service/src/main/java/com/bettingarbitrage/analytics/service/ArbitrageService.java:60 | `add` appends the response when there is one, and changes nothing otherwise |
| ArbitrageService.Analyze | analytics-service/src/main/java/com/bettingarbitrage/analytics/service/ArbitrageService.java:30-65 | the responses come out ordered by descending profit fraction |
| ArbitrageService.GroupStepStepsGroups | analytics-service/src/main/java/com/bettingarbitrage/analytics/service/ArbitrageService.java:36-61 | the step is the group response for every group and draw offset |
| ArbitrageService.CollectGroups | analytics-service/src/main/java/com/bettingarbitrage/analytics/service/ArbitrageService.java:36-61 | the loop over the groups computes exactly `Collect` |
| ArbitrageService.ApplyStep | analytics-service/src/main/java/com/bettingarbitrage/analytics/service/ArbitrageService.java:36-61 | one loop iteration extends the collected prefix by one group |
| ArbitrageService.StepOpportunity | analytics-service/src/main/java/com/bettingarbitrage/analytics/service/ArbitrageService.java:37-59 | one iteration's response is the step's value for that group |
| ArbitrageService.AnalyzeSnapshot | analytics-service/src/main/java/com/bettingarbitrage/analytics/service/ArbitrageService.java:30-65 | the method computes exactly `Analyze` |
| ArbitrageService.GrowsOverFraction | analytics-service/src/main/java/com/bettingarbitrage/analytics/service/ArbitrageService.java:49-50 | below an implied sum of 1 the payout exceeds the bankroll by the profit fraction times the bankroll |
| ArbitrageService.LegKellyPositive | analytics-service/src/main/java/com/bettingarbitrage/analytics/service/ArbitrageService.java:166-180 | in a group with implied sum below 1 every leg's Kelly value is positive |
| ArbitrageService.CertainFigures | analytics-service/src/main/java/com/bettingarbitrage/analytics/service/ArbitrageService.java:134-256 | when every leg pays the same amount above the bankroll, the metrics and the simulation all report that profit, with zero spread, win probability 1, no Sharpe ratio and a positive Kelly fraction |
| ArbitrageService.BalancedFromStakes | analytics-service/src/main/java/com/bettingarbitrage/analytics/service/ArbitrageService.java:49-59 | an emitted response is a balanced book |
| ArbitrageService.RisklessFromStakes | analytics-service/src/main/java/com/bettingarbitrage/analytics/service/ArbitrageService.java:55-59 | an emitted response's metrics and simulation report its certain profit |
| ArbitrageService.OpportunitySound | analytics-service/src/main/java/com/bettingarbitrage/analytics/service/ArbitrageService.java:49-59 | every emitted response is balanced, and with an exact square root riskless |
| ArbitrageService.RisklessReportsProfit | analytics-service/src/main/java/com/bettingarbitrage/analytics/service/ArbitrageService.java:57-59 | the figures of a balanced, riskless response equal its guaranteed profit |
| ArbitrageService.GroupOpportunitySound | analytics-service/src/main/java/com/bettingarbitrage/analytics/service/ArbitrageService.java:36-61 | a group's response is balanced, meets the minimum edge, uses the request's bankroll and the clock's time |
| ArbitrageService.SoundPermuted | analytics-service/src/main/java/com/bettingarbitrage/analytics/service/ArbitrageService.java:63 | sorting keeps every response sound |
| ArbitrageService.AnalyzeSound | analytics-service/src/main/java/com/bettingarbitrage/analytics/service/ArbitrageService.java:30-65 | every response of `analyzeSnapshot` is sound |
| ArbitrageService.RebuiltQuotes | analytics-service/src/main/java/com/bettingarbitrage/analytics/service/ArbitrageService.java:74-87 | one rebuilt quote per stake, without runner id, with the stake's odds and implied probability fraction times sum |
| ArbitrageService.Simulate | analytics-service/src/main/java/com/bettingarbitrage/analytics/service/ArbitrageService.java:67-90 | a failure exactly when the trial count, 2000 by default, is not positive; otherwise a summary of that many trials |
| ArbitrageService.RunSimulation | analytics-service/src/main/java/com/bettingarbitrage/analytics/service/ArbitrageService.java:67-90 | the method computes exactly `Simulate` |
| ArbitrageService.RebuiltSum | analytics-service/src/main/java/com/bettingarbitrage/analytics/service/ArbitrageService.java:74-87 | the rebuilt quotes of a balanced book sum to its implied sum again |
| ArbitrageService.ResimulateBalanced | analytics-service/src/main/java/com/bettingarbitrage/analytics/service/ArbitrageService.java:67-90 | re-simulating a balanced book gives every trial the same profit, payout less bankroll, with no spread |
| ArbitrageService.BalancedProfit | analytics-service/src/main/java/com/bettingarbitrage/analytics/service/ArbitrageService.java:49-50 | a balanced book's payout less its bankroll is its guaranteed profit, which is positive |
| ArbitrageService.ResimulateReproducesProfit | analytics-service/src/main/java/com/bettingarbitrage/analytics/service/ArbitrageService.java:67-90 | re-simulating an analysed opportunity at its own bankroll reports its guaranteed profit as the mean, positive in every trial |
| ServiceRisk.Implieds | analytics-service/src/main/java/com/bettingarbitrage/analytics/service/ArbitrageService.java:136 | the implied probabilities of the quotes, in order |
| ServiceRisk.Probabilities | analytics-service/src/main/java/com/bettingarbitrage/analytics/service/ArbitrageService.java:143 | each outcome's probability is its implied probability over the normaliser |
| ServiceRisk.ProbabilitiesNormalised | analytics-service/src/main/java/com/bettingarbitrage/analytics/service/ArbitrageService.java:136-143 | the outcome probabilities sum to 1, and are positive when the implied probabilities are |
| ServiceRisk.Payouts | analytics-service/src/main/java/com/bettingarbitrage/analytics/service/ArbitrageService.java:227 | the stake payouts, in order |
| ServiceRisk.Profits | analytics-service/src/main/java/com/bettingarbitrage/analytics/service/ArbitrageService.java:144-145 | each outcome's profit is its stake's payout less the bankroll |
| ServiceRisk.Weighted | analytics-service/src/main/java/com/bettingarbitrage/analytics/service/ArbitrageService.java:146 | each term is probability times value |
| ServiceRisk.WinShares | analytics-service/src/main/java/com/bettingarbitrage/analytics/service/ArbitrageService.java:159-164 | an outcome contributes its probability exactly when its profit is positive |
| ServiceRisk.WinProbability | analytics-service/src/main/java/com/bettingarbitrage/analytics/service/ArbitrageService.java:203 | the reported win probability is at most 1, and not negative for non-negative probabilities |
| ServiceRisk.LegKelly | analytics-service/src/main/java/com/bettingarbitrage/analytics/service/ArbitrageService.java:167-180 | each leg's Kelly value lies in [0, 1], is 0 for even odds of 1, and is positive exactly when the leg's edge exceeds 1 |
| ServiceRisk.QuotientSign | analytics-service/src/main/java/com/bettingarbitrage/analytics/service/ArbitrageService.java:174 | dividing by a positive `b` keeps the sign |
| ServiceRisk.LegKellys | analytics-service/src/main/java/com/bettingarbitrage/analytics/service/ArbitrageService.java:166-180 | the Kelly value of each leg, in order |
| ServiceRisk.MaxOrZero | analytics-service/src/main/java/com/bettingarbitrage/analytics/service/ArbitrageService.java:181-182 | `max().orElse(0.0)`: 0 for no legs, otherwise an element no smaller than any other |
| ServiceRisk.KellyOf | analytics-service/src/main/java/com/bettingarbitrage/analytics/service/ArbitrageService.java:166-182 | the reported Kelly fraction lies in [0, 1], is some leg's value, and is at least every leg's value |
| ServiceRisk.Sharpe | analytics-service/src/main/java/com/bettingarbitrage/analytics/service/ArbitrageService.java:193-199 | a Sharpe ratio is reported exactly when the deviation is positive |
| ServiceRisk.RiskMetricsOf | analytics-service/src/main/java/com/bettingarbitrage/analytics/service/ArbitrageService.java:134-209 | the Sharpe ratio is present exactly when the deviation is positive, the drawdown is absent, the win probability is at most 1 and the Kelly fraction in [0, 1] |
| ServiceRisk.ExpectedProfit | analytics-service/src/main/java/com/bettingarbitrage/analytics/service/ArbitrageService.java:138-147 | the first loop yields each outcome's profit and the probability-weighted expected profit |
| ServiceRisk.VarianceLoop | analytics-service/src/main/java/com/bettingarbitrage/analytics/service/ArbitrageService.java:149-155 | the second loop yields the probability-weighted squared deviation |
| ServiceRisk.WinLoop | analytics-service/src/main/java/com/bettingarbitrage/analytics/service/ArbitrageService.java:158-164 | the third loop sums the probabilities of the winning outcomes |
| ServiceRisk.CalculateRiskMetrics | analytics-service/src/main/java/com/bettingarbitrage/analytics/service/ArbitrageService.java:134-209 | the method computes exactly `RiskMetricsOf` |
| ServiceRisk.ValueAtRiskIsAProfit | analytics-service/src/main/java/com/bettingarbitrage/analytics/service/ArbitrageService.java:184-190 | the value at risk is 0 for no outcomes and otherwise one of the profits; under 40 outcomes it is the smallest profit |
| ServiceRisk.ConstantExpectation | analytics-service/src/main/java/com/bettingarbitrage/analytics/service/ArbitrageService.java:138-155 | equal profits give that profit as the expectation and zero variance |
| ServiceRisk.CertainWin | analytics-service/src/main/java/com/bettingarbitrage/analytics/service/ArbitrageService.java:158-164 | equal profits win with probability 1 when positive and 0 otherwise |
| ServiceRisk.ConstantValueAtRisk | analytics-service/src/main/java/com/bettingarbitrage/analytics/service/ArbitrageService.java:184-190 | equal profits give that profit as the value at risk |
| ServiceRisk.EqualPayoutsRiskless | analytics-service/src/main/java/com/bettingarbitrage/analytics/service/ArbitrageService.java:134-209 | when every leg pays the same, the metrics report that payout less the bankroll, with no deviation and no Sharpe ratio |
| ServiceRisk.Credited | analytics-service/src/main/java/com/bettingarbitrage/analytics/service/ArbitrageService.java:224-230 | the inner loop credits one leg, never past the last |
| ServiceRisk.CreditedIsFirst | analytics-service/src/main/java/com/bettingarbitrage/analytics/service/ArbitrageService.java:224-230 | the credited leg is the first whose cumulative probability reaches the sample, or the last leg |
| ServiceRisk.TrialProfit | analytics-service/src/main/java/com/bettingarbitrage/analytics/service/ArbitrageService.java:221-231 | a trial's profit is one leg's payout less the bankroll, or minus the bankroll with no legs |
| ServiceRisk.Outcomes | analytics-service/src/main/java/com/bettingarbitrage/analytics/service/ArbitrageService.java:218-232 | one outcome per trial, trial i settled on draw i of the random stream |
| ServiceRisk.IndicesInRange | analytics-service/src/main/java/com/bettingarbitrage/analytics/service/ArbitrageService.java:242-243 | for at least one trial the 5th and 95th percentile indices are in range and ordered |
| ServiceRisk.PositiveFraction | analytics-service/src/main/java/com/bettingarbitrage/analytics/service/ArbitrageService.java:246-252 | the share of positive outcomes lies in [0, 1] |
| ServiceRisk.OrderStatistic | analytics-service/src/main/java/com/bettingarbitrage/analytics/service/ArbitrageService.java:241-245 | an order statistic is one of the outcomes |
| ServiceRisk.SummaryOf | analytics-service/src/main/java/com/bettingarbitrage/analytics/service/ArbitrageService.java:234-255 | the summary reports the trial count, a positive share in [0, 1] and ordered percentiles |
| ServiceRisk.MonteCarloOf | analytics-service/src/main/java/com/bettingarbitrage/analytics/service/ArbitrageService.java:211-256 | a failure exactly when the trial count is not positive |
| ServiceRisk.Trials | analytics-service/src/main/java/com/bettingarbitrage/analytics/service/ArbitrageService.java:218-232 | the trial loop computes exactly `Outcomes` |
| ServiceRisk.RunMonteCarlo | analytics-service/src/main/java/com/bettingarbitrage/analytics/service/ArbitrageService.java:211-256 | the method computes exactly `MonteCarloOf` |
| ServiceRisk.ConstantPositiveFraction | analytics-service/src/main/java/com/bettingarbitrage/analytics/service/ArbitrageService.java:246-252 | equal outcomes are all positive or none |
| ServiceRisk.ConstantSpread | analytics-service/src/main/java/com/bettingarbitrage/analytics/service/ArbitrageService.java:234-239 | equal outcomes have no spread |
| ServiceRisk.ConstantSummary | analytics-service/src/main/java/com/bettingarbitrage/analytics/service/ArbitrageService.java:234-255 | equal outcomes give that value as mean and both percentiles, zero deviation and a positive share of 1 or 0 |
| ServiceRisk.EqualPayoutsCertain | analytics-service/src/main/java/com/bettingarbitrage/analytics/service/ArbitrageService.java:211-256 | when every leg pays the same, every trial yields that payout less the bankroll, whatever the random draws |
| Features.FeatureVector | server/ml/features.ts:14-40 | eight features: odds, implied, consensus and closing probability, minutes to start, Elo difference and sum when both ratings are present (else 0 and 0), and 1 exactly when the runner is the home team, 0 exactly when not |
| Features.BuildFeatureVector | server/ml/features.ts:14-40 | the pushes build exactly `FeatureVector` |
| Features.FeatureMatrix | server/ml/features.ts:42-46 | one eight-feature row per sample, in order |
| Features.LabelVector | server/ml/features.ts:48-50 | one label per sample, each 0 or 1 |
| Features.ColumnTerms | server/ml/features.ts:68-83 | a column's terms, with 0 where a shorter row has no entry |
| Features.Means | server/ml/features.ts:64-76 | one mean per column of the first row, each the column total over the row count |
| Features.VarianceDivisor | server/ml/features.ts:86 | `Math.max(n - 1, 1)` is at least 1 |
| Features.SquaredTotal | server/ml/features.ts:78-83 | a column's total squared deviation is not negative |
| Features.FinishedStd | server/ml/features.ts:85-90 | a finished deviation is never 0 (0 and non-finite become 1), and positive for an exact square root |
| Features.ColumnStd | server/ml/features.ts:85-90 | every column's deviation is non-zero, and positive for an exact square root |
| Features.Stds | server/ml/features.ts:85-90 | one deviation per column of the first row |
| Features.StatsOf | server/ml/features.ts:57-93 | empty statistics for an empty matrix; otherwise each column's mean and non-zero deviation |
| Features.ColumnStep | server/ml/features.ts:68-72 | one more row adds its entry's term to the column total |
| Features.AccumulateColumns | server/ml/features.ts:65-83 | the accumulation loops leave each column's total of terms in the array |
| Features.AddRow | server/ml/features.ts:69-71 | one `forEach` adds a row's terms to the column totals |
| Features.ComputeStandardizationStats | server/ml/features.ts:57-93 | the method computes exactly `StatsOf` |
| Features.DivideByRows | server/ml/features.ts:74-76 | dividing each total by the row count gives the means |
| Features.FinishDeviations | server/ml/features.ts:85-90 | the last loop turns the squared totals into the deviations |
| Features.StandardizeValue | server/ml/features.ts:100 | a standardised value is finite exactly when its column has a mean and a non-zero deviation |
| Features.StandardizeMatrix | server/ml/features.ts:95-102 | the result has the matrix's shape, each entry standardised by its column's statistics |
| Features.OwnStatsFinite | server/ml/features.ts:57-102 | standardising a matrix by its own statistics gives finite values everywhere |
| Features.StandardizedColumnCentred | server/ml/features.ts:95-102 | a column standardised by its own mean sums to zero |
| Features.StandardizedEntry | server/ml/features.ts:100 | an entry is the value less the column mean over the column deviation |
| Features.OwnStatsCentred | server/ml/features.ts:57-102 | in a rectangular matrix every column standardised by its own statistics sums to zero |
| Features.TrainingShapes | server/ml/features.ts:42-93 | features and labels have equal length, every row has eight features and the statistics cover all eight |
| Predictions.Minimum | server/ml/predictions.ts:5 | `Math.min` of a non-empty series is one of its values and no larger than any |
| Predictions.Maximum | server/ml/predictions.ts:6 | `Math.max` of a non-empty series is one of its values and no smaller than any |
| Predictions.Normalize | server/ml/predictions.ts:4-8 | one value per input, each rescaled by the series' minimum and maximum |
| Predictions.RescaleBounds | server/ml/predictions.ts:7 | a value between the extremes lands in [0, 1] |
| Predictions.RescaleEnds | server/ml/predictions.ts:7 | the minimum lands on 0 and the maximum on 1 |
| Predictions.RescaleUnit | server/ml/predictions.ts:7 | rescaling by the unit interval is the identity |
| Predictions.RescaleOrder | server/ml/predictions.ts:7 | rescaling keeps the order of two values, in both directions |
| Predictions.NormalizeRange | server/ml/predictions.ts:4-8 | a series that is not flat normalises into [0, 1], its minimum to 0 and its maximum to 1 |
| Predictions.NormalizeOrder | server/ml/predictions.ts:4-8 | normalising keeps the order of any two values, in both directions |
| Predictions.NormalizeFlat | server/ml/predictions.ts:7 | a flat series normalises to NaN everywhere |
| Predictions.Values | server/ml/predictions.ts:4-8 | the numbers of a finite normalised series |
| Predictions.NormalizeIdempotent | server/ml/predictions.ts:4-8 | normalising a normalised series changes nothing |
| Predictions.NormalizedSpansUnit | server/ml/predictions.ts:4-8 | a normalised series that is not flat has extremes 0 and 1 |
| Predictions.UnitSpanFixed | server/ml/predictions.ts:4-8 | a series spanning exactly [0, 1] normalises to itself |
| Predictions.Windows | server/ml/predictions.ts:18-19 | one window of `lookback` values per position with a value `lookback` places on, none for a short series |
| Predictions.Targets | server/ml/predictions.ts:18-20 | one target per window, the value right after it |
| Predictions.CreateSequences | server/ml/predictions.ts:11-24 | the loop computes exactly the windows and targets |
| Predictions.WindowsSlide | server/ml/predictions.ts:18-21 | consecutive windows share all but one value, and a window's target is the newest value of the next |
| Predictions.SequencesCoverData | server/ml/predictions.ts:11-24 | the first window followed by the targets is the whole series |
| SparkBacktest.Returns | spark-backtester/backtest.py:91-97 | one selection and payout per leg |
| SparkBacktest.ReturnAt | spark-backtester/backtest.py:93-97 | entry i of `return_per_leg` is leg i's selection and payout |
| SparkBacktest.FirstPayout | spark-backtester/backtest.py:101 | `next` finds nothing exactly when no selection is the winner; otherwise the payout of the first selection that is |
| SparkBacktest.SimulateOf | spark-backtester/backtest.py:85-110 | no trade exactly for an implied sum of at least 1 or fewer than two legs; a division error exactly for a zero sum; otherwise a trade on the row's event, market and timestamp, staking the bankroll, with payout equal to stake plus profit |
| SparkBacktest.Simulate | spark-backtester/backtest.py:85-110 | the method computes exactly `SimulateOf` |
| SparkBacktest.ReturnPerLeg | spark-backtester/backtest.py:91-97 | the loop computes exactly `Returns` |
| SparkBacktest.FindPayout | spark-backtester/backtest.py:101 | the scan computes exactly `FirstPayout` |
| SparkBacktest.PricedLegPays | spark-backtester/backtest.py:94-96 | a leg priced at `1 / odds` pays the bankroll over the implied sum |
| SparkBacktest.EqualReturns | spark-backtester/backtest.py:91-99 | every entry of `return_per_leg` pays the same, so the unused `guaranteed_profit` is every leg's profit |
| SparkBacktest.SettledTrade | spark-backtester/backtest.py:85-110 | when a leg wins the trade pays the bankroll over the sum, a profit for a positive bankroll; when none does the whole bankroll is lost |

## Left out

- PnlSimulator.Backtest: states the reported profit only to within a cent of the final bankroll less the starting bankroll. The source rounds the two separately from the unrounded bankroll, which the result does not carry.
- `fetchProviderPayload` and `ingestProvider` (server/workers/ingestOdds.ts:69-92, 250-264) are network I/O. The payload they validate is the `IngestOdds.Payload` datatype, so the zod validation of its shape is the type itself.
- Floating point: every quantity is an exact `real`. Double rounding is not modelled, and neither are results that would be NaN or infinite, except where `Numeric.Num` carries them (`Number` of a bad string, a flat series, `0/0` in the Monte Carlo probabilities, standardising by a missing statistic).
- `toFixed` for magnitudes of 1e21 and above (exponential notation) is not modelled. `Numeric.RoundFixed` rounds exactly.
- `Number(string)` is modelled for an optional sign, digits and one decimal point, with "" read as 0. Surrounding whitespace, exponents, hex literals and "Infinity" are not modelled.
- `toLowerCase` folds ASCII letters only. Other Unicode case mappings are not modelled.
- `Math.sqrt`, the clock, `Date.parse` and the random generators (`Math.random`, `ThreadLocalRandom`) come from the environment, so they are parameters. Nothing is claimed about the distribution of random results.
- Java `HashMap` iteration order is unspecified. The model iterates in insertion order. The final sort by profit is stable, so only the order among opportunities with equal profit fractions can differ from the service's.
- Java `null`s in requests are `Option`s. Null lists and null fields elsewhere in the data carriers are not modelled.
- Arbitrage.BestQuotesByRunner, Arbitrage.DetectArbitrageOpportunities and Arbitrage.DetectBestArbitrage require positive odds on every market. A market at odds 0 would give an infinite implied probability. Ingested records always have positive odds (shared/schema.ts:88).
- ArbitrageService.BestQuotesByRunner and ArbitrageService.AnalyzeSnapshot require positive odds on every snapshot, for the same reason. Snapshots come from the ingested markets.
- ArbitrageService.RunSimulation requires that the quotes rebuilt from the request have a non-zero implied sum (or that there are none). Otherwise every outcome probability is NaN. `ArbitrageService.ResimulateBalanced` proves that every opportunity the service itself reports meets this.
- Metrics.SharpeRatio requires a positive `periodsPerYear`. The default is 252; a zero or negative value gives Infinity or NaN through `Math.sqrt`.
- MonteCarlo.Percentile requires a rank in [0, 1]. The source only calls it with 0.1, 0.5 and 0.9; other ranks read outside the array.
- Features.ComputeStandardizationStats requires that no row be longer than the first. JavaScript would grow the statistics arrays with NaN entries for such a row.
- Predictions.CreateSequences takes `lookback` as a natural number. Negative or fractional look-backs are not modelled.
- Predictions.Normalize returns the empty series for empty input. The infinite extremes `Math.min()` and `Math.max()` give there are never used.
- `buildModel`, `trainModel` and `predictNextOdds` in server/ml/predictions.ts are TensorFlow calls and are not part of this model.
- The Spark DataFrame pipeline around `simulate` (spark-backtester/backtest.py:18-84, 112-131) is not part of this model: reading files, grouping, and writing the report. `str(row["timestamp"])` is taken to be already a string. The unused `guaranteed_profit` is only characterised by `SparkBacktest.EqualReturns`.
- The session store of `MemStorage` (server/storage.ts:57, 69-71) belongs to a session library.
- The dashboard's `opportunities` table (`getOpportunities` and `createOpportunity`, server/storage.ts:120-135) feeds only the web UI. It follows the same id-counter pattern as `createBettingSite`, which is modelled.
- Storage.MemStorage.GetArbitrageHistory returns the history sequence itself. The source's `slice()` copy matters only for mutation by the caller, and Dafny sequences are values.
- Storage.MemStorage.UpsertMarkets does not branch on an empty batch: `Storage.SetAndTrim` returns the table unchanged for an empty batch, which is the same observable result as the source's early return (`Storage.UpsertGet` states it).
- The drizzle table definitions and insert schemas of shared/schema.ts are database plumbing. The zod schemas are datatypes with validity predicates.
