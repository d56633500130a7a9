/** Monte Carlo bankroll paths (server/sim/montecarlo.ts). `Math.random` is an
    injected stream `draws`: the n-th call made during a run reads `draws(n)`,
    so consecutive paths continue where the previous one stopped. */
module MonteCarlo {
  import opened Wrappers
  import opened Numeric
  import Kelly
  import Metrics
  import Sorting

  /** `StrategyInput`. */
  datatype StrategyInput = StrategyInput(bankroll: real, index: nat)

  /** `StrategyDecision`. */
  datatype StrategyDecision = StrategyDecision(stakeAmount: real, oddsDecimal: real, winProbability: real)

  /** `StrategyFunction`. */
  type Strategy = StrategyInput -> StrategyDecision

  /** `MonteCarloOptions`; an omitted field is `None`. */
  datatype MonteCarloOptions = MonteCarloOptions(
    simulations: Option<int>,
    stepsPerSimulation: Option<int>,
    startingBankroll: Option<real>,
    strategy: Option<Strategy>,
    defaultOdds: Option<real>,
    defaultWinProbability: Option<real>,
    kellyFraction: Option<real>)

  /** The options after the defaults are spread under them (the strategy
      is chosen separately, see `ChooseStrategy`). */
  datatype Resolved = Resolved(
    simulations: int,
    stepsPerSimulation: int,
    startingBankroll: real,
    defaultOdds: real,
    defaultWinProbability: real,
    kellyFraction: real)

  const DefaultSimulations: int := 1000
  const DefaultSteps: int := 250
  const DefaultStartingBankroll: real := 10000.0
  const DefaultOdds: real := 2.0
  const DefaultWinProbability: real := 0.5
  const DefaultKellyFraction: real := 0.25

  function Resolve(options: MonteCarloOptions): Resolved
  {
    Resolved(
      options.simulations.GetOr(DefaultSimulations),
      options.stepsPerSimulation.GetOr(DefaultSteps),
      options.startingBankroll.GetOr(DefaultStartingBankroll),
      options.defaultOdds.GetOr(DefaultOdds),
      options.defaultWinProbability.GetOr(DefaultWinProbability),
      options.kellyFraction.GetOr(DefaultKellyFraction))
  }

  /** How many times `for (i = 0; i < n; i += 1)` runs. */
  function Iterations(n: int): nat
  {
    if n > 0 then n else 0
  }

  /* ---------- strategies ---------- */

  /** `defaultStrategyFactory`: fractional Kelly on the current bankroll
      with the default odds and win probability. */
  function DefaultStrategy(o: Resolved): Strategy
  {
    (input: StrategyInput) => StrategyDecision(
      Kelly.KellyStake(Kelly.KellyParams(input.bankroll, o.defaultWinProbability, o.defaultOdds,
        Some(o.kellyFraction), None, None)),
      o.defaultOdds,
      o.defaultWinProbability)
  }

  /** `options.strategy || defaultStrategyFactory(resolved)`. */
  function ChooseStrategy(options: MonteCarloOptions): (s: Strategy)
    ensures options.strategy.Some? ==> s == options.strategy.value
    ensures options.strategy.None? ==> s == DefaultStrategy(Resolve(options))
  {
    match options.strategy
    case Some(s) => s
    case None => DefaultStrategy(Resolve(options))
  }

  /** The default strategy never stakes a negative amount, and stakes
      nothing from an empty bankroll or at odds that cannot win money. */
  lemma DefaultStrategyStakes(o: Resolved, input: StrategyInput)
    ensures DefaultStrategy(o)(input).stakeAmount >= 0.0
    ensures input.bankroll <= 0.0 || o.defaultOdds <= 1.0 ==> DefaultStrategy(o)(input).stakeAmount == 0.0
    ensures DefaultStrategy(o)(input).oddsDecimal == o.defaultOdds
  {
  }

  /* ---------- one path ---------- */

  /** The bankroll of a path and how many draws the run has used so far. */
  datatype PathState = PathState(bankroll: real, used: nat)

  /** One iteration of the loop in `simulatePath`. */
  function Step(s: PathState, index: nat, strategy: Strategy, draws: nat -> real): PathState
  {
    var decision := strategy(StrategyInput(s.bankroll, index));
    var stake := Min(decision.stakeAmount, s.bankroll);
    if stake <= 0.0 then s
    else
      var afterStake := s.bankroll - stake;
      if draws(s.used) < decision.winProbability then PathState(afterStake + stake * decision.oddsDecimal, s.used + 1)
      else PathState(afterStake, s.used + 1)
  }

  /** The stake is the requested one lowered to the bankroll; a stake that
      is not positive leaves everything as it was and uses no draw;
      otherwise exactly one draw is used, a draw below the win probability
      nets stake * (odds - 1), and any other draw loses the stake. */
  lemma StepSettles(s: PathState, index: nat, strategy: Strategy, draws: nat -> real)
    ensures var decision := strategy(StrategyInput(s.bankroll, index));
      var stake := Min(decision.stakeAmount, s.bankroll);
      var r := Step(s, index, strategy, draws);
      stake <= s.bankroll && stake <= decision.stakeAmount &&
      (stake <= 0.0 ==> r == s) &&
      (stake > 0.0 ==> r.used == s.used + 1) &&
      (stake > 0.0 && draws(s.used) < decision.winProbability ==>
        r.bankroll == s.bankroll + stake * (decision.oddsDecimal - 1.0)) &&
      (stake > 0.0 && draws(s.used) >= decision.winProbability ==> r.bankroll == s.bankroll - stake)
  {
    var decision := strategy(StrategyInput(s.bankroll, index));
    var stake := Min(decision.stakeAmount, s.bankroll);
    Distribute(stake, decision.oddsDecimal);
  }

  lemma Distribute(stake: real, odds: real)
    ensures stake * (odds - 1.0) == stake * odds - stake
  {
  }

  /** The state after the steps 0 .. n - 1. */
  function Walk(start: PathState, n: nat, strategy: Strategy, draws: nat -> real): (r: PathState)
    ensures start.used <= r.used <= start.used + n
  {
    if n == 0 then start else Step(Walk(start, n - 1, strategy, draws), n - 1, strategy, draws)
  }

  /** The strategy only ever offers odds that are not negative. */
  ghost predicate NonNegativeOdds(strategy: Strategy)
  {
    forall input :: strategy(input).oddsDecimal >= 0.0
  }

  /** A step never takes a non-negative bankroll below zero. */
  lemma StepNonNegative(s: PathState, index: nat, strategy: Strategy, draws: nat -> real)
    requires s.bankroll >= 0.0 && NonNegativeOdds(strategy)
    ensures Step(s, index, strategy, draws).bankroll >= 0.0
  {
    var decision := strategy(StrategyInput(s.bankroll, index));
    var stake := Min(decision.stakeAmount, s.bankroll);
    if stake > 0.0 {
      assert decision.oddsDecimal >= 0.0;
      NonNegativeProduct(stake, decision.oddsDecimal);
    }
  }

  lemma NonNegativeProduct(a: real, b: real)
    requires a >= 0.0 && b >= 0.0
    ensures a * b >= 0.0
  {
    if a > 0.0 && b > 0.0 {
      PositiveProduct(a, b);
    }
  }

  /** With a non-negative starting bankroll and non-negative odds the
      bankroll of a path never goes negative. */
  lemma {:induction false} WalkNonNegative(start: PathState, n: nat, strategy: Strategy, draws: nat -> real)
    requires start.bankroll >= 0.0 && NonNegativeOdds(strategy)
    ensures Walk(start, n, strategy, draws).bankroll >= 0.0
  {
    if n > 0 {
      WalkNonNegative(start, n - 1, strategy, draws);
      StepNonNegative(Walk(start, n - 1, strategy, draws), n - 1, strategy, draws);
    }
  }

  /** `simulatePath` as a value: the final bankroll to the cent, and the
      draw counter after the path. */
  function PathResult(o: Resolved, strategy: Strategy, draws: nat -> real, used: nat): (real, nat)
  {
    var s := Walk(PathState(o.startingBankroll, used), Iterations(o.stepsPerSimulation), strategy, draws);
    (RoundFixed(s.bankroll, 2), s.used)
  }

  /** `simulatePath`. */
  method SimulatePath(o: Resolved, strategy: Strategy, draws: nat -> real, used: nat) returns (finalBankroll: real, next: nat)
    ensures (finalBankroll, next) == PathResult(o, strategy, draws, used)
  {
    var bankroll := o.startingBankroll;
    next := used;
    var step := 0;
    while step < o.stepsPerSimulation
      invariant 0 <= step <= Iterations(o.stepsPerSimulation)
      invariant PathState(bankroll, next) == Walk(PathState(o.startingBankroll, used), step, strategy, draws)
    {
      var decision := strategy(StrategyInput(bankroll, step));
      var stake := Min(decision.stakeAmount, bankroll);
      if stake <= 0.0 {
        step := step + 1;
        continue;
      }
      bankroll := bankroll - stake;
      var win := draws(next) < decision.winProbability;
      next := next + 1;
      if win {
        bankroll := bankroll + stake * decision.oddsDecimal;
      }
      step := step + 1;
    }
    finalBankroll := RoundFixed(bankroll, 2);
  }

  /** A path whose strategy never offers positive-edge odds (the default
      strategy with odds at most 1) stakes nothing: it ends on the starting
      bankroll to the cent and uses no draw. */
  lemma {:induction false} DefaultPathFlat(o: Resolved, draws: nat -> real, used: nat, n: nat)
    requires o.defaultOdds <= 1.0
    ensures Walk(PathState(o.startingBankroll, used), n, DefaultStrategy(o), draws) == PathState(o.startingBankroll, used)
  {
    if n > 0 {
      DefaultPathFlat(o, draws, used, n - 1);
      DefaultStrategyStakes(o, StrategyInput(o.startingBankroll, n - 1));
    }
  }

  /* ---------- percentile ---------- */

  /** The index the rank falls on, and the indices of its two neighbours. */
  function RankIndex(n: nat, rank: real): real
  {
    (n as real - 1.0) * rank
  }

  function Upper(index: real): int
  {
    if index.Floor as real == index then index.Floor else index.Floor + 1
  }

  lemma RankIndexBounds(n: nat, rank: real)
    requires n > 0 && 0.0 <= rank <= 1.0
    ensures 0.0 <= RankIndex(n, rank) <= n as real - 1.0
    ensures 0 <= RankIndex(n, rank).Floor <= Upper(RankIndex(n, rank)) < n
    ensures RankIndex(n, rank).Floor as real <= RankIndex(n, rank) <= Upper(RankIndex(n, rank)) as real
  {
    var m := n as real - 1.0;
    ScaleWithin(m, rank, RankIndex(n, rank));
  }

  lemma ScaleWithin(m: real, rank: real, index: real)
    requires m >= 0.0 && 0.0 <= rank <= 1.0 && index == m * rank
    ensures 0.0 <= index <= m
  {
    NonNegativeProduct(m, rank);
    NonNegativeProduct(m, 1.0 - rank);
  }

  /** `percentile`: linear interpolation at index (n - 1) * rank. */
  function Percentile(values: seq<real>, rank: real): (r: real)
    requires 0.0 <= rank <= 1.0
    ensures |values| == 0 ==> r == 0.0
  {
    if |values| == 0 then 0.0
    else
      RankIndexBounds(|values|, rank);
      var index := RankIndex(|values|, rank);
      var lower := index.Floor;
      var upper := Upper(index);
      if lower == upper then values[lower]
      else
        var weight := index - lower as real;
        values[lower] * (1.0 - weight) + values[upper] * weight
  }

  /** On sorted input the result lies between the two neighbours of the
      rank's index, so between the smallest and the largest value. */
  lemma PercentileBetween(values: seq<real>, rank: real)
    requires |values| > 0 && 0.0 <= rank <= 1.0
    requires forall i, j :: 0 <= i < j < |values| ==> values[i] <= values[j]
    ensures var index := RankIndex(|values|, rank);
      0 <= index.Floor <= Upper(index) < |values| &&
      values[index.Floor] <= Percentile(values, rank) <= values[Upper(index)]
    ensures values[0] <= Percentile(values, rank) <= values[|values| - 1]
  {
    RankIndexBounds(|values|, rank);
    var index := RankIndex(|values|, rank);
    var lower, upper := index.Floor, Upper(index);
    if lower != upper {
      var weight := index - lower as real;
      Interpolate(values[lower], values[upper], weight, Percentile(values, rank));
    }
  }

  /** a * (1 - w) + b * w lies between a and b. */
  lemma Interpolate(a: real, b: real, w: real, r: real)
    requires a <= b && 0.0 <= w <= 1.0
    requires r == a * (1.0 - w) + b * w
    ensures a <= r <= b
  {
    assert r == a + (b - a) * w;
    NonNegativeProduct(b - a, w);
    NonNegativeProduct(b - a, 1.0 - w);
  }

  /** Rank 0 is the first value and rank 1 the last; a rank whose index is
      a whole number k is exactly values[k]. */
  lemma PercentileAtIndex(values: seq<real>, rank: real, k: int)
    requires |values| > 0 && 0.0 <= rank <= 1.0
    requires RankIndex(|values|, rank) == k as real
    ensures 0 <= k < |values| && Percentile(values, rank) == values[k]
  {
    RankIndexBounds(|values|, rank);
  }

  lemma PercentileEnds(values: seq<real>)
    requires |values| > 0
    ensures Percentile(values, 0.0) == values[0]
    ensures Percentile(values, 1.0) == values[|values| - 1]
  {
    PercentileAtIndex(values, 0.0, 0);
    PercentileAtIndex(values, 1.0, |values| - 1);
  }

  /* ---------- the run ---------- */

  /** The final bankrolls of the first k paths, in path order, and the draw
      counter after them. */
  function Paths(o: Resolved, strategy: Strategy, draws: nat -> real, k: nat): (r: (seq<real>, nat))
    ensures |r.0| == k
  {
    if k == 0 then ([], 0)
    else
      var before := Paths(o, strategy, draws, k - 1);
      var path := PathResult(o, strategy, draws, before.1);
      (before.0 + [path.0], path.1)
  }

  /** Path i's entry is that path's result, started from the draw counter
      the earlier paths left: later paths never reorder earlier ones. */
  lemma {:induction false} PathsInOrder(o: Resolved, strategy: Strategy, draws: nat -> real, k: nat)
    ensures forall i :: 0 <= i < k ==>
      Paths(o, strategy, draws, k).0[i] == PathResult(o, strategy, draws, Paths(o, strategy, draws, i).1).0
  {
    if k > 0 {
      PathsInOrder(o, strategy, draws, k - 1);
      var before := Paths(o, strategy, draws, k - 1);
      var after := Paths(o, strategy, draws, k).0;
      assert after == before.0 + [PathResult(o, strategy, draws, before.1).0];
      forall i | 0 <= i < k - 1
        ensures after[i] == PathResult(o, strategy, draws, Paths(o, strategy, draws, i).1).0
      {
        assert after[i] == before.0[i];
      }
    }
  }

  /** `MonteCarloResultSummary`. The two probabilities are 0/0 (NaN) when
      no path is run. */
  datatype Summary = Summary(
    finalBankrolls: seq<real>,
    meanFinalBankroll: real,
    medianFinalBankroll: real,
    standardDeviation: real,
    probabilityOfLoss: Num,
    probabilityOfRuin: Num,
    percentile10: real,
    percentile90: real)

  /** The `paths` array of `runMonteCarlo`. */
  function FinalBankrolls(options: MonteCarloOptions, draws: nat -> real): (r: seq<real>)
    ensures |r| == Iterations(Resolve(options).simulations)
  {
    var o := Resolve(options);
    Paths(o, ChooseStrategy(options), draws, Iterations(o.simulations)).0
  }

  function Below(limit: real): real -> bool
  {
    v => v < limit
  }

  /** `filter((value) => value < limit).length / length`, to four decimals. */
  function FractionBelow(values: seq<real>, limit: real): Num
  {
    if |values| == 0 then NonFinite
    else Finite(RoundFixed(CountWhere(values, Below(limit)) as real / |values| as real, 4))
  }

  /** `pLoss`: the share of paths that end below the start. */
  function LossProbability(paths: seq<real>, start: real): Num
  {
    FractionBelow(paths, start)
  }

  /** `pRuin`: the share of paths that end below half the start. */
  function RuinProbability(paths: seq<real>, start: real): Num
  {
    FractionBelow(paths, start * 0.5)
  }

  /** A percentile of the sorted copy, to the cent. */
  function ReportedPercentile(values: seq<real>, rank: real): real
    requires 0.0 <= rank <= 1.0
  {
    RoundFixed(Percentile(Sorting.SortAscending(values), rank), 2)
  }

  /** `runMonteCarlo` as a value. */
  function MonteCarloRun(options: MonteCarloOptions, draws: nat -> real, sqrt: real -> real): Summary
  {
    var paths := FinalBankrolls(options, draws);
    var start := Resolve(options).startingBankroll;
    Summary(
      paths,
      RoundFixed(Metrics.Mean(paths), 2),
      ReportedPercentile(paths, 0.5),
      RoundFixed(Metrics.StandardDeviation(paths, sqrt), 2),
      LossProbability(paths, start),
      RuinProbability(paths, start),
      ReportedPercentile(paths, 0.1),
      ReportedPercentile(paths, 0.9))
  }

  /** The loop of `runMonteCarlo` that runs the paths one after another. */
  method CollectPaths(options: MonteCarloOptions, draws: nat -> real) returns (paths: seq<real>)
    ensures paths == FinalBankrolls(options, draws)
  {
    var o := Resolve(options);
    var strategy := ChooseStrategy(options);
    paths := [];
    var used: nat := 0;
    var sim := 0;
    while sim < o.simulations
      invariant 0 <= sim <= Iterations(o.simulations)
      invariant (paths, used) == Paths(o, strategy, draws, sim)
    {
      var finalBankroll;
      finalBankroll, used := SimulatePath(o, strategy, draws, used);
      paths := paths + [finalBankroll];
      sim := sim + 1;
    }
  }

  /** `runMonteCarlo`. */
  method RunMonteCarlo(options: MonteCarloOptions, draws: nat -> real, sqrt: real -> real) returns (r: Summary)
    ensures r == MonteCarloRun(options, draws, sqrt)
  {
    var start := Resolve(options).startingBankroll;
    var paths := CollectPaths(options, draws);
    var sorted := Sorting.SortAscending(paths);
    r := Summary(
      paths,
      RoundFixed(Metrics.Mean(paths), 2),
      RoundFixed(Percentile(sorted, 0.5), 2),
      RoundFixed(Metrics.StandardDeviation(paths, sqrt), 2),
      LossProbability(paths, start),
      RuinProbability(paths, start),
      RoundFixed(Percentile(sorted, 0.1), 2),
      RoundFixed(Percentile(sorted, 0.9), 2));
  }

  /** A fraction of a non-empty list lies in [0, 1]; of an empty one it is
      NaN. */
  lemma FractionBounds(values: seq<real>, limit: real)
    ensures FractionBelow(values, limit).Finite? <==> |values| > 0
    ensures |values| > 0 ==> 0.0 <= FractionBelow(values, limit).value <= 1.0
  {
    if |values| > 0 {
      var n := |values| as real;
      var c := CountWhere(values, Below(limit)) as real;
      DivideMonotone(0.0, c, n);
      DivideMonotone(c, n, n);
      assert n / n == 1.0;
      RoundFixedMonotone(0.0, c / n, 4);
      RoundFixedMonotone(c / n, 1.0, 4);
      assert Pow10(4) == 10000.0;
      RoundFixedOnGrid(0, 4);
      RoundFixedOnGrid(10000, 4);
    }
  }

  /** A lower limit never gives a larger fraction. */
  lemma FractionBelowMonotone(values: seq<real>, lower: real, limit: real)
    requires |values| > 0 && lower <= limit
    ensures FractionBelow(values, lower).value <= FractionBelow(values, limit).value
  {
    CountWhereMonotone(values, Below(lower), Below(limit));
    var n := |values| as real;
    var a, b := CountWhere(values, Below(lower)) as real, CountWhere(values, Below(limit)) as real;
    DivideMonotone(a, b, n);
    RoundFixedMonotone(a / n, b / n, 4);
  }

  /** With at least one path both probabilities are proper fractions, and
      with a non-negative starting bankroll ruin (below half the start) is
      never more likely than loss (below the start); with no path (the
      number of paths is the number of simulations, see `FinalBankrolls`)
      both are NaN. */
  lemma Probabilities(paths: seq<real>, start: real)
    ensures LossProbability(paths, start).Finite? <==> |paths| > 0
    ensures RuinProbability(paths, start).Finite? <==> |paths| > 0
    ensures |paths| > 0 ==> 0.0 <= LossProbability(paths, start).value <= 1.0
    ensures |paths| > 0 ==> 0.0 <= RuinProbability(paths, start).value <= 1.0
    ensures |paths| > 0 && start >= 0.0 ==>
      RuinProbability(paths, start).value <= LossProbability(paths, start).value
  {
    FractionBounds(paths, start);
    FractionBounds(paths, start * 0.5);
    if |paths| > 0 && start >= 0.0 {
      FractionBelowMonotone(paths, start * 0.5, start);
    }
  }

  /** With a non-negative start and a strategy that never offers negative
      odds, every path ends at a non-negative bankroll. */
  lemma FinalBankrollsNonNegative(options: MonteCarloOptions, draws: nat -> real)
    requires Resolve(options).startingBankroll >= 0.0
    requires NonNegativeOdds(ChooseStrategy(options))
    ensures forall i :: 0 <= i < |FinalBankrolls(options, draws)| ==> FinalBankrolls(options, draws)[i] >= 0.0
  {
    var o := Resolve(options);
    var strategy := ChooseStrategy(options);
    var k := Iterations(o.simulations);
    var paths := Paths(o, strategy, draws, k).0;
    PathsInOrder(o, strategy, draws, k);
    forall i | 0 <= i < k ensures paths[i] >= 0.0 {
      var used := Paths(o, strategy, draws, i).1;
      WalkNonNegative(PathState(o.startingBankroll, used), Iterations(o.stepsPerSimulation), strategy, draws);
    }
  }

  /** A reported percentile of values that are all at least lo is at
      least lo up to rounding to the cent, and the one of values all at
      most hi is at most hi; the one of an empty list is 0. */
  lemma ReportedPercentileBounds(values: seq<real>, rank: real, lo: real, hi: real)
    requires 0.0 <= rank <= 1.0
    ensures |values| == 0 ==> ReportedPercentile(values, rank) == 0.0
    ensures |values| > 0 && (forall i :: 0 <= i < |values| ==> lo <= values[i]) ==>
      RoundFixed(lo, 2) <= ReportedPercentile(values, rank)
    ensures |values| > 0 && (forall i :: 0 <= i < |values| ==> values[i] <= hi) ==>
      ReportedPercentile(values, rank) <= RoundFixed(hi, 2)
  {
    var sorted := Sorting.SortAscending(values);
    if |values| == 0 {
      assert Pow10(2) == 100.0;
      RoundFixedOnGrid(0, 2);
    } else {
      assert sorted[0] in multiset(values);
      assert sorted[|sorted| - 1] in multiset(values);
      PercentileBetween(sorted, rank);
      if forall i :: 0 <= i < |values| ==> lo <= values[i] {
        RoundFixedMonotone(lo, Percentile(sorted, rank), 2);
      }
      if forall i :: 0 <= i < |values| ==> values[i] <= hi {
        RoundFixedMonotone(Percentile(sorted, rank), hi, 2);
      }
    }
  }

  /** When every path ends at a non-negative bankroll, so do the mean, the
      median and both reported percentiles. */
  lemma SummaryNonNegative(paths: seq<real>, sqrt: real -> real)
    requires forall i :: 0 <= i < |paths| ==> paths[i] >= 0.0
    ensures RoundFixed(Metrics.Mean(paths), 2) >= 0.0
    ensures ReportedPercentile(paths, 0.5) >= 0.0
    ensures ReportedPercentile(paths, 0.1) >= 0.0 && ReportedPercentile(paths, 0.9) >= 0.0
  {
    if |paths| > 0 {
      Metrics.MeanAtLeast(paths, 0.0);
    }
    assert Pow10(2) == 100.0;
    RoundFixedOnGrid(0, 2);
    ReportedPercentileBounds(paths, 0.5, 0.0, 0.0);
    ReportedPercentileBounds(paths, 0.1, 0.0, 0.0);
    ReportedPercentileBounds(paths, 0.9, 0.0, 0.0);
  }
}
