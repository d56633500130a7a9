/** The risk side of the analytics service (ArbitrageService.java,
    `calculateRiskMetrics` and `runMonteCarlo`): outcome probabilities are
    the legs' implied probabilities normalised to sum to 1, and leg j's
    outcome is its payout less the bankroll. `Math.sqrt` is injected as
    `sqrt`, and the n-th `rng.nextDouble()` of a run is `draws(n)`. */
module ServiceRisk {
  import opened Wrappers
  import opened Numeric
  import opened ServiceModel
  import Metrics
  import Sorting

  const DefaultRiskFreeRate: real := 0.01
  const TradingDays: real := 252.0

  function IntMax(a: int, b: int): int { if a >= b then a else b }

  function IntMin(a: int, b: int): int { if a <= b then a else b }

  /* ---------- outcome probabilities ---------- */

  function Implieds(quotes: seq<RunnerQuote>): (r: seq<real>)
    ensures |r| == |quotes| && forall i :: 0 <= i < |quotes| ==> r[i] == quotes[i].impliedProbability
  {
    seq(|quotes|, i requires 0 <= i < |quotes| => quotes[i].impliedProbability)
  }

  /** `quotes.stream().mapToDouble(RunnerQuote::getImpliedProbability).sum()`. */
  function Normaliser(quotes: seq<RunnerQuote>): real
  {
    Sum(Implieds(quotes))
  }

  /** The legs can be normalised without dividing by zero. */
  predicate Normalisable(quotes: seq<RunnerQuote>)
  {
    |quotes| == 0 || Normaliser(quotes) != 0.0
  }

  /** `quote.getImpliedProbability() / normaliser`, leg by leg. */
  function Probabilities(quotes: seq<RunnerQuote>): (r: seq<real>)
    requires Normalisable(quotes)
    ensures |r| == |quotes|
    ensures forall i :: 0 <= i < |quotes| ==> r[i] == quotes[i].impliedProbability / Normaliser(quotes)
  {
    seq(|quotes|, i requires 0 <= i < |quotes| => quotes[i].impliedProbability / Normaliser(quotes))
  }

  /** The normalised probabilities sum to 1, and are positive when every
      implied probability is. */
  lemma ProbabilitiesNormalised(quotes: seq<RunnerQuote>)
    requires |quotes| > 0 && Normaliser(quotes) != 0.0
    ensures Sum(Probabilities(quotes)) == 1.0
    ensures (forall i :: 0 <= i < |quotes| ==> quotes[i].impliedProbability > 0.0) ==>
      forall i :: 0 <= i < |quotes| ==> Probabilities(quotes)[i] > 0.0
  {
    var n := Normaliser(quotes);
    var probs := Probabilities(quotes);
    forall i | 0 <= i < |quotes| ensures probs[i] == Implieds(quotes)[i] * (1.0 / n) {
    }
    SumScale(Implieds(quotes), probs, 1.0 / n);
    assert n * (1.0 / n) == 1.0;
    if forall i :: 0 <= i < |quotes| ==> quotes[i].impliedProbability > 0.0 {
      SumPositive(Implieds(quotes));
    }
  }

  /* ---------- risk metrics ---------- */

  function Payouts(stakes: seq<StakeResponse>): (r: seq<real>)
    ensures |r| == |stakes| && forall i :: 0 <= i < |stakes| ==> r[i] == stakes[i].payout
  {
    seq(|stakes|, i requires 0 <= i < |stakes| => stakes[i].payout)
  }

  /** `stake.getPayout() - bankroll`, leg by leg. */
  function Profits(stakes: seq<StakeResponse>, bankroll: real): (r: seq<real>)
    ensures |r| == |stakes| && forall i :: 0 <= i < |stakes| ==> r[i] == stakes[i].payout - bankroll
  {
    seq(|stakes|, i requires 0 <= i < |stakes| => stakes[i].payout - bankroll)
  }

  /** The terms `probability * x` of a probability-weighted sum. */
  function Weighted(probs: seq<real>, xs: seq<real>): (r: seq<real>)
    requires |probs| == |xs|
    ensures |r| == |xs| && forall i :: 0 <= i < |xs| ==> r[i] == probs[i] * xs[i]
  {
    seq(|xs|, i requires 0 <= i < |xs| => probs[i] * xs[i])
  }

  /** The terms the win-probability loop adds: a leg's probability when its
      profit is positive. */
  function WinShares(probs: seq<real>, profits: seq<real>): (r: seq<real>)
    requires |probs| == |profits|
    ensures |r| == |profits| && forall i :: 0 <= i < |profits| ==> r[i] == (if profits[i] > 0.0 then probs[i] else 0.0)
  {
    seq(|profits|, i requires 0 <= i < |profits| => if profits[i] > 0.0 then probs[i] else 0.0)
  }


  /** The loops' probability-weighted mean profit. */
  function ExpectedValue(probs: seq<real>, profits: seq<real>): real
    requires |probs| == |profits|
  {
    Sum(Weighted(probs, profits))
  }

  /** The probability-weighted squared deviation from the expected value. */
  function RiskVariance(probs: seq<real>, profits: seq<real>): real
    requires |probs| == |profits|
  {
    Sum(Weighted(probs, Metrics.SquaredDeviations(profits, ExpectedValue(probs, profits))))
  }

  /** `Math.sqrt(Math.max(variance, 0))`. */
  function RiskSpread(probs: seq<real>, profits: seq<real>, sqrt: real -> real): real
    requires |probs| == |profits|
  {
    sqrt(Max(RiskVariance(probs, profits), 0.0))
  }

  /** The summed probability of the legs that end in profit, capped at 1. */
  function WinProbability(probs: seq<real>, profits: seq<real>): (r: real)
    requires |probs| == |profits|
    ensures r <= 1.0
    ensures (forall i :: 0 <= i < |probs| ==> probs[i] >= 0.0) ==> r >= 0.0
  {
    var shares := WinShares(probs, profits);
    if forall i :: 0 <= i < |probs| ==> probs[i] >= 0.0 then
      SumNonNegative(shares);
      Min(1.0, Sum(shares))
    else
      Min(1.0, Sum(shares))
  }

  /** A leg's probability times its odds: above 1 when the leg has an edge. */
  function Edge(quote: RunnerQuote, normaliser: real): real
    requires normaliser != 0.0
  {
    quote.impliedProbability / normaliser * quote.odds
  }

  /** The Kelly stream's lambda for one leg: (p*b - q)/b clipped to [0, 1],
      and 0 for even odds (b = 0). With odds above evens the stake is
      positive exactly when the leg has an edge. */
  function LegKelly(quote: RunnerQuote, normaliser: real): (r: real)
    requires normaliser != 0.0
    ensures 0.0 <= r <= 1.0
    ensures quote.odds == 1.0 ==> r == 0.0
    ensures quote.odds > 1.0 ==> (r > 0.0 <==> Edge(quote, normaliser) > 1.0)
  {
    var probability := quote.impliedProbability / normaliser;
    var b := quote.odds - 1.0;
    var q := 1.0 - probability;
    if b == 0.0 then 0.0
    else
      var value := (probability * b - q) / b;
      assert b > 0.0 ==> (value > 0.0 <==> Edge(quote, normaliser) > 1.0) by {
        if b > 0.0 {
          assert probability * b - q == Edge(quote, normaliser) - 1.0;
          QuotientSign(probability * b - q, b);
        }
      }
      Min(1.0, Max(0.0, value))
  }

  lemma QuotientSign(v: real, b: real)
    requires b > 0.0
    ensures v / b > 0.0 <==> v > 0.0
  {
    if v > 0.0 { DivideMonotone(0.0, v, b); }
    if v / b > 0.0 { assert v == (v / b) * b; PositiveProduct(v / b, b); }
  }

  function LegKellys(quotes: seq<RunnerQuote>): (r: seq<real>)
    requires Normalisable(quotes)
    ensures |r| == |quotes| && forall i :: 0 <= i < |quotes| ==> r[i] == LegKelly(quotes[i], Normaliser(quotes))
  {
    seq(|quotes|, i requires 0 <= i < |quotes| => LegKelly(quotes[i], Normaliser(quotes)))
  }

  /** `.max(Double::compareTo).orElse(0.0)`. */
  function MaxOrZero(s: seq<real>): (r: real)
    ensures |s| == 0 ==> r == 0.0
    ensures |s| > 0 ==> (exists i :: 0 <= i < |s| && r == s[i]) && forall i :: 0 <= i < |s| ==> s[i] <= r
  {
    if |s| == 0 then 0.0
    else if |s| == 1 then s[0]
    else
      var front := s[..|s| - 1];
      assert forall i :: 0 <= i < |front| ==> front[i] == s[i];
      Max(MaxOrZero(front), s[|s| - 1])
  }

  /** The largest leg Kelly fraction, 0 for no legs. */
  function KellyOf(quotes: seq<RunnerQuote>): (r: real)
    requires Normalisable(quotes)
    ensures 0.0 <= r <= 1.0
    ensures |quotes| == 0 ==> r == 0.0
    ensures |quotes| > 0 ==> exists i :: 0 <= i < |quotes| && r == LegKelly(quotes[i], Normaliser(quotes))
    ensures forall i :: 0 <= i < |quotes| ==> LegKelly(quotes[i], Normaliser(quotes)) <= r
  {
    var kellys := LegKellys(quotes);
    var r := MaxOrZero(kellys);
    assert |quotes| > 0 ==> 0.0 <= kellys[0] <= r;
    r
  }

  /** `varIndex`: max(0, floor(n * 0.05) - 1). */
  function VarIndex(n: nat): int
  {
    IntMax(0, ((n as real) * 0.05).Floor - 1)
  }

  /** `valueAtRisk`: the profit at `varIndex` of the sorted profits, 0 for
      no legs. */
  function ValueAtRisk(profits: seq<real>): real
  {
    var sorted := Sorting.SortAscending(profits);
    var padded := if |sorted| == 0 then [0.0] else sorted;
    padded[IntMax(0, IntMin(VarIndex(|profits|), |padded| - 1))]
  }

  /** The Sharpe ratio of one period against the daily risk-free rate;
      absent unless the standard deviation is positive. */
  function Sharpe(expectedValue: real, stddev: real, bankroll: real): (r: Option<real>)
    requires bankroll > 0.0
    ensures r.Some? <==> stddev > 0.0
  {
    if stddev > 0.0 then
      Some((expectedValue / bankroll - DefaultRiskFreeRate / TradingDays) / (stddev / bankroll))
    else None
  }

  /** `calculateRiskMetrics` as a value. */
  function RiskMetricsOf(quotes: seq<RunnerQuote>, stakes: seq<StakeResponse>, bankroll: real, sqrt: real -> real): (r: RiskMetrics)
    requires Normalisable(quotes) && |stakes| == |quotes| && bankroll > 0.0
    ensures r.sharpeRatio.Some? <==> r.standardDeviation > 0.0
    ensures r.maxDrawdown.None?
    ensures r.winProbability <= 1.0
    ensures 0.0 <= r.kellyFraction <= 1.0
  {
    var probs := Probabilities(quotes);
    var profits := Profits(stakes, bankroll);
    var stddev := RiskSpread(probs, profits, sqrt);
    RiskMetrics(
      ExpectedValue(probs, profits),
      stddev,
      WinProbability(probs, profits),
      KellyOf(quotes),
      Sharpe(ExpectedValue(probs, profits), stddev, bankroll),
      ValueAtRisk(profits),
      None)
  }

  /** The first loop: the profits and their expected value. */
  method ExpectedProfit(quotes: seq<RunnerQuote>, stakes: seq<StakeResponse>, bankroll: real, normaliser: real)
    returns (profits: seq<real>, expectedValue: real)
    requires Normalisable(quotes) && |stakes| == |quotes| && normaliser == Normaliser(quotes)
    ensures profits == Profits(stakes, bankroll)
    ensures expectedValue == ExpectedValue(Probabilities(quotes), profits)
  {
    ghost var weighted := Weighted(Probabilities(quotes), Profits(stakes, bankroll));
    profits := [];
    expectedValue := 0.0;
    for i := 0 to |quotes|
      invariant profits == Profits(stakes, bankroll)[..i]
      invariant expectedValue == Sum(weighted[..i])
    {
      var probability := quotes[i].impliedProbability / normaliser;
      var profit := stakes[i].payout - bankroll;
      profits := profits + [profit];
      expectedValue := expectedValue + probability * profit;
      assert weighted[..i + 1][..i] == weighted[..i];
    }
    assert weighted[..|quotes|] == weighted;
  }

  /** The second loop: the weighted squared deviations. */
  method VarianceLoop(quotes: seq<RunnerQuote>, profits: seq<real>, expectedValue: real, normaliser: real)
    returns (variance: real)
    requires Normalisable(quotes) && |profits| == |quotes| && normaliser == Normaliser(quotes)
    ensures variance == Sum(Weighted(Probabilities(quotes), Metrics.SquaredDeviations(profits, expectedValue)))
  {
    ghost var spread := Weighted(Probabilities(quotes), Metrics.SquaredDeviations(profits, expectedValue));
    variance := 0.0;
    for i := 0 to |quotes|
      invariant variance == Sum(spread[..i])
    {
      var probability := quotes[i].impliedProbability / normaliser;
      var profit := profits[i];
      variance := variance + probability * ((profit - expectedValue) * (profit - expectedValue));
      assert spread[..i + 1][..i] == spread[..i];
    }
    assert spread[..|quotes|] == spread;
  }

  /** The third loop: the probability of ending in profit, before the cap. */
  method WinLoop(quotes: seq<RunnerQuote>, profits: seq<real>, normaliser: real) returns (winProbability: real)
    requires Normalisable(quotes) && |profits| == |quotes| && normaliser == Normaliser(quotes)
    ensures winProbability == Sum(WinShares(Probabilities(quotes), profits))
  {
    ghost var shares := WinShares(Probabilities(quotes), profits);
    winProbability := 0.0;
    for i := 0 to |quotes|
      invariant winProbability == Sum(shares[..i])
    {
      var probability := quotes[i].impliedProbability / normaliser;
      if profits[i] > 0.0 {
        winProbability := winProbability + probability;
      }
      assert shares[..i + 1][..i] == shares[..i];
    }
    assert shares[..|quotes|] == shares;
  }

  /** `calculateRiskMetrics`: three accumulator loops, then the Kelly
      stream, the sorted profits and the Sharpe ratio. */
  method CalculateRiskMetrics(quotes: seq<RunnerQuote>, stakes: seq<StakeResponse>, bankroll: real, sqrt: real -> real)
    returns (metrics: RiskMetrics)
    requires Normalisable(quotes) && |stakes| == |quotes| && bankroll > 0.0
    ensures metrics == RiskMetricsOf(quotes, stakes, bankroll, sqrt)
  {
    var normaliser := Normaliser(quotes);
    var profits, expectedValue := ExpectedProfit(quotes, stakes, bankroll, normaliser);
    var variance := VarianceLoop(quotes, profits, expectedValue, normaliser);
    var stddev := sqrt(Max(variance, 0.0));
    var winProbability := WinLoop(quotes, profits, normaliser);
    var kelly := KellyOf(quotes);
    var valueAtRisk := ValueAtRisk(profits);
    var sharpeRatio := Sharpe(expectedValue, stddev, bankroll);
    metrics := RiskMetrics(expectedValue, stddev, Min(1.0, winProbability), kelly, sharpeRatio, valueAtRisk, None);
  }

  /** The value at risk is one of the profits (0 with no legs); with fewer
      than 40 legs it is the smallest. */
  lemma ValueAtRiskIsAProfit(profits: seq<real>)
    ensures |profits| == 0 ==> ValueAtRisk(profits) == 0.0
    ensures |profits| > 0 ==> ValueAtRisk(profits) in profits
    ensures |profits| < 40 ==> forall i :: 0 <= i < |profits| ==> ValueAtRisk(profits) <= profits[i]
  {
    var sorted := Sorting.SortAscending(profits);
    if |profits| > 0 {
      var k := IntMax(0, IntMin(VarIndex(|profits|), |sorted| - 1));
      assert sorted[k] in multiset(profits);
      if |profits| < 40 {
        assert ((|profits| as real) * 0.05).Floor <= 1;
        assert k == 0;
        forall i | 0 <= i < |profits| ensures sorted[0] <= profits[i] {
          assert profits[i] in multiset(sorted);
          var j :| 0 <= j < |sorted| && sorted[j] == profits[i];
        }
      }
    }
  }

  /* ---------- the arbitrage book is riskless ---------- */

  /** Every leg pays the same amount. */
  predicate EqualPayouts(stakes: seq<StakeResponse>, payout: real)
  {
    forall i :: 0 <= i < |stakes| ==> stakes[i].payout == payout
  }

  /** Probabilities summing to 1 weight a constant profit to itself, with no
      spread around it. */
  lemma ConstantExpectation(probs: seq<real>, profits: seq<real>, c: real)
    requires |probs| == |profits| && Sum(probs) == 1.0
    requires forall i :: 0 <= i < |profits| ==> profits[i] == c
    ensures ExpectedValue(probs, profits) == c
    ensures RiskVariance(probs, profits) == 0.0
  {
    SumScale(probs, Weighted(probs, profits), c);
    var deviations := Metrics.SquaredDeviations(profits, c);
    SumConstant(Weighted(probs, deviations), 0.0);
  }

  /** A certain profit wins with probability 1, a certain loss with 0. */
  lemma CertainWin(probs: seq<real>, profits: seq<real>, c: real)
    requires |probs| == |profits| && Sum(probs) == 1.0
    requires forall i :: 0 <= i < |profits| ==> profits[i] == c
    ensures WinProbability(probs, profits) == (if c > 0.0 then 1.0 else 0.0)
  {
    var shares := WinShares(probs, profits);
    if c > 0.0 {
      assert shares == probs;
    } else {
      SumConstant(shares, 0.0);
    }
  }

  /** The value at risk of a constant profit is that profit. */
  lemma ConstantValueAtRisk(profits: seq<real>, c: real)
    requires |profits| > 0 && forall i :: 0 <= i < |profits| ==> profits[i] == c
    ensures ValueAtRisk(profits) == c
  {
    ValueAtRiskIsAProfit(profits);
  }

  /** When every leg pays the same, the outcome is certain: the expected
      value is that payout less the bankroll, there is no spread and no
      Sharpe ratio, the win probability is 1 or 0 by the sign of the
      profit, and the value at risk is the profit itself. */
  lemma EqualPayoutsRiskless(quotes: seq<RunnerQuote>, stakes: seq<StakeResponse>, bankroll: real, payout: real, sqrt: real -> real)
    requires |quotes| > 0 && Normaliser(quotes) != 0.0 && |stakes| == |quotes| && bankroll > 0.0
    requires EqualPayouts(stakes, payout) && IsSqrt(sqrt)
    ensures var r := RiskMetricsOf(quotes, stakes, bankroll, sqrt);
      r.expectedValue == payout - bankroll &&
      r.standardDeviation == 0.0 && r.sharpeRatio.None? &&
      r.winProbability == (if payout > bankroll then 1.0 else 0.0) &&
      r.valueAtRisk == payout - bankroll
  {
    var probs := Probabilities(quotes);
    var profits := Profits(stakes, bankroll);
    ProbabilitiesNormalised(quotes);
    ConstantExpectation(probs, profits, payout - bankroll);
    CertainWin(probs, profits, payout - bankroll);
    ConstantValueAtRisk(profits, payout - bankroll);
    SqrtFacts(sqrt, 0.0);
  }

  /* ---------- Monte Carlo ---------- */

  /** The probability mass of legs 0 .. k. */
  function Through(probs: seq<real>, k: nat): real
    requires k < |probs|
  {
    Sum(probs[..k + 1])
  }

  /** The leg a sample credits: the first j whose cumulative probability
      reaches the sample, or the last leg. `cumulative` is the running sum
      before leg j. */
  function Credited(probs: seq<real>, sample: real, j: nat, cumulative: real): (r: nat)
    requires j < |probs|
    ensures j <= r < |probs|
    decreases |probs| - j
  {
    var c := cumulative + probs[j];
    if sample <= c || j == |probs| - 1 then j else Credited(probs, sample, j + 1, c)
  }

  /** From leg j on, the credited leg is the first whose cumulative
      probability reaches the sample, or the last leg when none does. */
  lemma {:induction false} CreditedIsFirst(probs: seq<real>, sample: real, j: nat, cumulative: real)
    requires j < |probs| && cumulative == Sum(probs[..j])
    ensures var r := Credited(probs, sample, j, cumulative);
      (forall k :: j <= k < r ==> sample > Through(probs, k)) &&
      (r == |probs| - 1 || sample <= Through(probs, r))
    decreases |probs| - j
  {
    var c := cumulative + probs[j];
    assert probs[..j + 1][..j] == probs[..j];
    assert c == Through(probs, j);
    if !(sample <= c || j == |probs| - 1) {
      CreditedIsFirst(probs, sample, j + 1, c);
    }
  }

  /** One trial's profit: `-bankroll` plus the credited leg's payout. */
  function TrialProfit(probs: seq<real>, payouts: seq<real>, bankroll: real, sample: real): (r: real)
    requires |payouts| == |probs|
    ensures |probs| == 0 ==> r == -bankroll
    ensures |probs| > 0 ==> exists j :: 0 <= j < |probs| && r == payouts[j] - bankroll
  {
    if |probs| == 0 then -bankroll
    else
      var j := Credited(probs, sample, 0, 0.0);
      -bankroll + payouts[j]
  }

  /** The outcomes of trials 0 .. trials - 1, drawing from `start` on. */
  function Outcomes(probs: seq<real>, payouts: seq<real>, bankroll: real, draws: nat -> real, start: nat, trials: nat): (r: seq<real>)
    requires |payouts| == |probs|
    ensures |r| == trials
    ensures forall i :: 0 <= i < trials ==> r[i] == TrialProfit(probs, payouts, bankroll, draws(start + i))
  {
    seq(trials, i requires 0 <= i < trials => TrialProfit(probs, payouts, bankroll, draws(start + i)))
  }

  /** `index5` and `index95`. */
  function Index5(trials: int): int
  {
    IntMax(0, ((trials as real) * 0.05).Floor - 1)
  }

  function Index95(trials: int): int
  {
    IntMin(trials - 1, ((trials as real) * 0.95).Floor)
  }

  lemma IndicesInRange(trials: int)
    requires trials >= 1
    ensures 0 <= Index5(trials) <= Index95(trials) <= trials - 1
  {
    var t := trials as real;
    assert 0.0 <= t * 0.05 <= t * 0.95 <= t;
    assert (t * 0.05).Floor <= (t * 0.95).Floor;
  }

  function Positive(v: real): bool { v > 0.0 }

  /** The share of outcomes above zero. */
  function PositiveFraction(outcomes: seq<real>): (r: real)
    requires |outcomes| > 0
    ensures 0.0 <= r <= 1.0
  {
    var n := |outcomes| as real;
    var positive := CountWhere(outcomes, Positive) as real;
    DivideMonotone(0.0, positive, n);
    DivideMonotone(positive, n, n);
    positive / n
  }

  /** The k-th smallest value. */
  function OrderStatistic(values: seq<real>, k: nat): (r: real)
    requires k < |values|
    ensures r in values
  {
    var sorted := Sorting.SortAscending(values);
    assert sorted[k] in multiset(values);
    sorted[k]
  }

  /** `Math.sqrt(Math.max(variance, 0))` of the outcomes. */
  function Spread(values: seq<real>, sqrt: real -> real): real
  {
    sqrt(Max(Metrics.Variance(values), 0.0))
  }

  datatype SimulationError = NonPositiveTrials

  /** The summary of a list of outcomes: the fifth percentile never exceeds
      the ninety-fifth and the probability of profit is a probability. */
  function SummaryOf(outcomes: seq<real>, trials: int, sqrt: real -> real): (r: SimulationSummary)
    requires trials >= 1 && |outcomes| == trials
    ensures r.trials == trials
    ensures 0.0 <= r.pPositive <= 1.0
    ensures r.percentile5 <= r.percentile95
  {
    IndicesInRange(trials);
    assert Sorting.SortAscending(outcomes)[Index5(trials)] <= Sorting.SortAscending(outcomes)[Index95(trials)];
    SimulationSummary(
      trials,
      Metrics.Mean(outcomes),
      Spread(outcomes, sqrt),
      PositiveFraction(outcomes),
      OrderStatistic(outcomes, Index5(trials)),
      OrderStatistic(outcomes, Index95(trials)))
  }

  /** `runMonteCarlo` as a value; Java throws for fewer than one trial. */
  function MonteCarloOf(
    quotes: seq<RunnerQuote>, stakes: seq<StakeResponse>, bankroll: real, trials: int,
    draws: nat -> real, start: nat, sqrt: real -> real): (r: Result<SimulationSummary, SimulationError>)
    requires Normalisable(quotes) && |stakes| == |quotes|
    ensures r.Err? <==> trials <= 0
  {
    if trials <= 0 then Err(NonPositiveTrials)
    else Ok(SummaryOf(Outcomes(Probabilities(quotes), Payouts(stakes), bankroll, draws, start, trials), trials, sqrt))
  }

  /** The trial loop with its inner walk over the legs. */
  method Trials(probabilities: seq<real>, stakes: seq<StakeResponse>, bankroll: real, trials: nat, draws: nat -> real, start: nat)
    returns (outcomes: seq<real>)
    requires |stakes| == |probabilities|
    ensures outcomes == Outcomes(probabilities, Payouts(stakes), bankroll, draws, start, trials)
  {
    ghost var payouts := Payouts(stakes);
    outcomes := [];
    for i := 0 to trials
      invariant outcomes == Outcomes(probabilities, payouts, bankroll, draws, start, trials)[..i]
    {
      var sample := draws(start + i);
      var cumulative := 0.0;
      var profit := -bankroll;
      var j := 0;
      while j < |probabilities|
        invariant 0 <= j <= |probabilities|
        invariant j < |probabilities| ==> Credited(probabilities, sample, j, cumulative) == Credited(probabilities, sample, 0, 0.0)
        invariant j == |probabilities| ==> |probabilities| == 0
        invariant profit == -bankroll
      {
        cumulative := cumulative + probabilities[j];
        if sample <= cumulative || j == |probabilities| - 1 {
          profit := profit + stakes[j].payout;
          break;
        }
        j := j + 1;
      }
      assert profit == TrialProfit(probabilities, payouts, bankroll, sample);
      outcomes := outcomes + [profit];
    }
  }

  /** `runMonteCarlo`. */
  method RunMonteCarlo(
    quotes: seq<RunnerQuote>, stakes: seq<StakeResponse>, bankroll: real, trials: int,
    draws: nat -> real, start: nat, sqrt: real -> real) returns (r: Result<SimulationSummary, SimulationError>)
    requires Normalisable(quotes) && |stakes| == |quotes|
    ensures r == MonteCarloOf(quotes, stakes, bankroll, trials, draws, start, sqrt)
  {
    if trials <= 0 {
      return Err(NonPositiveTrials);
    }
    var normaliser := Normaliser(quotes);
    var probabilities: seq<real> := [];
    for k := 0 to |quotes|
      invariant probabilities == Probabilities(quotes)[..k]
    {
      probabilities := probabilities + [quotes[k].impliedProbability / normaliser];
    }
    assert probabilities == Probabilities(quotes);
    var outcomes := Trials(probabilities, stakes, bankroll, trials, draws, start);
    r := Ok(SummaryOf(outcomes, trials, sqrt));
  }

  /** All outcomes above zero give a probability of profit of 1, none
      give 0. */
  lemma ConstantPositiveFraction(outcomes: seq<real>, c: real)
    requires |outcomes| > 0 && forall i :: 0 <= i < |outcomes| ==> outcomes[i] == c
    ensures PositiveFraction(outcomes) == (if c > 0.0 then 1.0 else 0.0)
  {
    CountWhereAllOrNone(outcomes, Positive);
    var n := |outcomes| as real;
    assert n / n == 1.0;
  }

  /** Equal outcomes have no spread. */
  lemma ConstantSpread(outcomes: seq<real>, c: real, sqrt: real -> real)
    requires |outcomes| > 0 && IsSqrt(sqrt) && forall i :: 0 <= i < |outcomes| ==> outcomes[i] == c
    ensures Spread(outcomes, sqrt) == 0.0
  {
    assert Metrics.Constant(outcomes);
    Metrics.ConstantNoVariance(outcomes);
    SqrtFacts(sqrt, 0.0);
  }

  /** Outcomes that are all equal summarise to that value: it is the mean
      and both percentiles, there is no spread, and the probability of
      profit is 1 or 0 by its sign. */
  lemma ConstantSummary(outcomes: seq<real>, trials: int, c: real, sqrt: real -> real)
    requires trials >= 1 && |outcomes| == trials && IsSqrt(sqrt)
    requires forall i :: 0 <= i < trials ==> outcomes[i] == c
    ensures var r := SummaryOf(outcomes, trials, sqrt);
      r.mean == c && r.stddev == 0.0 && r.percentile5 == c && r.percentile95 == c &&
      r.pPositive == (if c > 0.0 then 1.0 else 0.0)
  {
    Metrics.MeanBetween(outcomes, c, c);
    ConstantSpread(outcomes, c, sqrt);
    ConstantPositiveFraction(outcomes, c);
    IndicesInRange(trials);
  }

  /** With equal payouts every trial ends the same way, whatever the
      draws, so the simulation reports that one profit as mean and both
      percentiles, with no spread. */
  lemma EqualPayoutsCertain(
    quotes: seq<RunnerQuote>, stakes: seq<StakeResponse>, bankroll: real, payout: real, trials: int,
    draws: nat -> real, start: nat, sqrt: real -> real)
    requires |quotes| > 0 && Normalisable(quotes) && |stakes| == |quotes| && trials >= 1
    requires EqualPayouts(stakes, payout) && IsSqrt(sqrt)
    ensures var r := MonteCarloOf(quotes, stakes, bankroll, trials, draws, start, sqrt).value;
      r.mean == payout - bankroll && r.stddev == 0.0 &&
      r.percentile5 == payout - bankroll && r.percentile95 == payout - bankroll &&
      r.pPositive == (if payout > bankroll then 1.0 else 0.0)
  {
    var outcomes := Outcomes(Probabilities(quotes), Payouts(stakes), bankroll, draws, start, trials);
    forall i | 0 <= i < trials ensures outcomes[i] == payout - bankroll {
      var profit := TrialProfit(Probabilities(quotes), Payouts(stakes), bankroll, draws(start + i));
    }
    ConstantSummary(outcomes, trials, payout - bankroll, sqrt);
  }
}
