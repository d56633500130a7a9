/** The analytics service (ArbitrageService.java): the best quote per
    runner, grouped by event and market, priced as an arbitrage book with
    its risk metrics and a Monte Carlo run; and the re-simulation of a
    reported opportunity. `Instant.now()` is the parameter `now`, the
    random stream is `draws` read from `start` on, and `Math.sqrt` is
    `sqrt`. */
module ArbitrageService {
  import opened Wrappers
  import opened Numeric
  import opened Text
  import opened OrderedMap
  import opened ServiceModel
  import KeepBest
  import Grouping
  import Sorting
  import ServiceRisk

  const DefaultSimTrials: int := 2000
  const DefaultBankroll: real := 1000.0

  /** Every market quotes positive decimal odds, so its implied probability
      is a finite positive number. */
  predicate PositiveOdds(markets: seq<MarketSnapshot>)
  {
    forall i :: 0 <= i < |markets| ==> markets[i].oddsDecimal > 0.0
  }

  /** A quote as the snapshot constructor builds it. */
  predicate WellFormedQuote(q: RunnerQuote)
  {
    q.odds > 0.0 && q.impliedProbability == 1.0 / q.odds
  }

  predicate WellFormedQuotes(qs: seq<RunnerQuote>)
  {
    forall i :: 0 <= i < |qs| ==> WellFormedQuote(qs[i])
  }

  /** `eventMarketKey`. */
  function EventMarketKey(eventId: string, marketName: string): string
  {
    eventId + "::" + Lower(marketName)
  }

  /** `groupingKey`. */
  function GroupingKey(m: MarketSnapshot): string
  {
    EventMarketKey(m.eventId, m.marketName) + "::" + m.runner.id
  }

  /** `new RunnerQuote(snapshot)`: the implied probability is recomputed
      from the odds, whatever the snapshot reported. */
  function QuoteOf(m: MarketSnapshot): (q: RunnerQuote)
    requires m.oddsDecimal > 0.0
    ensures WellFormedQuote(q) && q.odds == m.oddsDecimal
    ensures q.impliedProbability * q.odds == 1.0
    ensures q.runnerId == Some(m.runner.id) && q.eventId == m.eventId && q.marketName == m.marketName
    ensures q.providerId == m.provider.id && q.runnerName == m.runner.name
  {
    RunnerQuote(m.eventId, m.eventName, m.marketName, m.sport, m.league,
      Some(m.runner.id), m.runner.name, m.provider.id, m.provider.name,
      m.oddsDecimal, 1.0 / m.oddsDecimal)
  }

  /* ---------- best quote per runner ---------- */

  /** The grouping key of the market a quote was built from. */
  function QuoteKey(q: RunnerQuote): string
  {
    EventMarketKey(q.eventId, q.marketName) + "::" + q.runnerId.GetOr("")
  }

  /** `existing.getOdds() < market.getOddsDecimal()`. */
  predicate OddsBelow(a: RunnerQuote, b: RunnerQuote)
  {
    a.odds < b.odds
  }

  function Quotes(markets: seq<MarketSnapshot>): (qs: seq<RunnerQuote>)
    requires PositiveOdds(markets)
    ensures |qs| == |markets|
    ensures forall i :: 0 <= i < |markets| ==> qs[i] == QuoteOf(markets[i])
  {
    seq(|markets|, i requires 0 <= i < |markets| => QuoteOf(markets[i]))
  }

  /** The map `bestQuotesByRunner` returns, in insertion order. */
  function BestQuotes(markets: seq<MarketSnapshot>): seq<(string, RunnerQuote)>
    requires PositiveOdds(markets)
  {
    KeepBest.Fold(Quotes(markets), QuoteKey, OddsBelow)
  }

  /** `bestQuotesByRunner`. */
  method BestQuotesByRunner(markets: seq<MarketSnapshot>) returns (best: seq<(string, RunnerQuote)>)
    requires PositiveOdds(markets)
    ensures best == BestQuotes(markets)
  {
    ghost var qs := Quotes(markets);
    best := [];
    for i := 0 to |markets|
      invariant best == KeepBest.Fold(qs[..i], QuoteKey, OddsBelow)
    {
      var market := markets[i];
      var key := GroupingKey(market);
      var existing := Get(best, key);
      if existing.None? || existing.value.odds < market.oddsDecimal {
        best := Set(best, key, QuoteOf(market));
      }
      assert qs[..i + 1][..i] == qs[..i];
    }
    assert qs[..|markets|] == qs;
  }

  /** Market i has the highest odds of its grouping key, and every earlier
      market with that key has strictly lower odds. */
  ghost predicate BestOf(markets: seq<MarketSnapshot>, i: int)
  {
    0 <= i < |markets| &&
    (forall j :: 0 <= j < |markets| && GroupingKey(markets[j]) == GroupingKey(markets[i]) ==>
      markets[j].oddsDecimal <= markets[i].oddsDecimal) &&
    (forall j :: 0 <= j < i && GroupingKey(markets[j]) == GroupingKey(markets[i]) ==>
      markets[j].oddsDecimal < markets[i].oddsDecimal)
  }

  /** Each kept entry is (key, quote) of the market that is the first with
      the highest odds of its key. */
  lemma BestQuoteAt(markets: seq<MarketSnapshot>, e: nat) returns (i: nat)
    requires PositiveOdds(markets) && e < |BestQuotes(markets)|
    ensures BestOf(markets, i) && BestQuotes(markets)[e] == (GroupingKey(markets[i]), QuoteOf(markets[i]))
  {
    var qs := Quotes(markets);
    var best := BestQuotes(markets);
    assert KeepBest.StrictWeakOrder(OddsBelow);
    KeepBest.FoldEntries(qs, QuoteKey, OddsBelow);
    i :| KeepBest.Chosen(qs, i, QuoteKey, OddsBelow) && best[e] == (QuoteKey(qs[i]), qs[i]);
    forall j | 0 <= j < |markets| && GroupingKey(markets[j]) == GroupingKey(markets[i])
      ensures markets[j].oddsDecimal <= markets[i].oddsDecimal
    {
      assert QuoteKey(qs[j]) == QuoteKey(qs[i]);
    }
    forall j | 0 <= j < i && GroupingKey(markets[j]) == GroupingKey(markets[i])
      ensures markets[j].oddsDecimal < markets[i].oddsDecimal
    {
      assert QuoteKey(qs[j]) == QuoteKey(qs[i]);
    }
  }

  /** Every grouping key of the input has exactly one kept quote. */
  lemma BestQuotesComplete(markets: seq<MarketSnapshot>)
    requires PositiveOdds(markets)
    ensures UniqueKeys(BestQuotes(markets))
    ensures forall i :: 0 <= i < |markets| ==> GroupingKey(markets[i]) in Keys(BestQuotes(markets))
  {
    var qs := Quotes(markets);
    KeepBest.FoldKeys(qs, QuoteKey, OddsBelow);
    forall i | 0 <= i < |markets| ensures GroupingKey(markets[i]) in Keys(BestQuotes(markets)) {
      assert QuoteKey(qs[i]) in KeepBest.InputKeys(qs, QuoteKey);
    }
  }

  /** A property of every input market's quote holds of every kept quote. */
  lemma BestQuotesSatisfy(markets: seq<MarketSnapshot>, p: RunnerQuote -> bool)
    requires PositiveOdds(markets)
    requires forall i :: 0 <= i < |markets| ==> p(QuoteOf(markets[i]))
    ensures forall e :: 0 <= e < |BestQuotes(markets)| ==> p(BestQuotes(markets)[e].1)
  {
    KeepBest.FoldValuesSatisfy(Quotes(markets), QuoteKey, OddsBelow, p);
  }

  /* ---------- grouping by event and market ---------- */

  function GroupKey(q: RunnerQuote): string
  {
    EventMarketKey(q.eventId, q.marketName)
  }

  /** `groupByEventAndMarket`. */
  method GroupByEventAndMarket(quotes: seq<(string, RunnerQuote)>) returns (grouped: seq<(string, seq<RunnerQuote>)>)
    ensures grouped == Grouping.Grouped(Values(quotes), GroupKey)
  {
    var qs := Values(quotes);
    grouped := [];
    for i := 0 to |qs|
      invariant grouped == Grouping.Grouped(qs[..i], GroupKey)
    {
      var quote := qs[i];
      var key := GroupKey(quote);
      var list := Get(grouped, key).GetOr([]);
      grouped := Set(grouped, key, list + [quote]);
      assert qs[..i + 1][..i] == qs[..i];
    }
    assert qs[..|qs|] == qs;
  }

  ghost predicate AllWellFormed(groups: seq<seq<RunnerQuote>>)
  {
    forall g :: 0 <= g < |groups| ==> WellFormedQuotes(groups[g])
  }

  /** The groups `analyzeSnapshot` walks. */
  function Groups(markets: seq<MarketSnapshot>): (groups: seq<seq<RunnerQuote>>)
    requires PositiveOdds(markets)
    ensures AllWellFormed(groups)
  {
    var qs := Values(BestQuotes(markets));
    BestQuotesSatisfy(markets, WellFormedQuote);
    Grouping.GroupsSatisfy(qs, GroupKey, WellFormedQuote);
    Values(Grouping.Grouped(qs, GroupKey))
  }

  /** The quotes of a group share their event and market, and every group
      has at least one quote. */
  lemma GroupsShareEventMarket(markets: seq<MarketSnapshot>)
    requires PositiveOdds(markets)
    ensures forall g :: 0 <= g < |Groups(markets)| ==> (|Groups(markets)[g]| > 0 &&
      forall j :: 0 <= j < |Groups(markets)[g]| ==> GroupKey(Groups(markets)[g][j]) == GroupKey(Groups(markets)[g][0]))
  {
    var qs := Values(BestQuotes(markets));
    var grouped := Grouping.Grouped(qs, GroupKey);
    Grouping.GroupsPartition(qs, GroupKey);
    forall g | 0 <= g < |Groups(markets)|
      ensures |Groups(markets)[g]| > 0 &&
        forall j :: 0 <= j < |Groups(markets)[g]| ==> GroupKey(Groups(markets)[g][j]) == GroupKey(Groups(markets)[g][0])
    {
      assert Groups(markets)[g] == grouped[g].1;
    }
  }

  /* ---------- stakes ---------- */

  /** The sum of the implied probabilities of non-empty well-formed quotes is
      positive. */
  lemma ImpliedSumPositive(qs: seq<RunnerQuote>)
    requires WellFormedQuotes(qs) && |qs| > 0
    ensures ServiceRisk.Normaliser(qs) > 0.0
  {
    SumPositive(ServiceRisk.Implieds(qs));
  }

  /** One leg of `calculateStakes`. */
  function StakeFor(q: RunnerQuote, bankroll: real, sumImplied: real): StakeResponse
    requires sumImplied != 0.0
  {
    var stakeFraction := q.impliedProbability / sumImplied;
    var stakeAmount := stakeFraction * bankroll;
    StakeResponse(q.runnerName, q.providerId, q.providerName, q.odds, stakeFraction, stakeAmount, stakeAmount * q.odds)
  }

  /** The legs of the book, one per quote and in order. */
  function Stakes(qs: seq<RunnerQuote>, bankroll: real, sumImplied: real): (r: seq<StakeResponse>)
    requires sumImplied != 0.0
    ensures |r| == |qs|
  {
    if |qs| == 0 then []
    else Stakes(qs[..|qs| - 1], bankroll, sumImplied) + [StakeFor(qs[|qs| - 1], bankroll, sumImplied)]
  }

  /** Leg i of the book is staked from quote i, and carries its runner,
      provider and odds. */
  lemma {:induction false} StakeAt(qs: seq<RunnerQuote>, bankroll: real, sumImplied: real, i: nat)
    requires sumImplied != 0.0 && i < |qs|
    ensures Stakes(qs, bankroll, sumImplied)[i] == StakeFor(qs[i], bankroll, sumImplied)
    ensures var stake := Stakes(qs, bankroll, sumImplied)[i];
      stake.runner == qs[i].runnerName && stake.providerId == qs[i].providerId &&
      stake.providerName == qs[i].providerName && stake.odds == qs[i].odds
  {
    var front := qs[..|qs| - 1];
    if i < |qs| - 1 {
      StakeAt(front, bankroll, sumImplied, i);
      assert front[i] == qs[i];
    }
  }

  /** `calculateStakes`. */
  method CalculateStakes(qs: seq<RunnerQuote>, bankroll: real, sumImplied: real) returns (stakes: seq<StakeResponse>)
    requires sumImplied != 0.0
    ensures stakes == Stakes(qs, bankroll, sumImplied)
  {
    stakes := [];
    for i := 0 to |qs|
      invariant stakes == Stakes(qs[..i], bankroll, sumImplied)
    {
      var quote := qs[i];
      var stakeFraction := quote.impliedProbability / sumImplied;
      var stakeAmount := stakeFraction * bankroll;
      var payout := stakeAmount * quote.odds;
      var stake := StakeResponse(quote.runnerName, quote.providerId, quote.providerName, quote.odds, stakeFraction, stakeAmount, payout);
      assert stake == StakeFor(quote, bankroll, sumImplied);
      assert qs[..i + 1][..i] == qs[..i];
      stakes := stakes + [stake];
    }
    assert qs[..|qs|] == qs;
  }

  function StakeFractions(stakes: seq<StakeResponse>): (r: seq<real>)
    ensures |r| == |stakes| && forall i :: 0 <= i < |stakes| ==> r[i] == stakes[i].stakeFraction
  {
    seq(|stakes|, i requires 0 <= i < |stakes| => stakes[i].stakeFraction)
  }

  function StakeAmounts(stakes: seq<StakeResponse>): (r: seq<real>)
    ensures |r| == |stakes| && forall i :: 0 <= i < |stakes| ==> r[i] == stakes[i].stakeAmount
  {
    seq(|stakes|, i requires 0 <= i < |stakes| => stakes[i].stakeAmount)
  }

  /** A leg staked at its share of the book pays bankroll / sum. */
  lemma LegPayout(q: RunnerQuote, bankroll: real, s: real)
    requires WellFormedQuote(q) && s > 0.0
    ensures StakeFor(q, bankroll, s).payout == bankroll / s
  {
    var p := q.impliedProbability;
    assert p * q.odds == 1.0;
    calc {
      StakeFor(q, bankroll, s).payout;
      (p / s * bankroll) * q.odds;
      { assert p / s * bankroll == p * (bankroll / s); }
      (p * (bankroll / s)) * q.odds;
      (p * q.odds) * (bankroll / s);
      bankroll / s;
    }
  }

  /** Staked against their own implied sum, the legs spend the bankroll
      exactly: the fractions sum to 1 and the amounts to the bankroll. */
  lemma StakesSpendBankroll(qs: seq<RunnerQuote>, bankroll: real)
    requires ServiceRisk.Normaliser(qs) != 0.0
    ensures var s := ServiceRisk.Normaliser(qs);
      Sum(StakeFractions(Stakes(qs, bankroll, s))) == 1.0 &&
      Sum(StakeAmounts(Stakes(qs, bankroll, s))) == bankroll
  {
    var s := ServiceRisk.Normaliser(qs);
    var fractions := StakeFractions(Stakes(qs, bankroll, s));
    FractionsScaleImplieds(qs, bankroll, s);
    SumScale(ServiceRisk.Implieds(qs), fractions, 1.0 / s);
    assert s * (1.0 / s) == 1.0;
    forall i | 0 <= i < |qs| ensures StakeAmounts(Stakes(qs, bankroll, s))[i] == fractions[i] * bankroll {
      StakeAt(qs, bankroll, s, i);
    }
    SumScale(fractions, StakeAmounts(Stakes(qs, bankroll, s)), bankroll);
  }

  lemma FractionsScaleImplieds(qs: seq<RunnerQuote>, bankroll: real, s: real)
    requires s != 0.0
    ensures var fractions := StakeFractions(Stakes(qs, bankroll, s));
      forall i :: 0 <= i < |qs| ==> fractions[i] == ServiceRisk.Implieds(qs)[i] * (1.0 / s)
  {
    forall i | 0 <= i < |qs| ensures StakeFractions(Stakes(qs, bankroll, s))[i] == ServiceRisk.Implieds(qs)[i] * (1.0 / s) {
      StakeAt(qs, bankroll, s, i);
    }
  }

  /** The equal-payout invariant: whichever runner wins, its leg pays
      bankroll / sum. */
  lemma EqualPayouts(qs: seq<RunnerQuote>, bankroll: real)
    requires WellFormedQuotes(qs) && |qs| > 0
    ensures var s := ServiceRisk.Normaliser(qs);
      s > 0.0 && ServiceRisk.EqualPayouts(Stakes(qs, bankroll, s), bankroll / s)
  {
    var s := ServiceRisk.Normaliser(qs);
    ImpliedSumPositive(qs);
    var stakes := Stakes(qs, bankroll, s);
    forall i | 0 <= i < |qs| ensures stakes[i].payout == bankroll / s {
      StakeAt(qs, bankroll, s, i);
      LegPayout(qs[i], bankroll, s);
    }
  }

  /* ---------- analyzeSnapshot ---------- */

  /** `request.getBankroll() > 0 ? request.getBankroll() : 1000d`. */
  function Bankroll(request: AnalyzeRequest): (r: real)
    ensures r > 0.0
    ensures request.bankroll > 0.0 ==> r == request.bankroll
  {
    if request.bankroll > 0.0 then request.bankroll else DefaultBankroll
  }

  /** `1.0 / sumImplied - 1.0`: what the book returns per unit staked. */
  function ProfitFraction(sumImplied: real): real
    requires sumImplied != 0.0
  {
    1.0 / sumImplied - 1.0
  }

  /** `buildOpportunity`: the event and market of the first quote, the
      book's figures, the stakes and the clock reading; no metrics or
      simulation yet. */
  function BaseOpportunity(
    quotes: seq<RunnerQuote>, bankroll: real, sumImplied: real, guaranteedProfitFraction: real,
    stakes: seq<StakeResponse>, now: string): (o: OpportunityResponse)
    requires |quotes| > 0
    ensures o.eventId == quotes[0].eventId && o.marketName == quotes[0].marketName
    ensures o.sumImpliedProbability == sumImplied && o.guaranteedProfitFraction == guaranteedProfitFraction
    ensures o.bankroll == bankroll && o.stakes == stakes && o.createdAt == now
    ensures o.metrics.None? && o.simulation.None?
  {
    var exemplar := quotes[0];
    OpportunityResponse(
      exemplar.eventId, exemplar.eventName, exemplar.marketName, exemplar.sport, exemplar.league,
      sumImplied, guaranteedProfitFraction, bankroll, now, stakes, None, None)
  }

  /** The opportunity a group that passed the filters describes, with its
      risk metrics and a Monte Carlo run drawing from `start`. */
  function Opportunity(
    group: seq<RunnerQuote>, bankroll: real, now: string,
    draws: nat -> real, start: nat, sqrt: real -> real): (o: OpportunityResponse)
    requires |group| > 0 && ServiceRisk.Normaliser(group) > 0.0 && bankroll > 0.0
    ensures o.sumImpliedProbability == ServiceRisk.Normaliser(group)
    ensures o.guaranteedProfitFraction == ProfitFraction(o.sumImpliedProbability)
    ensures o.bankroll == bankroll && o.createdAt == now
    ensures o.metrics.Some? && o.simulation.Some?
  {
    var sumImplied := ServiceRisk.Normaliser(group);
    var stakes := Stakes(group, bankroll, sumImplied);
    BaseOpportunity(group, bankroll, sumImplied, ProfitFraction(sumImplied), stakes, now).(
      metrics := Some(ServiceRisk.RiskMetricsOf(group, stakes, bankroll, sqrt)),
      simulation := Some(ServiceRisk.MonteCarloOf(group, stakes, bankroll, DefaultSimTrials, draws, start, sqrt).value))
  }

  /** The body of the loop for one group: skipped for fewer than two
      quotes, a book summing to 1 or more, or an edge below the minimum. */
  function GroupOpportunity(
    group: seq<RunnerQuote>, request: AnalyzeRequest, now: string,
    draws: nat -> real, start: nat, sqrt: real -> real): (r: Option<OpportunityResponse>)
    requires WellFormedQuotes(group)
    ensures r.Some? <==> (|group| >= 2 && 0.0 < ServiceRisk.Normaliser(group) < 1.0 &&
      ProfitFraction(ServiceRisk.Normaliser(group)) >= request.minimumEdge)
  {
    if |group| < 2 then None
    else
      ImpliedSumPositive(group);
      var sumImplied := ServiceRisk.Normaliser(group);
      if sumImplied >= 1.0 then None
      else if ProfitFraction(sumImplied) < request.minimumEdge then None
      else Some(Opportunity(group, Bankroll(request), now, draws, start, sqrt))
  }

  /** One pass of the loop: the filters, then `calculateStakes`,
      `buildOpportunity`, `calculateRiskMetrics` and `runMonteCarlo`. */
  method BuildOpportunity(
    quotes: seq<RunnerQuote>, request: AnalyzeRequest, now: string,
    draws: nat -> real, start: nat, sqrt: real -> real) returns (r: Option<OpportunityResponse>)
    requires WellFormedQuotes(quotes)
    ensures r == GroupOpportunity(quotes, request, now, draws, start, sqrt)
  {
    if |quotes| < 2 {
      return None;
    }
    var sumImplied := ServiceRisk.Normaliser(quotes);
    if sumImplied >= 1.0 {
      return None;
    }
    ImpliedSumPositive(quotes);
    var bankroll := if request.bankroll > 0.0 then request.bankroll else DefaultBankroll;
    var payoutMultiplier := 1.0 / sumImplied;
    var guaranteedProfitFraction := payoutMultiplier - 1.0;
    if guaranteedProfitFraction < request.minimumEdge {
      return None;
    }
    var opportunity := EmitOpportunity(quotes, bankroll, sumImplied, guaranteedProfitFraction, now, draws, start, sqrt);
    r := Some(opportunity);
  }

  /** The tail of the loop body once a group passed the filters. */
  method EmitOpportunity(
    quotes: seq<RunnerQuote>, bankroll: real, sumImplied: real, guaranteedProfitFraction: real,
    now: string, draws: nat -> real, start: nat, sqrt: real -> real) returns (response: OpportunityResponse)
    requires |quotes| > 0 && sumImplied == ServiceRisk.Normaliser(quotes) && sumImplied > 0.0 && bankroll > 0.0
    requires guaranteedProfitFraction == ProfitFraction(sumImplied)
    ensures response == Opportunity(quotes, bankroll, now, draws, start, sqrt)
  {
    var stakes := CalculateStakes(quotes, bankroll, sumImplied);
    response := BaseOpportunity(quotes, bankroll, sumImplied, guaranteedProfitFraction, stakes, now);
    var metrics := ServiceRisk.CalculateRiskMetrics(quotes, stakes, bankroll, sqrt);
    response := response.(metrics := Some(metrics));
    var simulation := ServiceRisk.RunMonteCarlo(quotes, stakes, bankroll, DefaultSimTrials, draws, start, sqrt);
    response := response.(simulation := Some(simulation.value));
  }

  /** The body of the loop as a value: a group and the draw its
      simulation starts at give the group's opportunity, if any. */
  function GroupStep(request: AnalyzeRequest, now: string, draws: nat -> real, sqrt: real -> real):
    (step: (seq<RunnerQuote>, nat) --> Option<OpportunityResponse>)
    ensures forall g, from: nat :: WellFormedQuotes(g) ==> step.requires(g, from)
  {
    (g: seq<RunnerQuote>, from: nat) requires WellFormedQuotes(g) => GroupOpportunity(g, request, now, draws, from, sqrt)
  }

  /** Applying the loop body to a well-formed group is the group's
      opportunity. */
  lemma GroupStepApplies(g: seq<RunnerQuote>, from: nat, request: AnalyzeRequest, now: string, draws: nat -> real, sqrt: real -> real)
    requires WellFormedQuotes(g)
    ensures GroupStep(request, now, draws, sqrt).requires(g, from)
    ensures GroupStep(request, now, draws, sqrt)(g, from) == GroupOpportunity(g, request, now, draws, from, sqrt)
  {
  }

  /** The loop body may be applied to well-formed groups. */
  lemma WellFormedSteppable(groups: seq<seq<RunnerQuote>>, request: AnalyzeRequest, now: string, draws: nat -> real, sqrt: real -> real)
    requires AllWellFormed(groups)
    ensures Steppable(groups, GroupStep(request, now, draws, sqrt))
  {
  }

  /** `step` may be applied to every group of the list. */
  ghost predicate Steppable(groups: seq<seq<RunnerQuote>>, step: (seq<RunnerQuote>, nat) --> Option<OpportunityResponse>)
  {
    forall g, from: nat :: g in groups ==> step.requires(g, from)
  }

  /** The opportunities of the groups, in group order, before sorting; the
      simulation of each emitted opportunity consumes `DefaultSimTrials`
      draws, so the next one starts that much further on. */
  function Collect(
    groups: seq<seq<RunnerQuote>>, step: (seq<RunnerQuote>, nat) --> Option<OpportunityResponse>, start: nat):
    (r: seq<OpportunityResponse>)
    requires Steppable(groups, step)
    ensures |r| <= |groups|
  {
    if |groups| == 0 then []
    else
      var front := groups[..|groups| - 1];
      assert forall g :: g in front ==> g in groups;
      var found := Collect(front, step, start);
      Emitted(found, step(groups[|groups| - 1], start + DefaultSimTrials * |found|))
  }

  /** One more pass of the loop. */
  lemma CollectStep(
    groups: seq<seq<RunnerQuote>>, step: (seq<RunnerQuote>, nat) --> Option<OpportunityResponse>, start: nat, i: nat)
    requires Steppable(groups, step) && i < |groups|
    ensures Steppable(groups[..i], step) && Steppable(groups[..i + 1], step)
    ensures var found := Collect(groups[..i], step, start);
      Collect(groups[..i + 1], step, start) == Emitted(found, step(groups[i], start + DefaultSimTrials * |found|))
  {
    assert forall g :: g in groups[..i + 1] ==> g in groups;
    assert groups[..i + 1][..i] == groups[..i];
  }

  /** Every collected opportunity is what the step gave for one of the
      groups. */
  lemma {:induction false} CollectedFrom(
    groups: seq<seq<RunnerQuote>>, step: (seq<RunnerQuote>, nat) --> Option<OpportunityResponse>, start: nat)
    requires Steppable(groups, step)
    ensures forall o :: o in Collect(groups, step, start) ==>
      exists g, from: nat :: g in groups && step(g, from) == Some(o)
  {
    if |groups| > 0 {
      var front := groups[..|groups| - 1];
      assert forall g :: g in front ==> g in groups;
      CollectedFrom(front, step, start);
    }
  }

  /** `opportunities.add(response)` for a group that was not skipped. */
  function Emitted(found: seq<OpportunityResponse>, response: Option<OpportunityResponse>): (r: seq<OpportunityResponse>)
    ensures response.None? ==> r == found
    ensures response.Some? ==> r == found + [response.value]
  {
    match response
    case None => found
    case Some(o) => found + [o]
  }

  /** `-guaranteedProfitFraction`: ascending order on it is the source's
      descending order on profit. */
  function NegatedProfit(o: OpportunityResponse): real
  {
    -o.guaranteedProfitFraction
  }

  /** What `analyzeSnapshot` returns: sorted by guaranteed profit, highest
      first. */
  function Analyze(request: AnalyzeRequest, now: string, draws: nat -> real, start: nat, sqrt: real -> real): (r: seq<OpportunityResponse>)
    requires PositiveOdds(request.markets)
    ensures forall i, j :: 0 <= i < j < |r| ==> r[i].guaranteedProfitFraction >= r[j].guaranteedProfitFraction
  {
    WellFormedSteppable(Groups(request.markets), request, now, draws, sqrt);
    var r := Sorting.SortBy(Collect(Groups(request.markets), GroupStep(request, now, draws, sqrt), start), NegatedProfit);
    assert forall i, j :: 0 <= i < j < |r| ==> NegatedProfit(r[i]) <= NegatedProfit(r[j]);
    r
  }

  /** `step` is the loop body: on a well-formed group it gives the group's
      opportunity. */
  ghost predicate StepsGroups(
    step: (seq<RunnerQuote>, nat) --> Option<OpportunityResponse>,
    request: AnalyzeRequest, now: string, draws: nat -> real, sqrt: real -> real)
  {
    forall g, from: nat {:trigger GroupOpportunity(g, request, now, draws, from, sqrt)} :: WellFormedQuotes(g) ==>
      step.requires(g, from) && step(g, from) == GroupOpportunity(g, request, now, draws, from, sqrt)
  }

  lemma GroupStepStepsGroups(request: AnalyzeRequest, now: string, draws: nat -> real, sqrt: real -> real)
    ensures StepsGroups(GroupStep(request, now, draws, sqrt), request, now, draws, sqrt)
  {
    forall g, from: nat | WellFormedQuotes(g)
      ensures GroupStep(request, now, draws, sqrt)(g, from) == GroupOpportunity(g, request, now, draws, from, sqrt)
    {
      GroupStepApplies(g, from, request, now, draws, sqrt);
    }
  }

  /** The loop of `analyzeSnapshot` over the groups; `step` stands for its
      body in the specification. */
  method CollectGroups(
    groups: seq<seq<RunnerQuote>>, request: AnalyzeRequest, now: string,
    draws: nat -> real, start: nat, sqrt: real -> real,
    ghost step: (seq<RunnerQuote>, nat) --> Option<OpportunityResponse>) returns (found: seq<OpportunityResponse>)
    requires AllWellFormed(groups) && Steppable(groups, step) && StepsGroups(step, request, now, draws, sqrt)
    ensures found == Collect(groups, step, start)
  {
    found := [];
    for i := 0 to |groups|
      invariant Steppable(groups[..i], step) && found == Collect(groups[..i], step, start)
    {
      found := ApplyStep(groups, request, now, draws, start, sqrt, step, i, found);
    }
    assert groups[..|groups|] == groups;
  }

  /** One pass of the loop body: the next group's opportunity, which is
      what `step` gives for it, appended when there is one. */
  method ApplyStep(
    groups: seq<seq<RunnerQuote>>, request: AnalyzeRequest, now: string,
    draws: nat -> real, start: nat, sqrt: real -> real,
    ghost step: (seq<RunnerQuote>, nat) --> Option<OpportunityResponse>,
    i: nat, found: seq<OpportunityResponse>) returns (next: seq<OpportunityResponse>)
    requires AllWellFormed(groups) && Steppable(groups, step) && StepsGroups(step, request, now, draws, sqrt)
    requires i < |groups| && Steppable(groups[..i], step) && found == Collect(groups[..i], step, start)
    ensures Steppable(groups[..i + 1], step) && next == Collect(groups[..i + 1], step, start)
  {
    var from := start + DefaultSimTrials * |found|;
    CollectStep(groups, step, start, i);
    var response := StepOpportunity(groups[i], request, now, draws, from, sqrt, step);
    next := if response.Some? then found + [response.value] else found;
  }

  /** The group's opportunity, which is what `step` gives for it. */
  method StepOpportunity(
    group: seq<RunnerQuote>, request: AnalyzeRequest, now: string,
    draws: nat -> real, from: nat, sqrt: real -> real,
    ghost step: (seq<RunnerQuote>, nat) --> Option<OpportunityResponse>) returns (response: Option<OpportunityResponse>)
    requires WellFormedQuotes(group) && StepsGroups(step, request, now, draws, sqrt)
    ensures step.requires(group, from) && response == step(group, from)
  {
    response := BuildOpportunity(group, request, now, draws, from, sqrt);
  }

  /** `analyzeSnapshot`. */
  method AnalyzeSnapshot(request: AnalyzeRequest, now: string, draws: nat -> real, start: nat, sqrt: real -> real)
    returns (opportunities: seq<OpportunityResponse>)
    requires PositiveOdds(request.markets)
    ensures opportunities == Analyze(request, now, draws, start, sqrt)
  {
    var bestQuotes := BestQuotesByRunner(request.markets);
    var grouped := GroupByEventAndMarket(bestQuotes);
    var groups: seq<seq<RunnerQuote>> := Values(grouped);
    assert groups == Groups(request.markets);
    WellFormedSteppable(groups, request, now, draws, sqrt);
    GroupStepStepsGroups(request, now, draws, sqrt);
    var found := CollectGroups(groups, request, now, draws, start, sqrt, GroupStep(request, now, draws, sqrt));
    opportunities := Sorting.SortBy(found, NegatedProfit);
  }

  /* ---------- what every reported opportunity satisfies ---------- */

  /** A balanced arbitrage book: the implied sum is below 1, the edge is
      1/sum - 1, at least two legs, fractions summing to 1, and every leg
      paying bankroll / sum. */
  ghost predicate Balanced(o: OpportunityResponse)
  {
    0.0 < o.sumImpliedProbability < 1.0 &&
    o.guaranteedProfitFraction == ProfitFraction(o.sumImpliedProbability) &&
    o.bankroll > 0.0 &&
    |o.stakes| >= 2 &&
    Sum(StakeFractions(o.stakes)) == 1.0 &&
    forall i :: 0 <= i < |o.stakes| ==> o.stakes[i].payout == o.bankroll / o.sumImpliedProbability
  }

  /** Metrics and a simulation that report a certain profit: every figure
      is that profit, with no spread, certain winning and a positive Kelly
      stake. */
  predicate Certain(m: RiskMetrics, sim: SimulationSummary, profit: real)
  {
    m.expectedValue == profit &&
    m.standardDeviation == 0.0 &&
    m.sharpeRatio.None? &&
    m.winProbability == 1.0 &&
    m.valueAtRisk == profit &&
    m.kellyFraction > 0.0 &&
    sim.mean == profit &&
    sim.stddev == 0.0 &&
    sim.percentile5 == profit &&
    sim.percentile95 == profit &&
    sim.pPositive == 1.0
  }

  /** The book is riskless and its metrics and simulation say so: every
      figure is what the first leg pays above the bankroll. */
  ghost predicate Riskless(o: OpportunityResponse)
  {
    |o.stakes| > 0 && o.metrics.Some? && o.simulation.Some? &&
    o.simulation.value.trials == DefaultSimTrials &&
    Certain(o.metrics.value, o.simulation.value, o.stakes[0].payout - o.bankroll)
  }

  ghost predicate SoundOpportunity(o: OpportunityResponse, request: AnalyzeRequest, now: string, sqrt: real -> real)
  {
    Balanced(o) && o.guaranteedProfitFraction >= request.minimumEdge &&
    o.bankroll == Bankroll(request) && o.createdAt == now &&
    (IsSqrt(sqrt) ==> Riskless(o))
  }

  /** b / s exceeds b when 0 < s < 1, by b * (1/s - 1). */
  lemma GrowsOverFraction(b: real, s: real)
    requires b > 0.0 && 0.0 < s < 1.0
    ensures b / s > b
    ensures b / s - b == ProfitFraction(s) * b
  {
    OverFractionGrows(b, s);
  }

  /** In a book below 1 every leg has odds above evens and an edge, so its
      Kelly fraction is positive. */
  lemma LegKellyPositive(group: seq<RunnerQuote>, i: nat)
    requires WellFormedQuotes(group) && i < |group| && 0.0 < ServiceRisk.Normaliser(group) < 1.0
    ensures ServiceRisk.LegKelly(group[i], ServiceRisk.Normaliser(group)) > 0.0
  {
    var s := ServiceRisk.Normaliser(group);
    var q := group[i];
    TermAtMostSum(ServiceRisk.Implieds(group), i);
    assert q.impliedProbability < 1.0;
    assert q.impliedProbability * q.odds == 1.0;
    assert q.odds > 1.0;
    assert ServiceRisk.Edge(q, s) == 1.0 / s by {
      assert q.impliedProbability / s * q.odds == (q.impliedProbability * q.odds) / s;
    }
    GrowsOverFraction(1.0, s);
  }

  /** Legs that all pay the same amount above the bankroll, with a leg that
      has an edge, give certain metrics and a certain simulation. */
  lemma CertainFigures(
    group: seq<RunnerQuote>, stakes: seq<StakeResponse>, bankroll: real, payout: real,
    draws: nat -> real, start: nat, sqrt: real -> real)
    requires |group| > 0 && ServiceRisk.Normaliser(group) != 0.0 && |stakes| == |group|
    requires bankroll > 0.0 && IsSqrt(sqrt)
    requires ServiceRisk.EqualPayouts(stakes, payout) && payout > bankroll
    requires ServiceRisk.LegKelly(group[0], ServiceRisk.Normaliser(group)) > 0.0
    ensures Certain(
      ServiceRisk.RiskMetricsOf(group, stakes, bankroll, sqrt),
      ServiceRisk.MonteCarloOf(group, stakes, bankroll, DefaultSimTrials, draws, start, sqrt).value,
      payout - bankroll)
  {
    ServiceRisk.EqualPayoutsRiskless(group, stakes, bankroll, payout, sqrt);
    ServiceRisk.EqualPayoutsCertain(group, stakes, bankroll, payout, DefaultSimTrials, draws, start, sqrt);
  }

  /** The opportunity built from stakes that spend the bankroll and pay
      the same amount above it on every leg is balanced. */
  lemma BalancedFromStakes(
    group: seq<RunnerQuote>, stakes: seq<StakeResponse>, bankroll: real, payout: real, now: string,
    draws: nat -> real, start: nat, sqrt: real -> real)
    requires |group| >= 2 && 0.0 < ServiceRisk.Normaliser(group) < 1.0 && bankroll > 0.0
    requires stakes == Stakes(group, bankroll, ServiceRisk.Normaliser(group))
    requires Sum(StakeFractions(stakes)) == 1.0
    requires ServiceRisk.EqualPayouts(stakes, payout) && payout == bankroll / ServiceRisk.Normaliser(group)
    ensures Balanced(Opportunity(group, bankroll, now, draws, start, sqrt))
  {
    assert Opportunity(group, bankroll, now, draws, start, sqrt).stakes == stakes;
  }

  /** ... and riskless: its metrics and simulation report what a leg pays
      above the bankroll as certain. */
  lemma RisklessFromStakes(
    group: seq<RunnerQuote>, stakes: seq<StakeResponse>, bankroll: real, payout: real, now: string,
    draws: nat -> real, start: nat, sqrt: real -> real)
    requires |group| >= 2 && 0.0 < ServiceRisk.Normaliser(group) && bankroll > 0.0 && IsSqrt(sqrt)
    requires stakes == Stakes(group, bankroll, ServiceRisk.Normaliser(group))
    requires ServiceRisk.EqualPayouts(stakes, payout) && payout > bankroll
    requires ServiceRisk.LegKelly(group[0], ServiceRisk.Normaliser(group)) > 0.0
    ensures Riskless(Opportunity(group, bankroll, now, draws, start, sqrt))
  {
    var o := Opportunity(group, bankroll, now, draws, start, sqrt);
    assert o.stakes == stakes;
    CertainFigures(group, stakes, bankroll, payout, draws, start, sqrt);
    assert o.metrics == Some(ServiceRisk.RiskMetricsOf(group, stakes, bankroll, sqrt));
    assert o.simulation == Some(ServiceRisk.MonteCarloOf(group, stakes, bankroll, DefaultSimTrials, draws, start, sqrt).value);
  }

  /** The opportunity of a group whose book is below 1 is balanced, and
      riskless. */
  lemma OpportunitySound(
    group: seq<RunnerQuote>, bankroll: real, now: string,
    draws: nat -> real, start: nat, sqrt: real -> real)
    requires WellFormedQuotes(group) && |group| >= 2 && 0.0 < ServiceRisk.Normaliser(group) < 1.0 && bankroll > 0.0
    ensures Balanced(Opportunity(group, bankroll, now, draws, start, sqrt))
    ensures IsSqrt(sqrt) ==> Riskless(Opportunity(group, bankroll, now, draws, start, sqrt))
  {
    var s := ServiceRisk.Normaliser(group);
    StakesSpendBankroll(group, bankroll);
    EqualPayouts(group, bankroll);
    GrowsOverFraction(bankroll, s);
    LegKellyPositive(group, 0);
    BalancedFromStakes(group, Stakes(group, bankroll, s), bankroll, bankroll / s, now, draws, start, sqrt);
    if IsSqrt(sqrt) {
      RisklessFromStakes(group, Stakes(group, bankroll, s), bankroll, bankroll / s, now, draws, start, sqrt);
    }
  }

  /** In a balanced book what a leg pays above the bankroll is the
      guaranteed profit fraction of the bankroll, so a riskless
      opportunity's metrics and simulation all report that profit. */
  lemma RisklessReportsProfit(o: OpportunityResponse)
    requires Balanced(o) && Riskless(o)
    ensures Certain(o.metrics.value, o.simulation.value, GuaranteedProfit(o))
  {
    BalancedProfit(o);
  }

  /** Every opportunity a group yields is sound. */
  lemma GroupOpportunitySound(
    group: seq<RunnerQuote>, request: AnalyzeRequest, now: string,
    draws: nat -> real, start: nat, sqrt: real -> real)
    requires WellFormedQuotes(group)
    ensures var r := GroupOpportunity(group, request, now, draws, start, sqrt);
      r.Some? ==> SoundOpportunity(r.value, request, now, sqrt)
  {
    if GroupOpportunity(group, request, now, draws, start, sqrt).Some? {
      OpportunitySound(group, Bankroll(request), now, draws, start, sqrt);
    }
  }

  /** A reordering of sound opportunities is sound. */
  lemma SoundPermuted(a: seq<OpportunityResponse>, b: seq<OpportunityResponse>, request: AnalyzeRequest, now: string, sqrt: real -> real)
    requires multiset(a) == multiset(b)
    requires forall o :: o in a ==> SoundOpportunity(o, request, now, sqrt)
    ensures forall j :: 0 <= j < |b| ==> SoundOpportunity(b[j], request, now, sqrt)
  {
    forall j | 0 <= j < |b| ensures SoundOpportunity(b[j], request, now, sqrt) {
      assert b[j] in multiset(a);
    }
  }

  /** Every opportunity `analyzeSnapshot` reports is a balanced arbitrage
      book meeting the minimum edge, staked with the request's bankroll
      (or 1000), whose metrics and simulation report a certain profit. */
  lemma AnalyzeSound(request: AnalyzeRequest, now: string, draws: nat -> real, start: nat, sqrt: real -> real)
    requires PositiveOdds(request.markets)
    ensures var r := Analyze(request, now, draws, start, sqrt);
      forall i :: 0 <= i < |r| ==> SoundOpportunity(r[i], request, now, sqrt)
  {
    var groups := Groups(request.markets);
    var step := GroupStep(request, now, draws, sqrt);
    WellFormedSteppable(groups, request, now, draws, sqrt);
    var c := Collect(groups, step, start);
    CollectedFrom(groups, step, start);
    forall o | o in c ensures SoundOpportunity(o, request, now, sqrt) {
      var g, from: nat :| g in groups && step(g, from) == Some(o);
      GroupStepApplies(g, from, request, now, draws, sqrt);
      GroupOpportunitySound(g, request, now, draws, from, sqrt);
    }
    SoundPermuted(c, Analyze(request, now, draws, start, sqrt), request, now, sqrt);
  }

  /* ---------- runSimulation ---------- */

  /** The quotes `runSimulation` rebuilds from the stakes: no runner id,
      and the implied probability recovered as fraction * sum. */
  function RebuiltQuotes(o: OpportunityResponse): (r: seq<RunnerQuote>)
    ensures |r| == |o.stakes|
    ensures forall i :: 0 <= i < |r| ==> (r[i].runnerId.None? && r[i].odds == o.stakes[i].odds &&
      r[i].impliedProbability == o.stakes[i].stakeFraction * o.sumImpliedProbability)
  {
    seq(|o.stakes|, i requires 0 <= i < |o.stakes| =>
      var stake := o.stakes[i];
      RunnerQuote(o.eventId, o.eventName, o.marketName, o.sport, o.league,
        None, stake.runner, stake.providerId, stake.providerName,
        stake.odds, stake.stakeFraction * o.sumImpliedProbability))
  }

  /** What `runSimulation` returns: the request's bankroll and trials, or
      the opportunity's bankroll and 2000; an error for fewer than one
      trial. */
  function Simulate(request: SimulateRequest, draws: nat -> real, start: nat, sqrt: real -> real): (r: Result<SimulationSummary, ServiceRisk.SimulationError>)
    requires ServiceRisk.Normalisable(RebuiltQuotes(request.opportunity))
    ensures r.Err? <==> request.trials.GetOr(DefaultSimTrials) <= 0
    ensures r.Ok? ==> r.value.trials == request.trials.GetOr(DefaultSimTrials)
  {
    var o := request.opportunity;
    var bankroll := request.bankroll.GetOr(o.bankroll);
    var trials := request.trials.GetOr(DefaultSimTrials);
    var r := ServiceRisk.MonteCarloOf(RebuiltQuotes(o), o.stakes, bankroll, trials, draws, start, sqrt);
    assert r.Ok? ==> r.value == ServiceRisk.SummaryOf(
      ServiceRisk.Outcomes(ServiceRisk.Probabilities(RebuiltQuotes(o)), ServiceRisk.Payouts(o.stakes), bankroll, draws, start, trials), trials, sqrt);
    r
  }

  /** `runSimulation`. */
  method RunSimulation(request: SimulateRequest, draws: nat -> real, start: nat, sqrt: real -> real)
    returns (r: Result<SimulationSummary, ServiceRisk.SimulationError>)
    requires ServiceRisk.Normalisable(RebuiltQuotes(request.opportunity))
    ensures r == Simulate(request, draws, start, sqrt)
  {
    var opportunity := request.opportunity;
    var bankroll := request.bankroll.GetOr(opportunity.bankroll);
    var trials := request.trials.GetOr(DefaultSimTrials);
    var quotes := RebuiltQuotes(opportunity);
    r := ServiceRisk.RunMonteCarlo(quotes, opportunity.stakes, bankroll, trials, draws, start, sqrt);
  }

  /** A balanced opportunity's rebuilt quotes sum back to its implied sum. */
  lemma RebuiltSum(o: OpportunityResponse)
    requires Balanced(o)
    ensures ServiceRisk.Normaliser(RebuiltQuotes(o)) == o.sumImpliedProbability
  {
    var quotes := RebuiltQuotes(o);
    SumScale(StakeFractions(o.stakes), ServiceRisk.Implieds(quotes), o.sumImpliedProbability);
  }

  /** Re-simulating a balanced opportunity: every trial pays the same leg
      amount, so the result is certain. The payouts are the reported ones
      and are not rescaled: with a bankroll b in the request the profit is
      payout - b. */
  lemma ResimulateBalanced(request: SimulateRequest, draws: nat -> real, start: nat, sqrt: real -> real)
    requires Balanced(request.opportunity) && IsSqrt(sqrt)
    ensures ServiceRisk.Normalisable(RebuiltQuotes(request.opportunity))
    ensures var o := request.opportunity;
      var r := Simulate(request, draws, start, sqrt);
      var payout := o.bankroll / o.sumImpliedProbability;
      var b := request.bankroll.GetOr(o.bankroll);
      r.Ok? ==>
        r.value.mean == payout - b && r.value.stddev == 0.0 &&
        r.value.percentile5 == payout - b && r.value.percentile95 == payout - b &&
        r.value.pPositive == (if payout > b then 1.0 else 0.0)
  {
    var o := request.opportunity;
    RebuiltSum(o);
    var payout := o.bankroll / o.sumImpliedProbability;
    var b := request.bankroll.GetOr(o.bankroll);
    var trials := request.trials.GetOr(DefaultSimTrials);
    if trials >= 1 {
      assert ServiceRisk.EqualPayouts(o.stakes, payout);
      ServiceRisk.EqualPayoutsCertain(RebuiltQuotes(o), o.stakes, b, payout, trials, draws, start, sqrt);
    }
  }

  /** The profit an opportunity guarantees, in money. */
  function GuaranteedProfit(o: OpportunityResponse): real
  {
    o.guaranteedProfitFraction * o.bankroll
  }

  /** In a balanced book every leg pays the bankroll plus the guaranteed
      profit, and that profit is positive. */
  lemma BalancedProfit(o: OpportunityResponse)
    requires Balanced(o)
    ensures o.bankroll / o.sumImpliedProbability - o.bankroll == GuaranteedProfit(o)
    ensures GuaranteedProfit(o) > 0.0
  {
    GrowsOverFraction(o.bankroll, o.sumImpliedProbability);
  }

  /** Re-simulating a reported opportunity with its own bankroll reproduces
      its guaranteed profit, with certainty. */
  lemma ResimulateReproducesProfit(request: SimulateRequest, draws: nat -> real, start: nat, sqrt: real -> real)
    requires Balanced(request.opportunity) && IsSqrt(sqrt) && request.bankroll.None?
    ensures ServiceRisk.Normalisable(RebuiltQuotes(request.opportunity))
    ensures var r := Simulate(request, draws, start, sqrt);
      r.Ok? ==> r.value.mean == GuaranteedProfit(request.opportunity) && r.value.pPositive == 1.0
  {
    var o := request.opportunity;
    ResimulateBalanced(request, draws, start, sqrt);
    assert request.bankroll.GetOr(o.bankroll) == o.bankroll;
    BalancedProfit(o);
  }
}
