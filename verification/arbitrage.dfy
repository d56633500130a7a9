/** Arbitrage detection over normalised markets (server/workers/arbitrage.ts):
    keep the best-priced quote per runner, group the quotes by event and
    market, and stake each group proportionally to implied probability so
    that every leg pays the same amount. */
module Arbitrage {
  import opened Wrappers
  import opened Numeric
  import opened Text
  import opened Schema
  import opened OrderedMap
  import KeepBest
  import Grouping
  import Sorting

  /** A market's price as the detector sees it. */
  datatype RunnerQuote = RunnerQuote(market: Market, provider: Provider, odds: real, impliedProbability: real)

  /** What `calculateStakes` returns when it does not return null. */
  datatype StakePlan = StakePlan(stakes: seq<ArbitrageStake>, guaranteedProfitFraction: real)

  /** `ArbitrageDetectionOptions`; an omitted optional field is `None`. */
  datatype DetectionOptions = DetectionOptions(bankroll: real, minimumEdge: Option<real>, minimumProviders: Option<int>)

  const DefaultMinimumEdge: real := 0.005
  const DefaultMinimumProviders: int := 2

  /** Markets whose odds the detector can invert (every schema-valid market). */
  predicate PositiveOdds(markets: seq<Market>)
  {
    forall i :: 0 <= i < |markets| ==> markets[i].oddsDecimal > 0.0
  }

  /** A quote as `bestQuotesByRunner` builds it: positive odds and their inverse. */
  predicate WellFormedQuote(q: RunnerQuote)
  {
    q.odds > 0.0 && q.impliedProbability == 1.0 / q.odds
  }

  predicate WellFormedQuotes(qs: seq<RunnerQuote>)
  {
    forall i :: 0 <= i < |qs| ==> WellFormedQuote(qs[i])
  }

  function QuoteOf(m: Market): (q: RunnerQuote)
    requires m.oddsDecimal > 0.0
    ensures WellFormedQuote(q) && q.market == m && q.provider == m.provider
    ensures q.impliedProbability > 0.0
  {
    RunnerQuote(m, m.provider, m.oddsDecimal, 1.0 / m.oddsDecimal)
  }

  lemma ImpliedTimesOdds(q: RunnerQuote)
    requires WellFormedQuote(q)
    ensures q.impliedProbability * q.odds == 1.0 && q.impliedProbability > 0.0
  {
  }

  /* ---------- best quote per runner ---------- */

  /** `serializeGroupingKey(toGroupingKey(market))`. */
  function RunnerKey(m: Market): string
  {
    m.eventId + "::" + Lower(m.marketName) + "::" + m.runner.id
  }

  function QuoteKey(q: RunnerQuote): string
  {
    RunnerKey(q.market)
  }

  /** `existing.odds < market.oddsDecimal`. */
  predicate OddsBelow(a: RunnerQuote, b: RunnerQuote)
  {
    a.odds < b.odds
  }

  function Quotes(markets: seq<Market>): (qs: seq<RunnerQuote>)
    requires PositiveOdds(markets)
    ensures |qs| == |markets|
    ensures forall i :: 0 <= i < |markets| ==> qs[i] == QuoteOf(markets[i])
  {
    seq(|markets|, i requires 0 <= i < |markets| => QuoteOf(markets[i]))
  }

  /** The map `bestQuotesByRunner` returns, in insertion order. */
  function BestQuotes(markets: seq<Market>): seq<(string, RunnerQuote)>
    requires PositiveOdds(markets)
  {
    KeepBest.Fold(Quotes(markets), QuoteKey, OddsBelow)
  }

  /** `bestQuotesByRunner`. */
  method BestQuotesByRunner(markets: seq<Market>) returns (best: seq<(string, RunnerQuote)>)
    requires PositiveOdds(markets)
    ensures best == BestQuotes(markets)
  {
    ghost var qs := Quotes(markets);
    best := [];
    for i := 0 to |markets|
      invariant best == KeepBest.Fold(qs[..i], QuoteKey, OddsBelow)
    {
      var market := markets[i];
      var key := RunnerKey(market);
      var existing := Get(best, key);
      if existing.None? || existing.value.odds < market.oddsDecimal {
        best := Set(best, key, QuoteOf(market));
      }
      assert qs[..i + 1][..i] == qs[..i];
    }
    assert qs[..|markets|] == qs;
  }

  lemma OddsOrder()
    ensures KeepBest.StrictWeakOrder(OddsBelow)
  {
  }

  /** Each kept quote is the quote of an input market with the highest odds
      of its key, and the first such: strictly greater odds are needed to
      replace a kept quote. */
  lemma BestQuoteIsMaximal(markets: seq<Market>)
    requires PositiveOdds(markets)
    ensures forall e :: 0 <= e < |BestQuotes(markets)| ==> KeptBest(markets, BestQuotes(markets)[e])
  {
    forall e | 0 <= e < |BestQuotes(markets)|
      ensures KeptBest(markets, BestQuotes(markets)[e])
    {
      var i := BestQuoteAt(markets, e);
    }
  }

  /** The entry is (key, quote) of a market that is the best of its key. */
  ghost predicate KeptBest(markets: seq<Market>, entry: (string, RunnerQuote))
    requires PositiveOdds(markets)
  {
    exists i :: 0 <= i < |markets| && BestOf(markets, i) && entry == (RunnerKey(markets[i]), QuoteOf(markets[i]))
  }

  /** Market i has the highest odds of its runner key, and every earlier
      market with that key has strictly lower odds. */
  ghost predicate BestOf(markets: seq<Market>, i: int)
  {
    0 <= i < |markets| &&
    (forall j :: 0 <= j < |markets| && RunnerKey(markets[j]) == RunnerKey(markets[i]) ==>
      markets[j].oddsDecimal <= markets[i].oddsDecimal) &&
    (forall j :: 0 <= j < i && RunnerKey(markets[j]) == RunnerKey(markets[i]) ==>
      markets[j].oddsDecimal < markets[i].oddsDecimal)
  }

  lemma BestQuoteAt(markets: seq<Market>, e: nat) returns (i: nat)
    requires PositiveOdds(markets) && e < |BestQuotes(markets)|
    ensures BestOf(markets, i) && BestQuotes(markets)[e] == (RunnerKey(markets[i]), QuoteOf(markets[i]))
  {
    var qs := Quotes(markets);
    var best := BestQuotes(markets);
    OddsOrder();
    KeepBest.FoldEntries(qs, QuoteKey, OddsBelow);
    i :| KeepBest.Chosen(qs, i, QuoteKey, OddsBelow) && best[e] == (QuoteKey(qs[i]), qs[i]);
    forall j | 0 <= j < |markets| && RunnerKey(markets[j]) == RunnerKey(markets[i])
      ensures markets[j].oddsDecimal <= markets[i].oddsDecimal
    {
      assert QuoteKey(qs[j]) == QuoteKey(qs[i]);
    }
    forall j | 0 <= j < i && RunnerKey(markets[j]) == RunnerKey(markets[i])
      ensures markets[j].oddsDecimal < markets[i].oddsDecimal
    {
      assert QuoteKey(qs[j]) == QuoteKey(qs[i]);
    }
  }

  /** Every runner key of the input has a kept quote, and no key has two. */
  lemma BestQuotesComplete(markets: seq<Market>)
    requires PositiveOdds(markets)
    ensures UniqueKeys(BestQuotes(markets))
    ensures forall i :: 0 <= i < |markets| ==> RunnerKey(markets[i]) in Keys(BestQuotes(markets))
  {
    var qs := Quotes(markets);
    KeepBest.FoldKeys(qs, QuoteKey, OddsBelow);
    forall i | 0 <= i < |markets| ensures RunnerKey(markets[i]) in Keys(BestQuotes(markets)) {
      assert QuoteKey(qs[i]) in KeepBest.InputKeys(qs, QuoteKey);
    }
  }

  /** The kept quotes are well formed and carry a provider of the input. */
  lemma BestQuotesSatisfy(markets: seq<Market>, p: RunnerQuote -> bool)
    requires PositiveOdds(markets)
    requires forall i :: 0 <= i < |markets| ==> p(QuoteOf(markets[i]))
    ensures forall e :: 0 <= e < |BestQuotes(markets)| ==> p(BestQuotes(markets)[e].1)
  {
    KeepBest.FoldValuesSatisfy(Quotes(markets), QuoteKey, OddsBelow, p);
  }

  /* ---------- grouping by event and market ---------- */

  /** `${eventId}::${marketName.toLowerCase()}`. */
  function GroupKey(q: RunnerQuote): string
  {
    q.market.eventId + "::" + Lower(q.market.marketName)
  }

  /** `groupQuotesByEventAndMarket`. */
  method GroupQuotesByEventAndMarket(quotes: seq<(string, RunnerQuote)>) returns (grouped: seq<(string, seq<RunnerQuote>)>)
    ensures grouped == Grouping.Grouped(Values(quotes), GroupKey)
  {
    var qs := Values(quotes);
    grouped := [];
    for i := 0 to |qs|
      invariant grouped == Grouping.Grouped(qs[..i], GroupKey)
    {
      var quote := qs[i];
      var key := GroupKey(quote);
      var list := Get(grouped, key).GetOr([]);
      grouped := Set(grouped, key, list + [quote]);
      assert qs[..i + 1][..i] == qs[..i];
    }
    assert qs[..|qs|] == qs;
  }

  /* ---------- stakes ---------- */

  function Implieds(qs: seq<RunnerQuote>): (r: seq<real>)
    ensures |r| == |qs| && forall i :: 0 <= i < |qs| ==> r[i] == qs[i].impliedProbability
  {
    seq(|qs|, i requires 0 <= i < |qs| => qs[i].impliedProbability)
  }

  /** `quotes.reduce((sum, quote) => sum + quote.impliedProbability, 0)`. */
  function ImpliedSum(qs: seq<RunnerQuote>): real
  {
    Sum(Implieds(qs))
  }

  lemma ImpliedSumPositive(qs: seq<RunnerQuote>)
    requires WellFormedQuotes(qs) && |qs| > 0
    ensures ImpliedSum(qs) > 0.0
  {
    SumPositive(Implieds(qs));
  }

  /** One leg: stake the share of the bankroll the quote's implied
      probability claims of the total. */
  function StakeFor(q: RunnerQuote, sumImplied: real, bankroll: real): ArbitrageStake
    requires sumImplied != 0.0
  {
    var stakeFraction := q.impliedProbability / sumImplied;
    var stakeAmount := stakeFraction * bankroll;
    ArbitrageStake(q.market.runner.name, q.provider.id, q.provider.name, q.odds, stakeFraction, stakeAmount, stakeAmount * q.odds)
  }

  /** `calculateStakes`: null for fewer than two quotes or a book that
      sums to 1 or more; otherwise one stake per quote, in order. */
  function CalculateStakes(qs: seq<RunnerQuote>, bankroll: real): (r: Option<StakePlan>)
    requires WellFormedQuotes(qs)
    ensures r.None? <==> |qs| < 2 || ImpliedSum(qs) >= 1.0
    ensures r.Some? ==> 0.0 < ImpliedSum(qs) < 1.0 && r.value.guaranteedProfitFraction > 0.0
    ensures r.Some? ==> |r.value.stakes| == |qs| && forall i :: 0 <= i < |qs| ==>
      r.value.stakes[i].runner == qs[i].market.runner.name &&
      r.value.stakes[i].providerId == qs[i].provider.id &&
      r.value.stakes[i].providerName == qs[i].provider.name &&
      r.value.stakes[i].odds == qs[i].odds
  {
    if |qs| < 2 then None
    else
      var sumImplied := ImpliedSum(qs);
      if sumImplied >= 1.0 then None
      else
        ImpliedSumPositive(qs);
        assert 1.0 / sumImplied > 1.0;
        var stakes := seq(|qs|, i requires 0 <= i < |qs| => StakeFor(qs[i], sumImplied, bankroll));
        Some(StakePlan(stakes, 1.0 / sumImplied - 1.0))
  }

  function StakeFractions(stakes: seq<ArbitrageStake>): (r: seq<real>)
    ensures |r| == |stakes| && forall i :: 0 <= i < |stakes| ==> r[i] == stakes[i].stakeFraction
  {
    seq(|stakes|, i requires 0 <= i < |stakes| => stakes[i].stakeFraction)
  }

  function StakeAmounts(stakes: seq<ArbitrageStake>): (r: seq<real>)
    ensures |r| == |stakes| && forall i :: 0 <= i < |stakes| ==> r[i] == stakes[i].stakeAmount
  {
    seq(|stakes|, i requires 0 <= i < |stakes| => stakes[i].stakeAmount)
  }

  /** The equal-payout invariant: whichever runner wins, its leg pays the
      bankroll divided by the sum of implied probabilities. */
  lemma EqualPayouts(qs: seq<RunnerQuote>, bankroll: real)
    requires WellFormedQuotes(qs) && CalculateStakes(qs, bankroll).Some?
    ensures forall i :: 0 <= i < |qs| ==>
      CalculateStakes(qs, bankroll).value.stakes[i].payout == bankroll / ImpliedSum(qs)
  {
    var s := ImpliedSum(qs);
    var stakes := CalculateStakes(qs, bankroll).value.stakes;
    forall i | 0 <= i < |qs| ensures stakes[i].payout == bankroll / s {
      var q := qs[i];
      ImpliedTimesOdds(q);
      assert stakes[i] == StakeFor(q, s, bankroll);
      calc {
        stakes[i].payout;
        q.impliedProbability / s * bankroll * q.odds;
        (q.impliedProbability * q.odds) * (bankroll / s);
        bankroll / s;
      }
    }
  }

  /** The stake fractions sum to 1, so the stakes spend exactly the bankroll. */
  lemma StakesSpendBankroll(qs: seq<RunnerQuote>, bankroll: real)
    requires WellFormedQuotes(qs) && CalculateStakes(qs, bankroll).Some?
    ensures Sum(StakeFractions(CalculateStakes(qs, bankroll).value.stakes)) == 1.0
    ensures Sum(StakeAmounts(CalculateStakes(qs, bankroll).value.stakes)) == bankroll
  {
    var s := ImpliedSum(qs);
    var stakes := CalculateStakes(qs, bankroll).value.stakes;
    var fractions := StakeFractions(stakes);
    forall i | 0 <= i < |qs| ensures fractions[i] == Implieds(qs)[i] / s {
      assert stakes[i] == StakeFor(qs[i], s, bankroll);
    }
    SumDivide(Implieds(qs), fractions, s);
    assert Sum(fractions) == s / s == 1.0;
    forall i | 0 <= i < |qs| ensures StakeAmounts(stakes)[i] == fractions[i] * bankroll {
      assert stakes[i] == StakeFor(qs[i], s, bankroll);
    }
    SumScale(fractions, StakeAmounts(stakes), bankroll);
  }

  /** guaranteedProfitFraction = 1/sum - 1 is what every leg nets per unit
      of bankroll. */
  lemma GuaranteedProfit(qs: seq<RunnerQuote>, bankroll: real)
    requires WellFormedQuotes(qs) && CalculateStakes(qs, bankroll).Some?
    ensures CalculateStakes(qs, bankroll).value.guaranteedProfitFraction == 1.0 / ImpliedSum(qs) - 1.0
    ensures forall i :: 0 <= i < |qs| ==>
      CalculateStakes(qs, bankroll).value.stakes[i].payout - bankroll ==
      CalculateStakes(qs, bankroll).value.guaranteedProfitFraction * bankroll
  {
    EqualPayouts(qs, bankroll);
    var s := ImpliedSum(qs);
    assert bankroll / s - bankroll == (1.0 / s - 1.0) * bankroll;
  }

  /** With a non-negative bankroll every stake satisfies the stake schema. */
  lemma StakesValid(qs: seq<RunnerQuote>, bankroll: real)
    requires WellFormedQuotes(qs) && CalculateStakes(qs, bankroll).Some? && bankroll >= 0.0
    ensures forall i :: 0 <= i < |qs| ==> ValidStake(CalculateStakes(qs, bankroll).value.stakes[i])
  {
    var s := ImpliedSum(qs);
    var stakes := CalculateStakes(qs, bankroll).value.stakes;
    forall i | 0 <= i < |qs| ensures ValidStake(stakes[i]) {
      assert stakes[i] == StakeFor(qs[i], s, bankroll);
      ImpliedTimesOdds(qs[i]);
      assert stakes[i].stakeFraction >= 0.0;
      assert stakes[i].stakeAmount >= 0.0;
    }
  }

  /* ---------- detection ---------- */

  function MinimumEdge(opts: DetectionOptions): real
  {
    opts.minimumEdge.GetOr(DefaultMinimumEdge)
  }

  function MinimumProviders(opts: DetectionOptions): int
  {
    opts.minimumProviders.GetOr(DefaultMinimumProviders)
  }

  /** `new Set(group.map((quote) => quote.provider.id))`. */
  function ProviderIds(group: seq<RunnerQuote>): set<string>
  {
    set i | 0 <= i < |group| :: group[i].provider.id
  }

  function StakeProviderIds(stakes: seq<ArbitrageStake>): set<string>
  {
    set i | 0 <= i < |stakes| :: stakes[i].providerId
  }

  /** The body of the detection loop for one group: skipped for too few
      providers, no arbitrage, or too small an edge; otherwise the
      opportunity described by the group's first quote. */
  function GroupOpportunity(group: seq<RunnerQuote>, opts: DetectionOptions, now: string): (r: Option<ArbitrageOpportunity>)
    requires WellFormedQuotes(group)
  {
    if |ProviderIds(group)| < MinimumProviders(opts) then None
    else
      match CalculateStakes(group, opts.bankroll)
      case None => None
      case Some(plan) =>
        if plan.guaranteedProfitFraction < MinimumEdge(opts) then None
        else
          var sample := group[0];
          Some(ArbitrageOpportunity(
            sample.market.eventId, sample.market.eventName, sample.market.marketName,
            sample.market.sport, sample.market.league,
            ImpliedSum(group), plan.guaranteedProfitFraction, opts.bankroll, plan.stakes, Some(now)))
  }

  /** What every emitted opportunity satisfies; for a non-negative
      bankroll that includes `arbitrageOpportunitySchema`. */
  ghost predicate SoundOpportunity(o: ArbitrageOpportunity, opts: DetectionOptions, now: string)
  {
    (o.bankroll >= 0.0 ==> ValidOpportunity(o)) &&
    0.0 < o.sumImpliedProbability < 1.0 &&
    o.guaranteedProfitFraction == 1.0 / o.sumImpliedProbability - 1.0 &&
    o.guaranteedProfitFraction >= MinimumEdge(opts) &&
    o.bankroll == opts.bankroll &&
    o.createdAt == Some(now) &&
    |o.stakes| >= 2 &&
    |StakeProviderIds(o.stakes)| >= MinimumProviders(opts) &&
    (forall i :: 0 <= i < |o.stakes| ==> o.stakes[i].payout == o.bankroll / o.sumImpliedProbability) &&
    Sum(StakeFractions(o.stakes)) == 1.0
  }

  /** A group yields an opportunity exactly when it passes the three
      filters, and the opportunity is sound. */
  lemma GroupOpportunitySound(group: seq<RunnerQuote>, opts: DetectionOptions, now: string)
    requires WellFormedQuotes(group)
    ensures GroupOpportunity(group, opts, now).Some? <==>
      |ProviderIds(group)| >= MinimumProviders(opts) &&
      |group| >= 2 && ImpliedSum(group) < 1.0 &&
      (1.0 + MinimumEdge(opts)) * ImpliedSum(group) <= 1.0
    ensures GroupOpportunity(group, opts, now).Some? ==> SoundOpportunity(GroupOpportunity(group, opts, now).value, opts, now)
  {
    if |group| >= 2 {
      ImpliedSumPositive(group);
      EdgeCondition(ImpliedSum(group), MinimumEdge(opts));
      if CalculateStakes(group, opts.bankroll).Some? {
        GuaranteedProfit(group, opts.bankroll);
      }
    }
    if GroupOpportunity(group, opts, now).Some? {
      PlanSound(group, opts, now);
    }
  }

  lemma PlanSound(group: seq<RunnerQuote>, opts: DetectionOptions, now: string)
    requires WellFormedQuotes(group) && GroupOpportunity(group, opts, now).Some?
    ensures SoundOpportunity(GroupOpportunity(group, opts, now).value, opts, now)
  {
    var plan := CalculateStakes(group, opts.bankroll).value;
    GuaranteedProfit(group, opts.bankroll);
    EqualPayouts(group, opts.bankroll);
    StakesSpendBankroll(group, opts.bankroll);
    if opts.bankroll >= 0.0 {
      StakesValid(group, opts.bankroll);
    }
    assert StakeProviderIds(plan.stakes) == ProviderIds(group) by {
      forall p | p in ProviderIds(group) ensures p in StakeProviderIds(plan.stakes) {
        var i :| 0 <= i < |group| && group[i].provider.id == p;
        assert plan.stakes[i].providerId == p;
      }
    }
  }

  /** 1/s - 1 >= m, said without a division. */
  lemma EdgeCondition(s: real, m: real)
    requires s > 0.0
    ensures 1.0 / s - 1.0 >= m <==> (1.0 + m) * s <= 1.0
  {
    assert (1.0 / s - 1.0) * s == 1.0 - s;
    if 1.0 / s - 1.0 >= m {
      ScaleMonotone(m, 1.0 / s - 1.0, s);
    }
    if (1.0 + m) * s <= 1.0 {
      DivideMonotone((1.0 + m) * s, 1.0, s);
    }
  }

  ghost predicate AllWellFormed(groups: seq<seq<RunnerQuote>>)
  {
    forall g :: 0 <= g < |groups| ==> WellFormedQuotes(groups[g])
  }

  /** The opportunities of the groups, in group order, before sorting. */
  function Collect(groups: seq<seq<RunnerQuote>>, opts: DetectionOptions, now: string): (r: seq<ArbitrageOpportunity>)
    requires AllWellFormed(groups)
    ensures |r| <= |groups|
  {
    if |groups| == 0 then []
    else
      var front := groups[..|groups| - 1];
      assert AllWellFormed(front) by { assert forall g :: 0 <= g < |front| ==> front[g] == groups[g]; }
      Collect(front, opts, now) +
        match GroupOpportunity(groups[|groups| - 1], opts, now)
        case None => []
        case Some(o) => [o]
  }

  lemma {:induction false} CollectSound(groups: seq<seq<RunnerQuote>>, opts: DetectionOptions, now: string)
    requires AllWellFormed(groups)
    ensures forall i :: 0 <= i < |Collect(groups, opts, now)| ==> SoundOpportunity(Collect(groups, opts, now)[i], opts, now)
  {
    if |groups| > 0 {
      var front := groups[..|groups| - 1];
      assert forall g :: 0 <= g < |front| ==> front[g] == groups[g];
      CollectSound(front, opts, now);
      GroupOpportunitySound(groups[|groups| - 1], opts, now);
    }
  }

  /** `-guaranteedProfitFraction`: ascending order on it is the source's
      descending order on profit. */
  function NegatedProfit(o: ArbitrageOpportunity): real
  {
    -o.guaranteedProfitFraction
  }

  /** The groups `detectArbitrageOpportunities` walks. */
  function Groups(markets: seq<Market>): (groups: seq<seq<RunnerQuote>>)
    requires PositiveOdds(markets)
    ensures AllWellFormed(groups)
  {
    var qs := Values(BestQuotes(markets));
    BestQuotesSatisfy(markets, WellFormedQuote);
    Grouping.GroupsSatisfy(qs, GroupKey, WellFormedQuote);
    Values(Grouping.Grouped(qs, GroupKey))
  }

  /** What `detectArbitrageOpportunities` returns, createdAt being `now`:
      sorted by guaranteed profit, highest first. */
  function Detect(markets: seq<Market>, opts: DetectionOptions, now: string): (r: seq<ArbitrageOpportunity>)
    requires PositiveOdds(markets)
    ensures forall i, j :: 0 <= i < j < |r| ==> r[i].guaranteedProfitFraction >= r[j].guaranteedProfitFraction
  {
    var r := Sorting.SortBy(Collect(Groups(markets), opts, now), NegatedProfit);
    assert forall i, j :: 0 <= i < j < |r| ==> NegatedProfit(r[i]) <= NegatedProfit(r[j]);
    r
  }

  /** `detectArbitrageOpportunities`. */
  method DetectArbitrageOpportunities(markets: seq<Market>, opts: DetectionOptions, now: string)
    returns (opportunities: seq<ArbitrageOpportunity>)
    requires PositiveOdds(markets)
    ensures opportunities == Detect(markets, opts, now)
  {
    var bestQuotes := BestQuotesByRunner(markets);
    var grouped := GroupQuotesByEventAndMarket(bestQuotes);
    var groups: seq<seq<RunnerQuote>> := Values(grouped);
    assert groups == Groups(markets);
    var found := CollectOpportunities(groups, opts, now);
    opportunities := Sorting.SortBy(found, NegatedProfit);
  }

  /** The loop of `detectArbitrageOpportunities` over the groups. */
  method CollectOpportunities(groups: seq<seq<RunnerQuote>>, opts: DetectionOptions, now: string)
    returns (found: seq<ArbitrageOpportunity>)
    requires AllWellFormed(groups)
    ensures found == Collect(groups, opts, now)
  {
    found := [];
    for i := 0 to |groups|
      invariant found == Collect(groups[..i], opts, now)
    {
      assert groups[..i + 1][..i] == groups[..i];
      var opportunity := OpportunityOf(groups[i], opts, now);
      if opportunity.Some? {
        found := found + [opportunity.value];
      }
    }
    assert groups[..|groups|] == groups;
  }

  /** The loop body: the group's opportunity, if it has enough providers,
      a book below 1 and the minimum edge. */
  method OpportunityOf(group: seq<RunnerQuote>, opts: DetectionOptions, now: string)
    returns (opportunity: Option<ArbitrageOpportunity>)
    requires WellFormedQuotes(group)
    ensures opportunity == GroupOpportunity(group, opts, now)
  {
    opportunity := None;
    var uniqueProviders := ProviderIds(group);
    if |uniqueProviders| >= MinimumProviders(opts) {
      var result := CalculateStakes(group, opts.bankroll);
      if result.Some? && result.value.guaranteedProfitFraction >= MinimumEdge(opts) {
        var sample := group[0];
        opportunity := Some(ArbitrageOpportunity(
          sample.market.eventId, sample.market.eventName, sample.market.marketName,
          sample.market.sport, sample.market.league,
          ImpliedSum(group), result.value.guaranteedProfitFraction, opts.bankroll, result.value.stakes, Some(now)));
      }
    }
  }

  /** Every opportunity reported is a genuine arbitrage meeting the
      options: book below 1, edge at least the minimum, enough distinct
      providers, equal payouts, fractions summing to 1. */
  lemma DetectSound(markets: seq<Market>, opts: DetectionOptions, now: string)
    requires PositiveOdds(markets)
    ensures forall i :: 0 <= i < |Detect(markets, opts, now)| ==> SoundOpportunity(Detect(markets, opts, now)[i], opts, now)
  {
    var c := Collect(Groups(markets), opts, now);
    var r := Detect(markets, opts, now);
    CollectSound(Groups(markets), opts, now);
    forall i | 0 <= i < |r| ensures SoundOpportunity(r[i], opts, now) {
      assert r[i] in multiset(r);
      assert r[i] in multiset(c);
      var k :| 0 <= k < |c| && c[k] == r[i];
    }
  }

  /** For a non-negative bankroll every detected opportunity passes
      `arbitrageOpportunitySchema`. */
  lemma DetectValid(markets: seq<Market>, opts: DetectionOptions, now: string)
    requires PositiveOdds(markets) && opts.bankroll >= 0.0
    ensures forall i :: 0 <= i < |Detect(markets, opts, now)| ==> ValidOpportunity(Detect(markets, opts, now)[i])
  {
    DetectSound(markets, opts, now);
  }

  /** `detectBestArbitrage`: the most profitable opportunity, or null. */
  function DetectBestArbitrage(markets: seq<Market>, opts: DetectionOptions, now: string): (r: Option<ArbitrageOpportunity>)
    requires PositiveOdds(markets)
    ensures r.None? <==> |Detect(markets, opts, now)| == 0
    ensures r.Some? ==> r.value in Detect(markets, opts, now) && forall o :: o in Detect(markets, opts, now) ==>
      o.guaranteedProfitFraction <= r.value.guaranteedProfitFraction
  {
    var results := Detect(markets, opts, now);
    if |results| == 0 then None
    else
      HeadIsBest(results);
      Some(results[0])
  }

  /** The head of a list ordered by descending profit has the highest
      profit. */
  lemma HeadIsBest(results: seq<ArbitrageOpportunity>)
    requires |results| > 0
    requires forall i, j :: 0 <= i < j < |results| ==> results[i].guaranteedProfitFraction >= results[j].guaranteedProfitFraction
    ensures forall o :: o in results ==> o.guaranteedProfitFraction <= results[0].guaranteedProfitFraction
  {
    forall o | o in results ensures o.guaranteedProfitFraction <= results[0].guaranteedProfitFraction {
      var k :| 0 <= k < |results| && results[k] == o;
      if k > 0 {
        assert results[0].guaranteedProfitFraction >= results[k].guaranteedProfitFraction;
      }
    }
  }

  /** With a minimum of two providers or more (the default is two), markets
      all quoted by one provider never yield an opportunity. */
  lemma SingleProviderNoArbitrage(markets: seq<Market>, opts: DetectionOptions, now: string, providerId: string)
    requires PositiveOdds(markets)
    requires forall i :: 0 <= i < |markets| ==> markets[i].provider.id == providerId
    requires MinimumProviders(opts) >= 2
    ensures Detect(markets, opts, now) == []
  {
    var groups := Groups(markets);
    GroupsFromProvider(markets, providerId);
    forall g | 0 <= g < |groups| ensures GroupOpportunity(groups[g], opts, now).None? {
      if ProviderIds(groups[g]) != {} {
        assert ProviderIds(groups[g]) == {providerId};
      }
    }
    CollectNone(groups, opts, now);
  }

  lemma GroupsFromProvider(markets: seq<Market>, providerId: string)
    requires PositiveOdds(markets)
    requires forall i :: 0 <= i < |markets| ==> markets[i].provider.id == providerId
    ensures forall g, j :: 0 <= g < |Groups(markets)| && 0 <= j < |Groups(markets)[g]| ==>
      Groups(markets)[g][j].provider.id == providerId
  {
    var fromProvider := (q: RunnerQuote) => q.provider.id == providerId;
    BestQuotesSatisfy(markets, fromProvider);
    Grouping.GroupsSatisfy(Values(BestQuotes(markets)), GroupKey, fromProvider);
  }

  lemma {:induction false} CollectNone(groups: seq<seq<RunnerQuote>>, opts: DetectionOptions, now: string)
    requires AllWellFormed(groups)
    requires forall g :: 0 <= g < |groups| ==> GroupOpportunity(groups[g], opts, now).None?
    ensures Collect(groups, opts, now) == []
  {
    if |groups| > 0 {
      var front := groups[..|groups| - 1];
      assert forall g :: 0 <= g < |front| ==> front[g] == groups[g];
      CollectNone(front, opts, now);
    }
  }
}
