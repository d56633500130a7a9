/** The data carriers of the analytics service (its model package), as
    values. A Java `null` on a boxed field is `None`. */
module ServiceModel {
  import opened Wrappers

  datatype SnapshotRunner = SnapshotRunner(id: string, name: string)

  datatype SnapshotProvider = SnapshotProvider(id: string, name: string, slug: string)

  /** `MarketSnapshot`. */
  datatype MarketSnapshot = MarketSnapshot(
    eventId: string,
    eventName: string,
    marketName: string,
    sport: string,
    league: string,
    runner: SnapshotRunner,
    provider: SnapshotProvider,
    oddsDecimal: real,
    impliedProbability: real)

  /** `AnalyzeRequest` (its `snapshotTime` is never read by the service). */
  datatype AnalyzeRequest = AnalyzeRequest(bankroll: real, minimumEdge: real, markets: seq<MarketSnapshot>)

  /** `StakeResponse`. */
  datatype StakeResponse = StakeResponse(
    runner: string,
    providerId: string,
    providerName: string,
    odds: real,
    stakeFraction: real,
    stakeAmount: real,
    payout: real)

  /** `RiskMetrics`. */
  datatype RiskMetrics = RiskMetrics(
    expectedValue: real,
    standardDeviation: real,
    winProbability: real,
    kellyFraction: real,
    sharpeRatio: Option<real>,
    valueAtRisk: real,
    maxDrawdown: Option<real>)

  /** `SimulationSummary`. */
  datatype SimulationSummary = SimulationSummary(
    trials: int,
    mean: real,
    stddev: real,
    pPositive: real,
    percentile5: real,
    percentile95: real)

  /** `OpportunityResponse`; `createdAt` is the injected clock reading. */
  datatype OpportunityResponse = OpportunityResponse(
    eventId: string,
    eventName: string,
    marketName: string,
    sport: string,
    league: string,
    sumImpliedProbability: real,
    guaranteedProfitFraction: real,
    bankroll: real,
    createdAt: string,
    stakes: seq<StakeResponse>,
    metrics: Option<RiskMetrics>,
    simulation: Option<SimulationSummary>)

  /** `SimulateRequest`. */
  datatype SimulateRequest = SimulateRequest(opportunity: OpportunityResponse, trials: Option<int>, bankroll: Option<real>)

  /** The service's private `RunnerQuote`; the quote rebuilt from a stake
      has no runner id. */
  datatype RunnerQuote = RunnerQuote(
    eventId: string,
    eventName: string,
    marketName: string,
    sport: string,
    league: string,
    runnerId: Option<string>,
    runnerName: string,
    providerId: string,
    providerName: string,
    odds: real,
    impliedProbability: real)
}
