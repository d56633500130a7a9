/** The shared records exchanged between ingestion, detection and storage,
    and the validity rules their zod schemas enforce. */
module Schema {
  import opened Wrappers

  datatype Provider = Provider(id: string, name: string, slug: string)

  datatype Runner = Runner(id: string, name: string)

  datatype MarketType = Moneyline | Spread | Total | Other

  /** A value of the free-form `additionalMetadata` record. */
  datatype MetaValue = MetaString(s: string) | MetaNumber(n: real) | MetaOther

  datatype Market = Market(
    id: string,
    provider: Provider,
    eventId: string,
    eventName: string,
    league: Option<string>,
    sport: Option<string>,
    marketName: string,
    marketType: MarketType,
    runner: Runner,
    oddsDecimal: real,
    impliedProbability: real,
    timestamp: string,
    line: Option<real>,
    additionalMetadata: Option<map<string, MetaValue>>)

  datatype CanonicalEvent = CanonicalEvent(
    id: string,
    eventName: string,
    startTime: string,
    sport: string,
    league: Option<string>,
    homeTeam: Option<string>,
    awayTeam: Option<string>)

  datatype ArbitrageStake = ArbitrageStake(
    runner: string,
    providerId: string,
    providerName: string,
    odds: real,
    stakeFraction: real,
    stakeAmount: real,
    payout: real)

  /** `createdAt` is optional here because storage accepts records built
      without it and fills it in. */
  datatype ArbitrageOpportunity = ArbitrageOpportunity(
    eventId: string,
    eventName: string,
    marketName: string,
    sport: Option<string>,
    league: Option<string>,
    sumImpliedProbability: real,
    guaranteedProfitFraction: real,
    bankroll: real,
    stakes: seq<ArbitrageStake>,
    createdAt: Option<string>)

  /** `marketSchema`: positive odds and a probability in [0, 1]; the string
      fields are guaranteed by the datatype. */
  predicate ValidMarket(m: Market)
  {
    m.oddsDecimal > 0.0 && 0.0 <= m.impliedProbability <= 1.0
  }

  /** `arbitrageStakeSchema`. */
  predicate ValidStake(s: ArbitrageStake)
  {
    s.odds > 0.0 && s.stakeFraction >= 0.0 && s.stakeAmount >= 0.0 && s.payout >= 0.0
  }

  /** `arbitrageOpportunitySchema`: no numeric constraint on the three
      totals, every stake valid, a creation time present. */
  predicate ValidOpportunity(o: ArbitrageOpportunity)
  {
    o.createdAt.Some? && forall i :: 0 <= i < |o.stakes| ==> ValidStake(o.stakes[i])
  }

  function MarketTypeTag(t: MarketType): string
  {
    match t
    case Moneyline => "moneyline"
    case Spread => "spread"
    case Total => "total"
    case Other => "other"
  }

  /** The `marketType` enum with its default: an absent tag is "other", one
      of the four names is that type, anything else is rejected. */
  function ParseMarketType(tag: Option<string>): (r: Option<MarketType>)
    ensures tag.None? ==> r == Some(Other)
    ensures tag.Some? ==> (r.Some? <==> tag.value in {"moneyline", "spread", "total", "other"})
    ensures tag.Some? && r.Some? ==> MarketTypeTag(r.value) == tag.value
  {
    match tag
    case None => Some(Other)
    case Some(s) =>
      if s == "moneyline" then Some(Moneyline)
      else if s == "spread" then Some(Spread)
      else if s == "total" then Some(Total)
      else if s == "other" then Some(Other)
      else None
  }

  /** Every market type survives printing and parsing. */
  lemma MarketTypeRoundTrip(t: MarketType)
    ensures ParseMarketType(Some(MarketTypeTag(t))) == Some(t)
  {
  }

  /** A stake is valid as soon as its odds are positive and its fraction and
      the bankroll are not negative, with amount and payout derived from them. */
  lemma DerivedStakeValid(s: ArbitrageStake, bankroll: real)
    requires s.odds > 0.0 && s.stakeFraction >= 0.0 && bankroll >= 0.0
    requires s.stakeAmount == s.stakeFraction * bankroll && s.payout == s.stakeAmount * s.odds
    ensures ValidStake(s)
  {
  }
}
