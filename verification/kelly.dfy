/** The fractional Kelly stake (server/sim/kelly.ts). */
module Kelly {
  import opened Wrappers
  import opened Numeric

  const DefaultFraction: real := 0.25

  /** `KellyParams`; an omitted optional field is `None`. An absent absolute
      cap and a cap of +Infinity behave alike and are both `None`. */
  datatype KellyParams = KellyParams(
    bankroll: real,
    winProbability: real,
    oddsDecimal: real,
    fraction: Option<real>,
    maxStakePercent: Option<real>,
    maxStakeAbsolute: Option<real>)

  /** The expected net gain per unit staked, b*p - (1 - p). */
  function Edge(b: real, p: real): real
  {
    b * p - (1.0 - p)
  }

  /** The percent cap as an amount: maxStakePercent is a percentage. */
  function PercentCap(percent: real, bankroll: real): real
  {
    percent / 100.0 * bankroll
  }

  /** The stake before rounding: the scaled Kelly fraction of the bankroll,
      not below zero, then lowered to each cap that is given. */
  function CappedStake(p: KellyParams): real
    requires p.oddsDecimal > 1.0
  {
    var b := p.oddsDecimal - 1.0;
    var kellyFraction := Edge(b, p.winProbability) / b;
    var scaledFraction := Max(0.0, kellyFraction * p.fraction.GetOr(DefaultFraction));
    var stake := scaledFraction * p.bankroll;
    var afterPercent := if p.maxStakePercent.Some? then Min(stake, PercentCap(p.maxStakePercent.value, p.bankroll)) else stake;
    if p.maxStakeAbsolute.Some? then Min(afterPercent, p.maxStakeAbsolute.value) else afterPercent
  }

  /** `kellyStake`. */
  function KellyStake(p: KellyParams): (r: real)
    ensures r >= 0.0
    ensures p.bankroll <= 0.0 ==> r == 0.0
    ensures p.oddsDecimal <= 1.0 ==> r == 0.0
  {
    if p.bankroll <= 0.0 then 0.0
    else if p.oddsDecimal - 1.0 <= 0.0 then 0.0
    else Max(0.0, RoundFixed(CappedStake(p), 2))
  }

  /** The stake is a whole number of cents. */
  lemma KellyWholeCents(p: KellyParams)
    ensures RoundFixed(KellyStake(p), 2) == KellyStake(p)
  {
    if p.bankroll > 0.0 && p.oddsDecimal > 1.0 {
      var rounded := RoundFixed(CappedStake(p), 2);
      RoundFixedIdempotent(CappedStake(p), 2);
      if rounded < 0.0 {
        assert Pow10(2) == 100.0;
        RoundFixedOnGrid(0, 2);
      }
    } else {
      RoundFixedOnGrid(0, 2);
    }
  }

  /** A given percent cap bounds the stake, up to rounding to the cent. */
  lemma KellyPercentCap(p: KellyParams)
    requires p.maxStakePercent.Some?
    ensures KellyStake(p) == 0.0 || KellyStake(p) <= RoundFixed(PercentCap(p.maxStakePercent.value, p.bankroll), 2)
  {
    if p.bankroll > 0.0 && p.oddsDecimal > 1.0 {
      RoundFixedMonotone(CappedStake(p), PercentCap(p.maxStakePercent.value, p.bankroll), 2);
    }
  }

  /** A given absolute cap bounds the stake, up to rounding to the cent. */
  lemma KellyAbsoluteCap(p: KellyParams)
    requires p.maxStakeAbsolute.Some?
    ensures KellyStake(p) == 0.0 || KellyStake(p) <= RoundFixed(p.maxStakeAbsolute.value, 2)
  {
    if p.bankroll > 0.0 && p.oddsDecimal > 1.0 {
      RoundFixedMonotone(CappedStake(p), p.maxStakeAbsolute.value, 2);
    }
  }

  /** No edge, no bet: a non-positive edge stakes nothing unless the
      multiplier is negative. */
  lemma KellyNoEdge(p: KellyParams)
    requires p.oddsDecimal > 1.0 && Edge(p.oddsDecimal - 1.0, p.winProbability) <= 0.0
    requires p.fraction.GetOr(DefaultFraction) >= 0.0
    ensures KellyStake(p) == 0.0
  {
    if p.bankroll > 0.0 {
      var b := p.oddsDecimal - 1.0;
      var kellyFraction := Edge(b, p.winProbability) / b;
      assert kellyFraction <= 0.0;
      assert kellyFraction * p.fraction.GetOr(DefaultFraction) <= 0.0;
      assert CappedStake(p) <= 0.0;
    }
  }

  /** The full-Kelly fraction of the bankroll, edge/b. */
  function FullKelly(p: KellyParams): real
    requires p.oddsDecimal > 1.0
  {
    Edge(p.oddsDecimal - 1.0, p.winProbability) / (p.oddsDecimal - 1.0)
  }

  /** With a positive edge and no caps, the stake is the multiplier times
      the full-Kelly fraction of the bankroll, rounded to the cent. */
  lemma KellyUncapped(p: KellyParams)
    requires p.bankroll > 0.0 && p.oddsDecimal > 1.0
    requires Edge(p.oddsDecimal - 1.0, p.winProbability) > 0.0 && p.fraction.GetOr(DefaultFraction) > 0.0
    requires p.maxStakePercent.None? && p.maxStakeAbsolute.None?
    ensures KellyStake(p) == RoundFixed(p.fraction.GetOr(DefaultFraction) * FullKelly(p) * p.bankroll, 2)
  {
    var f := p.fraction.GetOr(DefaultFraction);
    var x := f * FullKelly(p) * p.bankroll;
    PositiveScaledStake(FullKelly(p), f, p.bankroll);
    assert CappedStake(p) == x;
    assert RoundFixed(x, 2) >= 0.0;
    assert KellyStake(p) == RoundFixed(x, 2);
    assert x == p.fraction.GetOr(DefaultFraction) * FullKelly(p) * p.bankroll;
  }

  lemma PositiveScaledStake(k: real, f: real, bankroll: real)
    requires k > 0.0 && f > 0.0 && bankroll > 0.0
    ensures Max(0.0, k * f) * bankroll == f * k * bankroll
    ensures f * k * bankroll > 0.0
  {
    PositiveProduct(k, f);
    PositiveProduct(f * k, bankroll);
  }

  /** Bankroll 1000 at even money (odds 2.0) with a 55% chance and the
      default quarter multiplier stakes 25. */
  lemma KellyQuarterExample()
    ensures KellyStake(KellyParams(1000.0, 0.55, 2.0, None, None, None)) == 25.0
  {
    var p := KellyParams(1000.0, 0.55, 2.0, None, None, None);
    assert Edge(1.0, 0.55) == 0.1;
    assert CappedStake(p) == 25.0;
    assert Pow10(2) == 100.0;
    RoundFixedOnGrid(2500, 2);
    assert 2500 as real / Pow10(2) == 25.0;
  }
}
