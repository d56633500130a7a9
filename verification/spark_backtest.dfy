/** The row-level trade simulator of the Spark backtester
    (spark-backtester/backtest.py, the `simulate` closure): one aggregated
    row of best-odds legs for an event, market and timestamp is turned into
    the trade an arbitrage bettor would have made, settled against the
    row's known winner. */
module SparkBacktest {
  import opened Wrappers
  import opened Numeric

  /** One element of the row's `legs` list. */
  datatype Leg = Leg(selection: string, provider: string, odds: real, impliedProbability: real)

  /** One row of the `summed` frame; `winner` is the maximum of a nullable
      column, hence optional. The timestamp is already rendered by `str`. */
  datatype Row = Row(
    eventId: string,
    marketType: string,
    timestamp: string,
    legs: seq<Leg>,
    winner: Option<string>,
    sumImplied: real)

  /** `TradeSummary`. */
  datatype TradeSummary = TradeSummary(
    eventId: string,
    marketType: string,
    timestamp: string,
    stake: real,
    payout: real,
    profit: real)

  /** What the Python interpreter raises when `sum_implied` is zero. */
  datatype SimulateError = ZeroDivision

  /** The payout of one leg: its share of the bankroll, at its odds. */
  function LegPayout(leg: Leg, sumImplied: real, bankroll: real): real
    requires sumImplied != 0.0
  {
    (leg.impliedProbability / sumImplied * bankroll) * leg.odds
  }

  /** `return_per_leg` after the loop has walked `legs`. */
  function Returns(legs: seq<Leg>, sumImplied: real, bankroll: real): (r: seq<(string, real)>)
    requires sumImplied != 0.0
    ensures |r| == |legs|
  {
    if |legs| == 0 then []
    else Returns(legs[..|legs| - 1], sumImplied, bankroll) + [(legs[|legs| - 1].selection, LegPayout(legs[|legs| - 1], sumImplied, bankroll))]
  }

  /** Element `i` of `return_per_leg` is leg `i`'s selection and payout. */
  lemma {:induction false} ReturnAt(legs: seq<Leg>, sumImplied: real, bankroll: real, i: nat)
    requires sumImplied != 0.0 && i < |legs|
    ensures Returns(legs, sumImplied, bankroll)[i] == (legs[i].selection, LegPayout(legs[i], sumImplied, bankroll))
  {
    if i < |legs| - 1 {
      ReturnAt(legs[..|legs| - 1], sumImplied, bankroll, i);
    }
  }

  /** The generator `next` scans in `simulate`: the payout of the first
      pair whose selection is the winner, `None` where the source falls back
      to its default of 0.0; a missing winner matches no selection. */
  function FirstPayout(pairs: seq<(string, real)>, winner: Option<string>): (r: Option<real>)
    ensures r.None? <==> forall i :: 0 <= i < |pairs| ==> winner != Some(pairs[i].0)
    ensures r.Some? ==> exists i :: 0 <= i < |pairs| && winner == Some(pairs[i].0) && r.value == pairs[i].1 &&
                                 forall j :: 0 <= j < i ==> winner != Some(pairs[j].0)
  {
    if |pairs| == 0 then None
    else if winner == Some(pairs[0].0) then Some(pairs[0].1)
    else
      var rest := FirstPayout(pairs[1..], winner);
      assert forall i :: 1 <= i < |pairs| ==> pairs[i] == pairs[1..][i - 1];
      rest
  }

  /** The result of `simulate(row)` with `args.bankroll` as `bankroll`:
      no trade for a row that is no arbitrage or has fewer than two legs, a
      division error for a zero implied sum, and otherwise the settled
      trade. */
  function SimulateOf(row: Row, bankroll: real): (r: Result<Option<TradeSummary>, SimulateError>)
    ensures r == Ok(None) <==> row.sumImplied >= 1.0 || |row.legs| < 2
    ensures r.Err? <==> row.sumImplied == 0.0 && |row.legs| >= 2
    ensures r.Ok? && r.value.Some? ==>
      var t := r.value.value;
      t.eventId == row.eventId && t.marketType == row.marketType && t.timestamp == row.timestamp &&
      t.stake == bankroll && t.payout == t.stake + t.profit
  {
    if row.sumImplied >= 1.0 || |row.legs| < 2 then Ok(None)
    else if row.sumImplied == 0.0 then Err(ZeroDivision)
    else
      var realized := FirstPayout(Returns(row.legs, row.sumImplied, bankroll), row.winner).GetOr(0.0) - bankroll;
      Ok(Some(TradeSummary(row.eventId, row.marketType, row.timestamp, bankroll, realized + bankroll, realized)))
  }

  /** `simulate(row)`. */
  method Simulate(row: Row, bankroll: real) returns (r: Result<Option<TradeSummary>, SimulateError>)
    ensures r == SimulateOf(row, bankroll)
  {
    if row.sumImplied >= 1.0 || |row.legs| < 2 {
      return Ok(None);
    }
    if row.sumImplied == 0.0 {
      return Err(ZeroDivision);
    }
    var stakeTotal := bankroll;
    var pairs := ReturnPerLeg(row.legs, row.sumImplied, stakeTotal);
    var found := FindPayout(pairs, row.winner);
    var realized := found.GetOr(0.0) - stakeTotal;
    r := Ok(Some(TradeSummary(row.eventId, row.marketType, row.timestamp, stakeTotal, realized + stakeTotal, realized)));
  }

  /** The loop that appends each leg's selection and payout to
      `return_per_leg`. */
  method ReturnPerLeg(legs: seq<Leg>, sumImplied: real, stakeTotal: real) returns (pairs: seq<(string, real)>)
    requires sumImplied != 0.0
    ensures pairs == Returns(legs, sumImplied, stakeTotal)
  {
    pairs := [];
    for i := 0 to |legs|
      invariant pairs == Returns(legs[..i], sumImplied, stakeTotal)
    {
      var leg := legs[i];
      var stakeFraction := leg.impliedProbability / sumImplied;
      var stakeAmount := stakeFraction * stakeTotal;
      var payout := stakeAmount * leg.odds;
      assert payout == LegPayout(leg, sumImplied, stakeTotal);
      assert legs[..i + 1][..i] == legs[..i];
      pairs := pairs + [(leg.selection, payout)];
    }
    assert legs[..|legs|] == legs;
  }

  /** The scan `next` performs: stop at the first pair naming the winner. */
  method FindPayout(pairs: seq<(string, real)>, winner: Option<string>) returns (found: Option<real>)
    ensures found == FirstPayout(pairs, winner)
  {
    found := None;
    var k := 0;
    while k < |pairs| && found.None?
      invariant 0 <= k <= |pairs|
      invariant found.None? ==> forall j :: 0 <= j < k ==> winner != Some(pairs[j].0)
      invariant found.Some? ==> 0 < k && winner == Some(pairs[k - 1].0) && found.value == pairs[k - 1].1 &&
                                forall j :: 0 <= j < k - 1 ==> winner != Some(pairs[j].0)
    {
      if winner == Some(pairs[k].0) {
        found := Some(pairs[k].1);
      }
      k := k + 1;
    }
    if found.Some? {
      var first := FirstPayout(pairs, winner);
      assert first.Some?;
      var i :| 0 <= i < |pairs| && winner == Some(pairs[i].0) && first.value == pairs[i].1 &&
               forall j :: 0 <= j < i ==> winner != Some(pairs[j].0);
      assert i == k - 1;
    }
  }

  /** A leg whose implied probability is the reciprocal of its odds, as the
      pipeline computes it (`1 / quote.odds`). */
  predicate Priced(leg: Leg)
  {
    leg.odds * leg.impliedProbability == 1.0
  }

  /** Staking in proportion to implied probability equalises the legs: each
      priced leg pays the bankroll over the implied sum. */
  lemma PricedLegPays(leg: Leg, sumImplied: real, bankroll: real)
    requires sumImplied != 0.0 && Priced(leg)
    ensures LegPayout(leg, sumImplied, bankroll) == bankroll / sumImplied
  {
    var f := leg.impliedProbability / sumImplied;
    calc {
      f * bankroll * leg.odds;
      (leg.odds * leg.impliedProbability) / sumImplied * bankroll;
      bankroll / sumImplied;
    }
  }

  /** All entries of `return_per_leg` carry the same payout, so the unused
      `guaranteed_profit` of the source (first payout minus bankroll) is what
      every leg yields. */
  lemma EqualReturns(legs: seq<Leg>, sumImplied: real, bankroll: real)
    requires sumImplied != 0.0
    requires forall i :: 0 <= i < |legs| ==> Priced(legs[i])
    ensures forall i :: 0 <= i < |legs| ==> Returns(legs, sumImplied, bankroll)[i].1 == bankroll / sumImplied
  {
    forall i | 0 <= i < |legs|
      ensures Returns(legs, sumImplied, bankroll)[i].1 == bankroll / sumImplied
    {
      ReturnAt(legs, sumImplied, bankroll, i);
      PricedLegPays(legs[i], sumImplied, bankroll);
    }
  }

  /** Settlement: when the winner is one of the legs the trade pays the
      bankroll over the implied sum, a profit for a positive bankroll below
      an implied sum of one; when it is none of them (or unknown) the whole
      bankroll is lost. */
  lemma SettledTrade(row: Row, bankroll: real)
    requires 0.0 < row.sumImplied < 1.0 && |row.legs| >= 2
    requires forall i :: 0 <= i < |row.legs| ==> Priced(row.legs[i])
    ensures SimulateOf(row, bankroll).Ok? && SimulateOf(row, bankroll).value.Some?
    ensures var t := SimulateOf(row, bankroll).value.value;
      ((exists i :: 0 <= i < |row.legs| && row.winner == Some(row.legs[i].selection)) ==>
         t.payout == bankroll / row.sumImplied && (bankroll > 0.0 ==> t.profit > 0.0)) &&
      ((forall i :: 0 <= i < |row.legs| ==> row.winner != Some(row.legs[i].selection)) ==>
         t.payout == 0.0 && t.profit == -bankroll)
  {
    var s := row.sumImplied;
    var pairs := Returns(row.legs, s, bankroll);
    EqualReturns(row.legs, s, bankroll);
    forall i | 0 <= i < |row.legs| ensures pairs[i].0 == row.legs[i].selection {
      ReturnAt(row.legs, s, bankroll, i);
    }
    if bankroll > 0.0 {
      OverFractionGrows(bankroll, s);
    }
  }
}
