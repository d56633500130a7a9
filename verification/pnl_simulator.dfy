/** Deterministic bankroll backtest over a list of settled bets
    (server/sim/pnlSimulator.ts). */
module PnlSimulator {
  import opened Wrappers
  import opened Numeric
  import Kelly
  import Metrics

  datatype BetOutcome = Win | Lose | Push

  /** `SimulatedBet`, without its descriptive strings; an absent optional
      number is `None`. */
  datatype SimulatedBet = SimulatedBet(
    oddsDecimal: real,
    result: BetOutcome,
    stakeAmount: Option<real>,
    winProbability: Option<real>)

  /** `BacktestOptions`; an omitted field is `None`. */
  datatype BacktestOptions = BacktestOptions(
    startingBankroll: Option<real>,
    useKellyWhenStakeMissing: Option<bool>,
    kellyFraction: Option<real>,
    maxStakePercent: Option<real>,
    maxStakeAbsolute: Option<real>)

  /** The options after the defaults are spread under them. The absolute
      cap is `None` for its default, +Infinity. */
  datatype ResolvedOptions = ResolvedOptions(
    startingBankroll: real,
    useKellyWhenStakeMissing: bool,
    kellyFraction: real,
    maxStakePercent: real,
    maxStakeAbsolute: Option<real>)

  const DefaultStartingBankroll: real := 1000.0
  const DefaultKellyFraction: real := 0.25
  const DefaultMaxStakePercent: real := 5.0

  function Resolve(options: BacktestOptions): ResolvedOptions
  {
    ResolvedOptions(
      options.startingBankroll.GetOr(DefaultStartingBankroll),
      options.useKellyWhenStakeMissing.GetOr(true),
      options.kellyFraction.GetOr(DefaultKellyFraction),
      options.maxStakePercent.GetOr(DefaultMaxStakePercent),
      options.maxStakeAbsolute)
  }

  /** `Math.min(cap, maxStakeAbsolute)` with +Infinity as `None`. */
  function MinCap(x: real, cap: Option<real>): real
  {
    if cap.Some? then Min(x, cap.value) else x
  }

  /** `resolveStakeAmount`: an explicit stake is used as given; without
      one, the flat percentage stake (also capped absolutely) unless Kelly
      is enabled and a win probability is known, in which case the Kelly
      stake with the configured fraction and both caps. */
  function ResolveStakeAmount(bet: SimulatedBet, bankroll: real, o: ResolvedOptions): (r: real)
    ensures bet.stakeAmount.Some? ==> r == bet.stakeAmount.value
    ensures bet.stakeAmount.None? && (!o.useKellyWhenStakeMissing || bet.winProbability.None?) ==>
      r <= Kelly.PercentCap(o.maxStakePercent, bankroll) &&
      (o.maxStakeAbsolute.Some? ==> r <= o.maxStakeAbsolute.value) &&
      (r == Kelly.PercentCap(o.maxStakePercent, bankroll) || (o.maxStakeAbsolute.Some? && r == o.maxStakeAbsolute.value))
    ensures bet.stakeAmount.None? && o.useKellyWhenStakeMissing && bet.winProbability.Some? ==>
      r == Kelly.KellyStake(KellyParamsFor(bet, bankroll, o))
  {
    if bet.stakeAmount.Some? then bet.stakeAmount.value
    else if !o.useKellyWhenStakeMissing || bet.winProbability.None? then
      MinCap(Kelly.PercentCap(o.maxStakePercent, bankroll), o.maxStakeAbsolute)
    else Kelly.KellyStake(KellyParamsFor(bet, bankroll, o))
  }

  /** The Kelly parameters for a bet without an explicit stake; passing the
      +Infinity default cap is the same as passing none. */
  function KellyParamsFor(bet: SimulatedBet, bankroll: real, o: ResolvedOptions): Kelly.KellyParams
    requires bet.winProbability.Some?
  {
    Kelly.KellyParams(bankroll, bet.winProbability.value, bet.oddsDecimal,
      Some(o.kellyFraction), Some(o.maxStakePercent), o.maxStakeAbsolute)
  }

  /** Without an explicit stake, a non-negative bankroll and caps give a
      stake of at most the percentage cap (plus half a cent of rounding on
      the Kelly path), and never a negative one. */
  lemma StakeWithinCaps(bet: SimulatedBet, bankroll: real, o: ResolvedOptions)
    requires bet.stakeAmount.None? && bankroll >= 0.0 && o.maxStakePercent >= 0.0
    requires o.maxStakeAbsolute.Some? ==> o.maxStakeAbsolute.value >= 0.0
    ensures 0.0 <= ResolveStakeAmount(bet, bankroll, o)
    ensures ResolveStakeAmount(bet, bankroll, o) <= Kelly.PercentCap(o.maxStakePercent, bankroll) + HalfUnit(2)
  {
    var cap := Kelly.PercentCap(o.maxStakePercent, bankroll);
    assert cap >= 0.0 by {
      assert o.maxStakePercent / 100.0 >= 0.0;
    }
    if o.useKellyWhenStakeMissing && bet.winProbability.Some? {
      Kelly.KellyPercentCap(KellyParamsFor(bet, bankroll, o));
    }
  }

  /* ---------- the backtest loop ---------- */

  /** The loop state of `backtestBets`. */
  datatype Ledger = Ledger(bankroll: real, equityCurve: seq<real>, wins: nat, losses: nat, pushes: nat)

  /** What a settled stake adds to the bankroll: the winnings
      stake * (odds - 1) on a win, nothing on a push, the stake on a loss. */
  function Net(result: BetOutcome, stake: real, odds: real): real
  {
    match result
    case Win => stake * odds - stake
    case Push => 0.0
    case Lose => -stake
  }

  /** One iteration once the stake is known: a stake <= 0 only repeats
      the bankroll on the curve; otherwise the stake is taken, the payout
      credited, the outcome counted and the bankroll, rounded to cents,
      appended. */
  function SettleStake(l: Ledger, bet: SimulatedBet, stake: real): Ledger
  {
    if stake <= 0.0 then l.(equityCurve := l.equityCurve + [l.bankroll])
    else
      var bankroll := l.bankroll - stake;
      match bet.result
      case Push =>
        var b := bankroll + stake;
        Ledger(b, l.equityCurve + [RoundFixed(b, 2)], l.wins, l.losses, l.pushes + 1)
      case Win =>
        var b := bankroll + stake * bet.oddsDecimal;
        Ledger(b, l.equityCurve + [RoundFixed(b, 2)], l.wins + 1, l.losses, l.pushes)
      case Lose =>
        Ledger(bankroll, l.equityCurve + [RoundFixed(bankroll, 2)], l.wins, l.losses + 1, l.pushes)
  }

  function Settle(l: Ledger, bet: SimulatedBet, o: ResolvedOptions): Ledger
  {
    SettleStake(l, bet, ResolveStakeAmount(bet, l.bankroll, o))
  }

  /** A positive stake moves the bankroll by the net of the outcome and
      counts exactly that outcome; any other stake changes nothing but the
      curve, which always grows by one point. */
  lemma SettleNet(l: Ledger, bet: SimulatedBet, stake: real)
    ensures var r := SettleStake(l, bet, stake);
      if stake <= 0.0 then
        r.bankroll == l.bankroll && r.equityCurve == l.equityCurve + [l.bankroll] &&
        r.wins == l.wins && r.losses == l.losses && r.pushes == l.pushes
      else
        r.bankroll == l.bankroll + Net(bet.result, stake, bet.oddsDecimal) &&
        r.equityCurve == l.equityCurve + [RoundFixed(r.bankroll, 2)] &&
        r.wins == l.wins + (if bet.result == Win then 1 else 0) &&
        r.losses == l.losses + (if bet.result == Lose then 1 else 0) &&
        r.pushes == l.pushes + (if bet.result == Push then 1 else 0)
  {
  }

  /** The ledger after the bets: one curve point per bet after the
      starting bankroll, and at most one counted outcome per bet. */
  function Run(bets: seq<SimulatedBet>, o: ResolvedOptions): (l: Ledger)
    ensures |l.equityCurve| == |bets| + 1
    ensures l.equityCurve[0] == o.startingBankroll
    ensures l.wins + l.losses + l.pushes <= |bets|
  {
    if |bets| == 0 then Ledger(o.startingBankroll, [o.startingBankroll], 0, 0, 0)
    else Settle(Run(bets[..|bets| - 1], o), bets[|bets| - 1], o)
  }

  /** `BacktestResult`; the drawdown may be +Infinity (see `Metrics.DrawStep`). */
  datatype BacktestResult = BacktestResult(
    finalBankroll: real,
    equityCurve: seq<real>,
    totalBets: nat,
    wins: nat,
    losses: nat,
    pushes: nat,
    profit: real,
    sharpe: real,
    maxDrawdown: Num)

  /** `profit`: the final bankroll less the starting one, to cents. */
  function Profit(l: Ledger, o: ResolvedOptions): real
  {
    RoundFixed(l.bankroll - o.startingBankroll, 2)
  }

  /** The last point of the curve is the final bankroll, rounded to cents
      when the last bet was staked and as it is otherwise; to cents the two
      agree. */
  lemma LastPointRounds(bets: seq<SimulatedBet>, o: ResolvedOptions)
    ensures RoundFixed(Run(bets, o).equityCurve[|bets|], 2) == RoundFixed(Run(bets, o).bankroll, 2)
  {
    if |bets| > 0 {
      var before := Run(bets[..|bets| - 1], o);
      var bet := bets[|bets| - 1];
      SettleNet(before, bet, ResolveStakeAmount(bet, before.bankroll, o));
      RoundFixedIdempotent(Run(bets, o).bankroll, 2);
    }
  }

  /** Rounding the profit and the final bankroll separately puts them at
      most a cent apart from each other's difference. */
  lemma ProfitWithinCent(l: Ledger, o: ResolvedOptions)
    ensures -0.01 <= Profit(l, o) - (RoundFixed(l.bankroll, 2) - o.startingBankroll) <= 0.01
  {
    assert HalfUnit(2) == 0.005 by { assert Pow10(2) == 100.0; }
  }

  /** What `backtestBets` returns, with the square root injected: the
      reported final bankroll is the curve's last point to cents, and the
      reported profit is the final bankroll less the starting one up to a
      cent, both being rounded separately. */
  function Backtest(bets: seq<SimulatedBet>, options: BacktestOptions, sqrt: real -> real): (r: BacktestResult)
    ensures |r.equityCurve| == |bets| + 1 && r.totalBets == |bets|
    ensures r.equityCurve[0] == Resolve(options).startingBankroll
    ensures r.wins + r.losses + r.pushes <= r.totalBets
    ensures r.maxDrawdown.Finite? ==> r.maxDrawdown.value >= 0.0
    ensures r.finalBankroll == RoundFixed(r.equityCurve[|bets|], 2)
    ensures -0.01 <= r.profit - (r.finalBankroll - Resolve(options).startingBankroll) <= 0.01
  {
    var o := Resolve(options);
    var l := Run(bets, o);
    LastPointRounds(bets, o);
    ProfitWithinCent(l, o);
    BacktestResult(
      RoundFixed(l.bankroll, 2),
      l.equityCurve,
      |bets|,
      l.wins,
      l.losses,
      l.pushes,
      Profit(l, o),
      Metrics.SharpeRatio(l.equityCurve, Metrics.SharpeOptions(None, None), sqrt),
      Metrics.MaxDrawdown(l.equityCurve))
  }

  /** The settlement loop of `backtestBets`: the ledger it ends with is the
      left fold `Run`. */
  method SettleAll(bets: seq<SimulatedBet>, o: ResolvedOptions) returns (l: Ledger)
    ensures l == Run(bets, o)
  {
    var bankroll := o.startingBankroll;
    var equityCurve := [bankroll];
    var wins, losses, pushes := 0, 0, 0;
    for i := 0 to |bets|
      invariant Ledger(bankroll, equityCurve, wins, losses, pushes) == Run(bets[..i], o)
    {
      assert bets[..i + 1][..i] == bets[..i];
      ghost var before := Ledger(bankroll, equityCurve, wins, losses, pushes);
      var bet := bets[i];
      var stake := ResolveStakeAmount(bet, bankroll, o);
      if stake <= 0.0 {
        assert Run(bets[..i + 1], o) == SettleStake(before, bet, stake);
        SettleNet(before, bet, stake);
        equityCurve := equityCurve + [bankroll];
        assert Ledger(bankroll, equityCurve, wins, losses, pushes) == SettleStake(before, bet, stake);
        continue;
      }
      bankroll := bankroll - stake;
      if bet.result == Push {
        bankroll := bankroll + stake;
        pushes := pushes + 1;
        assert bankroll == before.bankroll + Net(Push, stake, bet.oddsDecimal);
      } else if bet.result == Win {
        bankroll := bankroll + stake * bet.oddsDecimal;
        wins := wins + 1;
        assert bankroll == before.bankroll - stake + stake * bet.oddsDecimal;
        assert bankroll == before.bankroll + Net(Win, stake, bet.oddsDecimal);
      } else {
        losses := losses + 1;
        assert bankroll == before.bankroll + Net(Lose, stake, bet.oddsDecimal);
      }
      equityCurve := equityCurve + [RoundFixed(bankroll, 2)];
      assert Run(bets[..i + 1], o) == SettleStake(before, bet, stake);
      SettleNet(before, bet, stake);
      ghost var after := SettleStake(before, bet, stake);
      assert bankroll == after.bankroll && equityCurve == after.equityCurve;
      assert wins == after.wins && losses == after.losses && pushes == after.pushes;
    }
    assert bets[..|bets|] == bets;
    l := Ledger(bankroll, equityCurve, wins, losses, pushes);
  }

  /** `backtestBets`: settle every bet, then summarise the ledger. */
  method BacktestBets(bets: seq<SimulatedBet>, options: BacktestOptions, sqrt: real -> real) returns (r: BacktestResult)
    ensures r == Backtest(bets, options, sqrt)
  {
    var o := Resolve(options);
    var l := SettleAll(bets, o);
    var drawdown := Metrics.MaxDrawdownOf(l.equityCurve);
    ghost var expected := Backtest(bets, options, sqrt);
    assert expected.equityCurve == l.equityCurve && expected.maxDrawdown == drawdown;
    assert expected.finalBankroll == RoundFixed(l.bankroll, 2);
    r := BacktestResult(RoundFixed(l.bankroll, 2), l.equityCurve, |bets|, l.wins, l.losses, l.pushes,
      Profit(l, o), Metrics.SharpeRatio(l.equityCurve, Metrics.SharpeOptions(None, None), sqrt), drawdown);
  }

  /* ---------- explicit stakes ---------- */

  predicate ExplicitPositiveStakes(bets: seq<SimulatedBet>)
  {
    forall i :: 0 <= i < |bets| ==> bets[i].stakeAmount.Some? && bets[i].stakeAmount.value > 0.0
  }

  /** The net of each bet on its own, independent of the bankroll. */
  function Nets(bets: seq<SimulatedBet>): (r: seq<real>)
    requires ExplicitPositiveStakes(bets)
    ensures |r| == |bets|
  {
    seq(|bets|, i requires 0 <= i < |bets| => Net(bets[i].result, bets[i].stakeAmount.value, bets[i].oddsDecimal))
  }

  function CountOutcome(bets: seq<SimulatedBet>, outcome: BetOutcome): nat
  {
    if |bets| == 0 then 0
    else CountOutcome(bets[..|bets| - 1], outcome) + (if bets[|bets| - 1].result == outcome then 1 else 0)
  }

  /** With an explicit positive stake on every bet, the final bankroll is
      the start plus the sum of the nets, and the counters count the
      outcomes. */
  lemma {:induction false} ExplicitStakesLedger(bets: seq<SimulatedBet>, o: ResolvedOptions)
    requires ExplicitPositiveStakes(bets)
    ensures Run(bets, o).bankroll == o.startingBankroll + Sum(Nets(bets))
    ensures Run(bets, o).wins == CountOutcome(bets, Win)
    ensures Run(bets, o).losses == CountOutcome(bets, Lose)
    ensures Run(bets, o).pushes == CountOutcome(bets, Push)
    ensures Run(bets, o).wins + Run(bets, o).losses + Run(bets, o).pushes == |bets|
  {
    if |bets| > 0 {
      var n := |bets| - 1;
      var front, bet := bets[..n], bets[n];
      assert ExplicitPositiveStakes(front);
      ExplicitStakesLedger(front, o);
      var l := Run(front, o);
      var stake := bet.stakeAmount.value;
      assert Run(bets, o) == SettleStake(l, bet, stake);
      SettleNet(l, bet, stake);
      assert Nets(bets)[..n] == Nets(front);
      assert Sum(Nets(bets)) == Sum(Nets(front)) + Net(bet.result, stake, bet.oddsDecimal);
    }
  }

  function ExampleBets(): seq<SimulatedBet>
  {
    [SimulatedBet(2.0, Win, Some(100.0), None),
     SimulatedBet(1.5, Lose, Some(50.0), None),
     SimulatedBet(3.0, Win, Some(25.0), None)]
  }

  function ExampleOptions(): BacktestOptions
  {
    BacktestOptions(Some(500.0), Some(false), None, None, None)
  }

  /** Three bets with explicit stakes from 500: +100, -50, +50 end at 600. */
  lemma ExampleLedger()
    ensures var l := Run(ExampleBets(), Resolve(ExampleOptions()));
      l.bankroll == 600.0 && l.wins == 2 && l.losses == 1 && l.pushes == 0
  {
    var bets := ExampleBets();
    ExplicitStakesLedger(bets, Resolve(ExampleOptions()));
    ExampleNets();
    ExampleCounts();
  }

  /** The example's net results sum to 100. */
  lemma ExampleNets()
    ensures Sum(Nets(ExampleBets())) == 100.0
  {
    var nets := Nets(ExampleBets());
    assert nets == [100.0, -50.0, 50.0];
    assert nets[..2] == [100.0, -50.0] && nets[..2][..1] == [100.0] && nets[..2][..1][..0] == [];
    assert Sum(nets[..2][..1]) == 100.0;
    assert Sum(nets[..2]) == 50.0;
  }

  /** The example has two wins, one loss and no push. */
  lemma ExampleCounts()
    ensures CountOutcome(ExampleBets(), Win) == 2 && CountOutcome(ExampleBets(), Lose) == 1 &&
            CountOutcome(ExampleBets(), Push) == 0
  {
    var bets := ExampleBets();
    assert bets[..2][..1] == bets[..1] && bets[..1] == [bets[0]] && bets[..2] == [bets[0], bets[1]];
    assert bets[..1][..0] == [];
    assert CountOutcome(bets[..1], Win) == 1 && CountOutcome(bets[..1], Lose) == 0 && CountOutcome(bets[..1], Push) == 0;
    assert CountOutcome(bets[..2], Win) == 1 && CountOutcome(bets[..2], Lose) == 1 && CountOutcome(bets[..2], Push) == 0;
  }

  /** The same run as a backtest result: final bankroll 600, profit 100,
      four curve points. */
  lemma ExampleBacktest(sqrt: real -> real)
    ensures var r := Backtest(ExampleBets(), ExampleOptions(), sqrt);
      r.finalBankroll == 600.0 && r.profit == 100.0 && r.totalBets == 3 && |r.equityCurve| == 4 &&
      r.wins == 2 && r.losses == 1 && r.pushes == 0
  {
    ExampleLedger();
    ExampleRounding();
  }

  /** 600 and 100 are already whole cents. */
  lemma ExampleRounding()
    ensures RoundFixed(600.0, 2) == 600.0 && RoundFixed(100.0, 2) == 100.0
  {
    assert Pow10(2) == 100.0;
    RoundFixedOnGrid(60000, 2);
    RoundFixedOnGrid(10000, 2);
  }
}
