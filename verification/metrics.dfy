/** Return and risk statistics over an equity curve (server/sim/metrics.ts). */
module Metrics {
  import opened Wrappers
  import opened Numeric

  /* ---------- returns ---------- */

  /** The return of one step; a non-positive previous value gives 0. */
  function StepReturn(previous: real, current: real): real
  {
    if previous <= 0.0 then 0.0 else (current - previous) / previous
  }

  /** What `returnsFromEquityCurve` returns: one return per step. */
  function Returns(curve: seq<real>): (r: seq<real>)
    ensures |r| == if |curve| <= 1 then 0 else |curve| - 1
    ensures forall i :: 0 <= i < |r| ==> r[i] == StepReturn(curve[i], curve[i + 1])
  {
    if |curve| <= 1 then []
    else seq(|curve| - 1, i requires 0 <= i < |curve| - 1 => StepReturn(curve[i], curve[i + 1]))
  }

  /** Compounding the returns rebuilds the curve wherever the previous
      value is positive; elsewhere the return is 0. */
  lemma ReturnsCompound(curve: seq<real>)
    ensures forall i :: 0 <= i < |Returns(curve)| && curve[i] > 0.0 ==>
      curve[i + 1] == curve[i] * (1.0 + Returns(curve)[i])
    ensures forall i :: 0 <= i < |Returns(curve)| && curve[i] <= 0.0 ==> Returns(curve)[i] == 0.0
  {
    forall i | 0 <= i < |Returns(curve)| && curve[i] > 0.0
      ensures curve[i + 1] == curve[i] * (1.0 + Returns(curve)[i])
    {
      CompoundAt(curve, i);
    }
  }

  lemma CompoundAt(curve: seq<real>, i: nat)
    requires i + 1 < |curve| && curve[i] > 0.0
    ensures curve[i + 1] == curve[i] * (1.0 + Returns(curve)[i])
  {
    Compound(curve[i], curve[i + 1], Returns(curve)[i]);
  }

  lemma Compound(previous: real, current: real, r: real)
    requires previous > 0.0 && r == (current - previous) / previous
    ensures current == previous * (1.0 + r)
  {
    assert previous * r == current - previous;
  }

  /** `returnsFromEquityCurve`. */
  method ReturnsFromEquityCurve(curve: seq<real>) returns (rs: seq<real>)
    ensures rs == Returns(curve)
  {
    if |curve| <= 1 {
      return [];
    }
    rs := [];
    for i := 1 to |curve|
      invariant |rs| == i - 1
      invariant forall k :: 0 <= k < i - 1 ==> rs[k] == StepReturn(curve[k], curve[k + 1])
    {
      var previous := curve[i - 1];
      var current := curve[i];
      if previous <= 0.0 {
        rs := rs + [0.0];
      } else {
        rs := rs + [(current - previous) / previous];
      }
    }
  }

  /* ---------- mean and standard deviation ---------- */

  /** `mean`: 0 for no values. */
  function Mean(values: seq<real>): real
  {
    if |values| == 0 then 0.0 else Sum(values) / |values| as real
  }

  /** The mean lies between any bounds of the values. */
  lemma MeanBetween(values: seq<real>, lo: real, hi: real)
    requires |values| > 0
    requires forall i :: 0 <= i < |values| ==> lo <= values[i] <= hi
    ensures lo <= Mean(values) <= hi
  {
    MeanAtLeast(values, lo);
    MeanAtMost(values, hi);
  }

  lemma MeanAtLeast(values: seq<real>, lo: real)
    requires |values| > 0
    requires forall i :: 0 <= i < |values| ==> lo <= values[i]
    ensures lo <= Mean(values)
  {
    var n := |values| as real;
    var los := seq(|values|, i requires 0 <= i < |values| => lo);
    SumLe(los, values);
    SumConstant(los, lo);
    DivideMonotone(n * lo, Sum(values), n);
    MulDivCancel(n, lo);
  }

  lemma MeanAtMost(values: seq<real>, hi: real)
    requires |values| > 0
    requires forall i :: 0 <= i < |values| ==> values[i] <= hi
    ensures Mean(values) <= hi
  {
    var n := |values| as real;
    var his := seq(|values|, i requires 0 <= i < |values| => hi);
    SumLe(values, his);
    SumConstant(his, hi);
    DivideMonotone(Sum(values), n * hi, n);
    MulDivCancel(n, hi);
  }

  lemma MulDivCancel(n: real, c: real)
    requires n > 0.0
    ensures n * c / n == c
  {
  }

  function Shifted(values: seq<real>, c: real): (r: seq<real>)
    ensures |r| == |values| && forall i :: 0 <= i < |values| ==> r[i] == values[i] - c
  {
    seq(|values|, i requires 0 <= i < |values| => values[i] - c)
  }

  /** Shifting every value shifts the mean by the same amount. */
  lemma MeanShift(values: seq<real>, c: real)
    requires |values| > 0
    ensures Mean(Shifted(values, c)) == Mean(values) - c
  {
    var n := |values| as real;
    SumShift(values, Shifted(values, c), c);
    ShiftedQuotient(Sum(values), Sum(Shifted(values, c)), n, c, Mean(values), Mean(Shifted(values, c)));
  }

  lemma ShiftedQuotient(total: real, shifted: real, n: real, c: real, q: real, q': real)
    requires n > 0.0 && shifted == total - n * c
    requires q == total / n && q' == shifted / n
    ensures q' == q - c
  {
    assert q' * n == total - n * c;
    assert q * n == total;
  }

  function SquaredDeviations(values: seq<real>, m: real): (r: seq<real>)
    ensures |r| == |values| && forall i :: 0 <= i < |values| ==> r[i] == (values[i] - m) * (values[i] - m)
  {
    seq(|values|, i requires 0 <= i < |values| => (values[i] - m) * (values[i] - m))
  }

  /** The population variance: the divisor is the number of values. */
  function Variance(values: seq<real>): real
  {
    Mean(SquaredDeviations(values, Mean(values)))
  }

  /** `standardDeviation`, with the square root injected. */
  function StandardDeviation(values: seq<real>, sqrt: real -> real): real
  {
    if |values| <= 1 then 0.0 else sqrt(Variance(values))
  }

  lemma SquareNonNegative(x: real)
    ensures x * x >= 0.0
  {
    if x < 0.0 {
      assert x * x == (-x) * (-x);
    }
  }

  lemma VarianceNonNegative(values: seq<real>)
    ensures Variance(values) >= 0.0
  {
    var m := Mean(values);
    var d := SquaredDeviations(values, m);
    forall i | 0 <= i < |d|
      ensures d[i] >= 0.0
    {
      SquareNonNegative(values[i] - m);
    }
    SumNonNegative(d);
    if |values| > 0 {
      DivideMonotone(0.0, Sum(d), |values| as real);
    }
  }

  lemma StandardDeviationNonNegative(values: seq<real>, sqrt: real -> real)
    requires IsSqrt(sqrt)
    ensures StandardDeviation(values, sqrt) >= 0.0
  {
    VarianceNonNegative(values);
  }

  predicate Constant(values: seq<real>)
  {
    forall i :: 0 <= i < |values| ==> values[i] == values[0]
  }

  /** Values that are all equal have no spread. */
  lemma ConstantNoDeviation(values: seq<real>, sqrt: real -> real)
    requires IsSqrt(sqrt) && Constant(values)
    ensures StandardDeviation(values, sqrt) == 0.0
  {
    if |values| > 1 {
      ConstantNoVariance(values);
      SqrtFacts(sqrt, 0.0);
    }
  }

  lemma ConstantNoVariance(values: seq<real>)
    requires |values| > 0 && Constant(values)
    ensures Variance(values) == 0.0
  {
    var n := |values| as real;
    var m := Mean(values);
    SumConstant(values, values[0]);
    MulDivCancel(n, values[0]);
    assert m == values[0];
    var d := SquaredDeviations(values, m);
    forall i | 0 <= i < |d| ensures d[i] == 0.0 {
      assert values[i] - m == 0.0;
    }
    SumConstant(d, 0.0);
  }

  /* ---------- Sharpe ratio ---------- */

  /** `SharpeRatioOptions`; an omitted field is `None`. */
  datatype SharpeOptions = SharpeOptions(riskFreeRate: Option<real>, periodsPerYear: Option<real>)

  const DefaultPeriodsPerYear: real := 252.0

  function RiskFreeRate(options: SharpeOptions): real
  {
    options.riskFreeRate.GetOr(0.0)
  }

  function PeriodsPerYear(options: SharpeOptions): real
  {
    options.periodsPerYear.GetOr(DefaultPeriodsPerYear)
  }

  /** The returns less the per-period risk-free rate. */
  function ExcessReturns(curve: seq<real>, options: SharpeOptions): seq<real>
    requires PeriodsPerYear(options) > 0.0
  {
    Shifted(Returns(curve), RiskFreeRate(options) / PeriodsPerYear(options))
  }

  /** `sharpeRatio`: annualised mean excess return over its standard
      deviation, 0 when there are no returns or they do not vary. */
  function SharpeRatio(curve: seq<real>, options: SharpeOptions, sqrt: real -> real): real
    requires PeriodsPerYear(options) > 0.0
  {
    var rets := Returns(curve);
    if |rets| == 0 then 0.0
    else
      var excess := ExcessReturns(curve, options);
      var std := StandardDeviation(excess, sqrt);
      if std == 0.0 then 0.0 else Mean(excess) / std * sqrt(PeriodsPerYear(options))
  }

  /** A curve of at most two points has at most one return, so no spread. */
  lemma SharpeShortCurve(curve: seq<real>, options: SharpeOptions, sqrt: real -> real)
    requires PeriodsPerYear(options) > 0.0 && |curve| <= 2
    ensures SharpeRatio(curve, options, sqrt) == 0.0
  {
  }

  /** The ratio has the sign of the mean excess return when the excess
      returns vary, and is zero otherwise. */
  lemma SharpeSign(curve: seq<real>, options: SharpeOptions, sqrt: real -> real)
    requires IsSqrt(sqrt) && PeriodsPerYear(options) > 0.0
    ensures SharpeRatio(curve, options, sqrt) > 0.0 <==>
      |curve| > 1 && StandardDeviation(ExcessReturns(curve, options), sqrt) > 0.0 && Mean(ExcessReturns(curve, options)) > 0.0
    ensures SharpeRatio(curve, options, sqrt) < 0.0 <==>
      |curve| > 1 && StandardDeviation(ExcessReturns(curve, options), sqrt) > 0.0 && Mean(ExcessReturns(curve, options)) < 0.0
  {
    var excess := ExcessReturns(curve, options);
    StandardDeviationNonNegative(excess, sqrt);
    if |curve| > 1 {
      SqrtFacts(sqrt, PeriodsPerYear(options));
      var std := StandardDeviation(excess, sqrt);
      if std != 0.0 {
        RatioSign(Mean(excess), std, sqrt(PeriodsPerYear(options)));
      }
    }
  }

  /** Excess returns that do not vary give a ratio of 0. */
  lemma SharpeConstantExcess(curve: seq<real>, options: SharpeOptions, sqrt: real -> real)
    requires IsSqrt(sqrt) && PeriodsPerYear(options) > 0.0
    requires Constant(ExcessReturns(curve, options))
    ensures SharpeRatio(curve, options, sqrt) == 0.0
  {
    ConstantNoDeviation(ExcessReturns(curve, options), sqrt);
  }

  lemma RatioSign(a: real, d: real, s: real)
    requires d > 0.0 && s > 0.0
    ensures a / d * s > 0.0 <==> a > 0.0
    ensures a / d * s < 0.0 <==> a < 0.0
  {
    if a > 0.0 {
      PositiveProduct(a / d, s);
    } else if a < 0.0 {
      PositiveProduct(-a / d, s);
      assert a / d * s == -((-a / d) * s);
    }
  }

  /* ---------- maximum drawdown ---------- */

  /** The loop state of `maxDrawdown`: the running peak (None while it is
      still -Infinity) and the largest drawdown so far, which becomes
      +Infinity (`NonFinite`) once a value falls below a zero peak. */
  datatype DrawState = DrawState(peak: Option<real>, maxDraw: Num)

  /** One iteration. A zero peak makes the drawdown 0/0 (NaN, never larger)
      or x/0 with x > 0 (+Infinity, always larger); an infinite maximum
      is never exceeded. */
  function DrawStep(s: DrawState, equity: real): DrawState
  {
    var peak := if s.peak.None? || equity > s.peak.value then equity else s.peak.value;
    var maxDraw :=
      match s.maxDraw
      case NonFinite => NonFinite
      case Finite(m) =>
        if peak == 0.0 then (if equity < 0.0 then NonFinite else s.maxDraw)
        else if (peak - equity) / peak > m then Finite((peak - equity) / peak)
        else s.maxDraw;
    DrawState(Some(peak), maxDraw)
  }

  /** The state after the whole curve; the finite maximum is never negative. */
  function DrawFold(curve: seq<real>): (s: DrawState)
    ensures s.maxDraw.Finite? ==> s.maxDraw.value >= 0.0
    ensures s.peak.None? <==> |curve| == 0
  {
    if |curve| == 0 then DrawState(None, Finite(0.0))
    else DrawStep(DrawFold(curve[..|curve| - 1]), curve[|curve| - 1])
  }

  /** What `maxDrawdown` returns. */
  function MaxDrawdown(curve: seq<real>): (r: Num)
    ensures r.Finite? ==> r.value >= 0.0
    ensures |curve| == 0 ==> r == Finite(0.0)
  {
    DrawFold(curve).maxDraw
  }

  /** `maxDrawdown`. */
  method MaxDrawdownOf(curve: seq<real>) returns (maxDraw: Num)
    ensures maxDraw == MaxDrawdown(curve)
  {
    var peak: Option<real> := None;
    maxDraw := Finite(0.0);
    for i := 0 to |curve|
      invariant DrawState(peak, maxDraw) == DrawFold(curve[..i])
    {
      var equity := curve[i];
      if peak.None? || equity > peak.value {
        peak := Some(equity);
      }
      if maxDraw.Finite? {
        if peak.value == 0.0 {
          if equity < 0.0 {
            maxDraw := NonFinite;
          }
        } else {
          var drawdown := (peak.value - equity) / peak.value;
          if drawdown > maxDraw.value {
            maxDraw := Finite(drawdown);
          }
        }
      }
      assert curve[..i + 1][..i] == curve[..i];
    }
    assert curve[..|curve|] == curve;
  }

  /** The running peak is the largest value seen, and one of them. */
  lemma {:induction false} PeakIsMaximum(curve: seq<real>)
    requires |curve| > 0
    ensures DrawFold(curve).peak.Some?
    ensures forall i :: 0 <= i < |curve| ==> curve[i] <= DrawFold(curve).peak.value
    ensures exists k :: 0 <= k < |curve| && DrawFold(curve).peak.value == curve[k]
  {
    var front := curve[..|curve| - 1];
    if |front| > 0 {
      PeakIsMaximum(front);
      var k :| 0 <= k < |front| && DrawFold(front).peak.value == front[k];
      assert forall i :: 0 <= i < |front| ==> curve[i] == front[i];
      if curve[|curve| - 1] > DrawFold(front).peak.value {
        assert DrawFold(curve).peak.value == curve[|curve| - 1];
      } else {
        assert DrawFold(curve).peak.value == curve[k];
      }
    } else {
      assert DrawFold(curve).peak.value == curve[0];
    }
  }

  predicate Positive(curve: seq<real>)
  {
    forall i :: 0 <= i < |curve| ==> curve[i] > 0.0
  }

  /** The fall from a to e measured against a, at most the same fall
      measured against any higher peak p. */
  lemma FallBound(a: real, p: real, e: real)
    requires 0.0 < a <= p && e > 0.0
    ensures (a - e) / a <= (p - e) / p
  {
    FallOfPeak(a, e);
    FallOfPeak(p, e);
    DivAntitone(e, a, p);
  }

  lemma DivAntitone(e: real, a: real, p: real)
    requires 0.0 < a <= p && e > 0.0
    ensures e / p <= e / a
  {
  }

  /** The fall from p to e, as a fraction of p, is 1 - e/p. */
  lemma FallOfPeak(p: real, e: real)
    requires p != 0.0
    ensures (p - e) / p == 1.0 - e / p
  {
    assert p / p == 1.0;
    assert (p - e) / p == p / p - e / p;
  }

  /** The step of the fold that consumes the last value. */
  lemma DrawFoldLast(curve: seq<real>)
    requires |curve| > 0
    ensures DrawFold(curve) == DrawStep(DrawFold(curve[..|curve| - 1]), curve[|curve| - 1])
  {
  }

  /** On a positive curve the drawdown is finite and below 1. */
  lemma {:induction false} PositiveCurveDrawdownBelowOne(curve: seq<real>)
    requires Positive(curve)
    ensures MaxDrawdown(curve).Finite?
    ensures MaxDrawdown(curve).value < 1.0
  {
    if |curve| > 0 {
      var n := |curve| - 1;
      var front := curve[..n];
      var e := curve[n];
      assert Positive(front);
      PositiveCurveDrawdownBelowOne(front);
      PeakIsMaximum(curve);
      var peak := DrawFold(curve).peak.value;
      var k :| 0 <= k < |curve| && peak == curve[k];
      FallBelowOne(peak, e);
      DrawFoldLast(curve);
    }
  }

  /** A fall to a positive value is less than the whole. */
  lemma FallBelowOne(p: real, e: real)
    requires p > 0.0 && e > 0.0
    ensures (p - e) / p < 1.0
  {
    FallOfPeak(p, e);
    assert e / p > 0.0;
  }

  /** On a positive curve the drawdown is at least every fall
      (c[i] - c[j]) / c[i] with i <= j. */
  lemma {:induction false} PositiveCurveDrawdownDominates(curve: seq<real>)
    requires Positive(curve)
    ensures MaxDrawdown(curve).Finite?
    ensures forall i, j :: 0 <= i <= j < |curve| ==> (curve[i] - curve[j]) / curve[i] <= MaxDrawdown(curve).value
  {
    PositiveCurveDrawdownBelowOne(curve);
    if |curve| > 0 {
      var n := |curve| - 1;
      var front := curve[..n];
      var e := curve[n];
      assert Positive(front);
      PositiveCurveDrawdownDominates(front);
      LastFallsBounded(curve);
      FallsExtend(curve, front, MaxDrawdown(front).value, MaxDrawdown(curve).value);
    }
  }

  /** On a positive curve, the last value's step keeps the front's
      drawdown and bounds every fall to the last value. */
  lemma LastFallsBounded(curve: seq<real>)
    requires Positive(curve) && |curve| > 0
    ensures MaxDrawdown(curve[..|curve| - 1]).Finite? && MaxDrawdown(curve).Finite?
    ensures MaxDrawdown(curve[..|curve| - 1]).value <= MaxDrawdown(curve).value
    ensures forall i :: 0 <= i < |curve| ==> (curve[i] - curve[|curve| - 1]) / curve[i] <= MaxDrawdown(curve).value
  {
    var front, e := curve[..|curve| - 1], curve[|curve| - 1];
    assert Positive(front);
    PositiveCurveDrawdownBelowOne(front);
    PositiveCurveDrawdownBelowOne(curve);
    PeakIsMaximum(curve);
    DrawFoldLast(curve);
    var peak := DrawFold(curve).peak.value;
    var d := MaxDrawdown(curve).value;
    assert (peak - e) / peak <= d;
    forall i | 0 <= i < |curve| ensures (curve[i] - e) / curve[i] <= d {
      FallBound(curve[i], peak, e);
    }
  }

  /** The falls of a curve are bounded by d when those within its front are
      bounded by some m <= d and those to its last value by d. */
  lemma FallsExtend(curve: seq<real>, front: seq<real>, m: real, d: real)
    requires Positive(curve) && |curve| > 0 && front == curve[..|curve| - 1] && m <= d
    requires forall i, j :: 0 <= i <= j < |front| ==> (front[i] - front[j]) / front[i] <= m
    requires forall i :: 0 <= i < |curve| ==> (curve[i] - curve[|curve| - 1]) / curve[i] <= d
    ensures forall i, j :: 0 <= i <= j < |curve| ==> (curve[i] - curve[j]) / curve[i] <= d
  {
    forall i, j | 0 <= i <= j < |curve|
      ensures (curve[i] - curve[j]) / curve[i] <= d
    {
      if j < |curve| - 1 {
        assert curve[i] == front[i] && curve[j] == front[j];
      }
    }
  }

  /** On a positive curve a nonzero drawdown is one of those falls. */
  lemma {:induction false} PositiveCurveDrawdownAttained(curve: seq<real>)
    requires Positive(curve)
    ensures MaxDrawdown(curve).Finite?
    ensures MaxDrawdown(curve).value == 0.0 ||
      exists i, j :: 0 <= i <= j < |curve| && MaxDrawdown(curve).value == (curve[i] - curve[j]) / curve[i]
  {
    PositiveCurveDrawdownBelowOne(curve);
    if |curve| > 0 {
      var n := |curve| - 1;
      var front := curve[..n];
      var e := curve[n];
      assert Positive(front);
      PositiveCurveDrawdownAttained(front);
      PeakIsMaximum(curve);
      DrawFoldLast(curve);
      var peak := DrawFold(curve).peak.value;
      var m := MaxDrawdown(front).value;
      var k :| 0 <= k < |curve| && peak == curve[k];
      if MaxDrawdown(curve).value != 0.0 {
        if (peak - e) / peak > m {
          assert MaxDrawdown(curve).value == (curve[k] - curve[n]) / curve[k];
        } else {
          var i, j :| 0 <= i <= j < |front| && m == (front[i] - front[j]) / front[i];
          assert MaxDrawdown(curve).value == (curve[i] - curve[j]) / curve[i];
        }
      }
    }
  }

  /** A curve that never falls has no drawdown. */
  lemma {:induction false} NonDecreasingNoDrawdown(curve: seq<real>)
    requires forall i, j :: 0 <= i <= j < |curve| ==> curve[i] <= curve[j]
    ensures MaxDrawdown(curve) == Finite(0.0)
    ensures |curve| > 0 ==> DrawFold(curve).peak == Some(curve[|curve| - 1])
  {
    if |curve| > 0 {
      var front := curve[..|curve| - 1];
      assert forall i :: 0 <= i < |front| ==> curve[i] == front[i];
      NonDecreasingNoDrawdown(front);
    }
  }

  /** A fall below a zero peak makes the drawdown +Infinity. */
  lemma ZeroPeakInfinite()
    ensures MaxDrawdown([0.0, -1.0]) == NonFinite
  {
    assert [0.0, -1.0][..1] == [0.0];
    assert [0.0][..0] == [];
  }
}
