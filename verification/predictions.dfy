/** The data preparation of the odds-prediction model
    (server/ml/predictions.ts): min-max normalisation of a price series and
    the sliding windows an LSTM is trained on. */
module Predictions {
  import opened Numeric

  /** `Math.min(...data)` for a non-empty series. */
  function Minimum(data: seq<real>): (m: real)
    requires |data| > 0
    ensures forall i :: 0 <= i < |data| ==> m <= data[i]
    ensures exists i :: 0 <= i < |data| && data[i] == m
  {
    if |data| == 1 then data[0]
    else
      var rest := Minimum(data[1..]);
      assert forall i :: 1 <= i < |data| ==> data[i] == data[1..][i - 1];
      Min(data[0], rest)
  }

  /** `Math.max(...data)` for a non-empty series. */
  function Maximum(data: seq<real>): (m: real)
    requires |data| > 0
    ensures forall i :: 0 <= i < |data| ==> data[i] <= m
    ensures exists i :: 0 <= i < |data| && data[i] == m
  {
    if |data| == 1 then data[0]
    else
      var rest := Maximum(data[1..]);
      assert forall i :: 1 <= i < |data| ==> data[i] == data[1..][i - 1];
      Max(data[0], rest)
  }

  /** `(x - min) / (max - min)`: NaN when the series is flat, since then
      both operands are zero. */
  function Rescale(x: real, lo: real, hi: real): Num
  {
    if hi != lo then Finite((x - lo) / (hi - lo)) else NonFinite
  }

  /** `normalizeData`: each value rescaled by the series' extremes. The
      empty series maps to the empty series (the extremes, infinite there,
      are never used). */
  function Normalize(data: seq<real>): (r: seq<Num>)
    ensures |r| == |data|
    ensures |data| > 0 ==> forall i :: 0 <= i < |data| ==> r[i] == Rescale(data[i], Minimum(data), Maximum(data))
  {
    if |data| == 0 then []
    else
      var lo, hi := Minimum(data), Maximum(data);
      seq(|data|, i requires 0 <= i < |data| => Rescale(data[i], lo, hi))
  }

  /** A value between the extremes lands in [0, 1]. */
  lemma RescaleBounds(x: real, lo: real, hi: real)
    requires lo <= x <= hi && lo < hi
    ensures Rescale(x, lo, hi).Finite?
    ensures 0.0 <= Rescale(x, lo, hi).value <= 1.0
  {
    DivideMonotone(0.0, x - lo, hi - lo);
    DivideMonotone(x - lo, hi - lo, hi - lo);
  }

  /** The extremes land on 0 and 1. */
  lemma RescaleEnds(lo: real, hi: real)
    requires lo < hi
    ensures Rescale(lo, lo, hi) == Finite(0.0) && Rescale(hi, lo, hi) == Finite(1.0)
  {
    assert (hi - lo) / (hi - lo) == 1.0;
  }

  /** Rescaling by the unit interval is the identity. */
  lemma RescaleUnit(x: real)
    ensures Rescale(x, 0.0, 1.0) == Finite(x)
  {
  }

  /** Rescaling by a positive spread keeps the order of two values, in
      both directions. */
  lemma RescaleOrder(x: real, y: real, lo: real, hi: real)
    requires lo < hi
    ensures Rescale(x, lo, hi).value <= Rescale(y, lo, hi).value <==> x <= y
  {
    if x <= y {
      DivideMonotone(x - lo, y - lo, hi - lo);
    } else {
      DivideMonotone(y - lo, x - lo, hi - lo);
      assert (x - lo) / (hi - lo) != (y - lo) / (hi - lo) by {
        assert (x - lo) / (hi - lo) * (hi - lo) == x - lo;
        assert (y - lo) / (hi - lo) * (hi - lo) == y - lo;
      }
    }
  }

  /** A series that is not flat normalises to finite values in [0, 1],
      with its minimum at 0 and its maximum at 1. */
  lemma NormalizeRange(data: seq<real>)
    requires |data| > 0 && Minimum(data) < Maximum(data)
    ensures forall i :: 0 <= i < |data| ==> Normalize(data)[i].Finite? && 0.0 <= Normalize(data)[i].value <= 1.0
    ensures forall i :: 0 <= i < |data| && data[i] == Minimum(data) ==> Normalize(data)[i] == Finite(0.0)
    ensures forall i :: 0 <= i < |data| && data[i] == Maximum(data) ==> Normalize(data)[i] == Finite(1.0)
  {
    var lo, hi := Minimum(data), Maximum(data);
    RescaleEnds(lo, hi);
    forall i | 0 <= i < |data|
      ensures Normalize(data)[i].Finite? && 0.0 <= Normalize(data)[i].value <= 1.0
    {
      RescaleBounds(data[i], lo, hi);
    }
  }

  /** Normalising a series that is not flat keeps the order of any two of
      its values, in both directions. */
  lemma NormalizeOrder(data: seq<real>, i: nat, j: nat)
    requires |data| > 0 && Minimum(data) < Maximum(data) && i < |data| && j < |data|
    ensures Normalize(data)[i].Finite? && Normalize(data)[j].Finite?
    ensures Normalize(data)[i].value <= Normalize(data)[j].value <==> data[i] <= data[j]
  {
    RescaleOrder(data[i], data[j], Minimum(data), Maximum(data));
  }

  /** A flat series normalises to NaN everywhere (`0 / 0`). */
  lemma NormalizeFlat(data: seq<real>)
    requires |data| > 0 && Minimum(data) == Maximum(data)
    ensures forall i :: 0 <= i < |data| ==> Normalize(data)[i] == NonFinite
  {
  }

  /** The finite values of a normalised series. */
  function Values(r: seq<Num>): (v: seq<real>)
    requires forall i :: 0 <= i < |r| ==> r[i].Finite?
    ensures |v| == |r| && forall i :: 0 <= i < |r| ==> Finite(v[i]) == r[i]
  {
    seq(|r|, i requires 0 <= i < |r| => r[i].value)
  }

  /** Normalising is idempotent: a normalised series already spans [0, 1],
      so normalising it again changes nothing. */
  lemma NormalizeIdempotent(data: seq<real>)
    requires |data| > 0 && Minimum(data) < Maximum(data)
    ensures forall i :: 0 <= i < |data| ==> Normalize(data)[i].Finite?
    ensures Normalize(Values(Normalize(data))) == Normalize(data)
  {
    NormalizeRange(data);
    NormalizedSpansUnit(data);
    UnitSpanFixed(Values(Normalize(data)));
    assert |Normalize(Values(Normalize(data)))| == |Normalize(data)|;
  }

  /** A normalised series that is not flat has extremes 0 and 1. */
  lemma NormalizedSpansUnit(data: seq<real>)
    requires |data| > 0 && Minimum(data) < Maximum(data)
    requires forall i :: 0 <= i < |data| ==> Normalize(data)[i].Finite?
    ensures Minimum(Values(Normalize(data))) == 0.0 && Maximum(Values(Normalize(data))) == 1.0
  {
    NormalizeRange(data);
    var v := Values(Normalize(data));
    var lo, hi := Minimum(data), Maximum(data);
    var iLo :| 0 <= iLo < |data| && data[iLo] == lo;
    var iHi :| 0 <= iHi < |data| && data[iHi] == hi;
    assert v[iLo] == 0.0 && v[iHi] == 1.0;
    var kLo :| 0 <= kLo < |v| && v[kLo] == Minimum(v);
    var kHi :| 0 <= kHi < |v| && v[kHi] == Maximum(v);
    assert 0.0 <= v[kLo] && v[kHi] <= 1.0;
  }

  /** A series spanning exactly [0, 1] normalises to itself. */
  lemma UnitSpanFixed(v: seq<real>)
    requires |v| > 0 && Minimum(v) == 0.0 && Maximum(v) == 1.0
    ensures forall i :: 0 <= i < |v| ==> Normalize(v)[i] == Finite(v[i])
  {
    forall i | 0 <= i < |v|
      ensures Normalize(v)[i] == Finite(v[i])
    {
      RescaleUnit(v[i]);
    }
  }

  /** The windows `createSequences` collects in `X`: one per position
      that still has a value `lookback` places further on. */
  function Windows(data: seq<real>, lookback: nat): (xs: seq<seq<real>>)
    ensures |xs| == if |data| > lookback then |data| - lookback else 0
    ensures forall i :: 0 <= i < |xs| ==> |xs[i]| == lookback && xs[i] == data[i..i + lookback]
  {
    if |data| <= lookback then []
    else seq(|data| - lookback, i requires 0 <= i < |data| - lookback => data[i..i + lookback])
  }

  /** The targets `createSequences` collects in `y`: the value right after
      each window. */
  function Targets(data: seq<real>, lookback: nat): (ys: seq<real>)
    ensures |ys| == |Windows(data, lookback)|
    ensures forall i :: 0 <= i < |ys| ==> ys[i] == data[i + lookback]
  {
    if |data| <= lookback then [] else data[lookback..]
  }

  /** `createSequences`. */
  method CreateSequences(data: seq<real>, lookback: nat) returns (xs: seq<seq<real>>, ys: seq<real>)
    ensures xs == Windows(data, lookback) && ys == Targets(data, lookback)
  {
    xs, ys := [], [];
    var i := 0;
    while i < |data| - lookback
      invariant 0 <= i && (i <= |data| - lookback || i == 0)
      invariant |xs| == i && |ys| == i
      invariant forall k :: 0 <= k < i ==> xs[k] == data[k..k + lookback] && ys[k] == data[k + lookback]
    {
      xs := xs + [data[i..i + lookback]];
      ys := ys + [data[i + lookback]];
      i := i + 1;
    }
  }

  /** Consecutive windows overlap in all but one value, and each target is
      the newest value of the following window. */
  lemma WindowsSlide(data: seq<real>, lookback: nat, i: nat)
    requires lookback > 0 && i + 1 < |Windows(data, lookback)|
    ensures Windows(data, lookback)[i][1..] == Windows(data, lookback)[i + 1][..lookback - 1]
    ensures Targets(data, lookback)[i] == Windows(data, lookback)[i + 1][lookback - 1]
  {
  }

  /** The first window followed by every target is the whole series, so no
      value is lost or reordered. */
  lemma SequencesCoverData(data: seq<real>, lookback: nat)
    requires |data| > lookback
    ensures Windows(data, lookback)[0] + Targets(data, lookback) == data
  {
    assert Targets(data, lookback) == data[lookback..];
  }
}
