/** Feature extraction and standardisation for the odds-movement model
    (server/ml/features.ts). */
module Features {
  import opened Wrappers
  import opened Numeric
  import opened Schema

  /** A training label: `0 | 1`. */
  type Label = l: int | 0 <= l <= 1

  /** `HistoricalOddsSample`; an absent Elo rating is `None` and `outcome`
      is the `label` field. */
  datatype HistoricalOddsSample = HistoricalOddsSample(
    market: Market,
    runnerConsensusProbability: real,
    impliedProbability: real,
    closingProbability: real,
    homeTeamElo: Option<real>,
    awayTeamElo: Option<real>,
    timeToStartMinutes: real,
    outcome: Label)

  /** `StandardizationStats`. */
  datatype StandardizationStats = StandardizationStats(mean: seq<real>, std: seq<real>)

  /** The length of every feature vector. */
  const FeatureCount: nat := 8

  /** `market.additionalMetadata?.homeTeam` when it is a string; any other
      value never equals a runner name under `===`. */
  function HomeTeam(market: Market): Option<string>
  {
    match market.additionalMetadata
    case None => None
    case Some(meta) =>
      if "homeTeam" in meta && meta["homeTeam"].MetaString? then Some(meta["homeTeam"].s) else None
  }

  /** Whether the sample's runner is the home team. */
  predicate IsHomeTeam(market: Market)
  {
    HomeTeam(market) == Some(market.runner.name)
  }

  /** The feature vector of a sample. */
  function FeatureVector(sample: HistoricalOddsSample): (r: seq<real>)
    ensures |r| == FeatureCount
    ensures r[0] == sample.market.oddsDecimal && r[1] == sample.impliedProbability &&
            r[2] == sample.runnerConsensusProbability && r[3] == sample.closingProbability &&
            r[4] == sample.timeToStartMinutes
    ensures sample.homeTeamElo.Some? && sample.awayTeamElo.Some? ==>
      r[5] == sample.homeTeamElo.value - sample.awayTeamElo.value &&
      r[6] == sample.homeTeamElo.value + sample.awayTeamElo.value
    ensures sample.homeTeamElo.None? || sample.awayTeamElo.None? ==> r[5] == 0.0 && r[6] == 0.0
    ensures (r[7] == 1.0 <==> IsHomeTeam(sample.market)) && (r[7] == 0.0 <==> !IsHomeTeam(sample.market))
  {
    var elo :=
      if sample.homeTeamElo.Some? && sample.awayTeamElo.Some? then
        [sample.homeTeamElo.value - sample.awayTeamElo.value, sample.homeTeamElo.value + sample.awayTeamElo.value]
      else [0.0, 0.0];
    [sample.market.oddsDecimal, sample.impliedProbability, sample.runnerConsensusProbability,
     sample.closingProbability, sample.timeToStartMinutes] + elo + [if IsHomeTeam(sample.market) then 1.0 else 0.0]
  }

  /** `buildFeatureVector`: the features pushed one after another. */
  method BuildFeatureVector(sample: HistoricalOddsSample) returns (features: seq<real>)
    ensures features == FeatureVector(sample)
  {
    features := [];
    var market := sample.market;
    var odds := market.oddsDecimal;
    features := features + [odds];
    features := features + [sample.impliedProbability];
    features := features + [sample.runnerConsensusProbability];
    features := features + [sample.closingProbability];
    features := features + [sample.timeToStartMinutes];
    if sample.homeTeamElo.Some? && sample.awayTeamElo.Some? {
      features := features + [sample.homeTeamElo.value - sample.awayTeamElo.value];
      features := features + [sample.homeTeamElo.value + sample.awayTeamElo.value];
    } else {
      features := features + [0.0];
      features := features + [0.0];
    }
    var isHomeTeam := HomeTeam(market) == Some(market.runner.name);
    features := features + [if isHomeTeam then 1.0 else 0.0];
  }

  /** `buildFeatureMatrix`: one row per sample, in order. */
  function FeatureMatrix(samples: seq<HistoricalOddsSample>): (r: seq<seq<real>>)
    ensures |r| == |samples|
    ensures forall i :: 0 <= i < |r| ==> r[i] == FeatureVector(samples[i]) && |r[i]| == FeatureCount
  {
    seq(|samples|, i requires 0 <= i < |samples| => FeatureVector(samples[i]))
  }

  /** `buildLabelVector`: one 0/1 label per sample, in order. */
  function LabelVector(samples: seq<HistoricalOddsSample>): (r: seq<real>)
    ensures |r| == |samples|
    ensures forall i :: 0 <= i < |r| ==> r[i] == samples[i].outcome as real && (r[i] == 0.0 || r[i] == 1.0)
  {
    seq(|samples|, i requires 0 <= i < |samples| => samples[i].outcome as real)
  }

  // Standardisation

  /** What one visited entry adds to its column's accumulator, given the
      entry and its column index. */
  type Term = (real, nat) -> real

  /** The terms of column j, one per row; a row too short to reach column j
      adds nothing (`forEach` only visits the entries a row has). */
  function ColumnTerms(matrix: seq<seq<real>>, j: nat, term: Term): (c: seq<real>)
    ensures |c| == |matrix|
    ensures forall i :: 0 <= i < |matrix| ==> c[i] == if j < |matrix[i]| then term(matrix[i][j], j) else 0.0
  {
    seq(|matrix|, i requires 0 <= i < |matrix| => if j < |matrix[i]| then term(matrix[i][j], j) else 0.0)
  }

  /** The first pass adds the entry itself. */
  function Value(value: real, index: nat): real
  {
    value
  }

  /** The second pass adds the squared difference from the column mean. */
  function SquaredDeviation(means: seq<real>): Term
  {
    (value: real, index: nat) => if index < |means| then (value - means[index]) * (value - means[index]) else 0.0
  }

  /** The column mean: the column sum over the number of rows. */
  function ColumnMean(matrix: seq<seq<real>>, j: nat): real
    requires |matrix| > 0
  {
    Sum(ColumnTerms(matrix, j, Value)) / |matrix| as real
  }

  /** The means of the first row's columns. */
  function Means(matrix: seq<seq<real>>): (r: seq<real>)
    requires |matrix| > 0
    ensures |r| == |matrix[0]| && forall j :: 0 <= j < |r| ==> r[j] == ColumnMean(matrix, j)
  {
    seq(|matrix[0]|, j requires 0 <= j < |matrix[0]| => ColumnMean(matrix, j))
  }

  /** `Math.max(matrix.length - 1, 1)`: the sample-variance divisor. */
  function VarianceDivisor(n: nat): (d: real)
    ensures d >= 1.0
  {
    Max((n - 1) as real, 1.0)
  }

  /** The sum of a column's squared deviations from its mean. */
  function SquaredTotal(matrix: seq<seq<real>>, j: nat): (r: real)
    requires |matrix| > 0
    ensures r >= 0.0
  {
    var d := ColumnTerms(matrix, j, SquaredDeviation(Means(matrix)));
    forall i | 0 <= i < |d| ensures d[i] >= 0.0 {
      if j < |matrix[i]| && j < |Means(matrix)| {
        var x := matrix[i][j] - Means(matrix)[j];
        assert d[i] == x * x;
      }
    }
    SumNonNegative(d);
    Sum(d)
  }

  /** `std[i] = Math.sqrt(std[i] / divisor)`, then 1 in place of 0. */
  function FinishedStd(total: real, n: nat, sqrt: real -> real): (r: real)
    ensures r != 0.0
    ensures IsSqrt(sqrt) && total >= 0.0 ==> r > 0.0
  {
    var s := sqrt(total / VarianceDivisor(n));
    if s == 0.0 then 1.0 else s
  }

  /** A column's sample standard deviation, with 1 in place of 0. */
  function ColumnStd(matrix: seq<seq<real>>, j: nat, sqrt: real -> real): (r: real)
    requires |matrix| > 0
    ensures r != 0.0
    ensures IsSqrt(sqrt) ==> r > 0.0
  {
    FinishedStd(SquaredTotal(matrix, j), |matrix|, sqrt)
  }

  /** The deviations of the first row's columns. */
  function Stds(matrix: seq<seq<real>>, sqrt: real -> real): (r: seq<real>)
    requires |matrix| > 0
    ensures |r| == |matrix[0]| && forall j :: 0 <= j < |r| ==> r[j] == ColumnStd(matrix, j, sqrt)
  {
    seq(|matrix[0]|, j requires 0 <= j < |matrix[0]| => ColumnStd(matrix, j, sqrt))
  }

  /** What `computeStandardizationStats` returns: nothing for no rows;
      otherwise, for each column of the first row, its mean and its
      non-zero standard deviation. */
  function StatsOf(matrix: seq<seq<real>>, sqrt: real -> real): (r: StandardizationStats)
    ensures |matrix| == 0 ==> r == StandardizationStats([], [])
    ensures |matrix| > 0 ==>
      |r.mean| == |matrix[0]| && |r.std| == |matrix[0]| &&
      forall j :: 0 <= j < |matrix[0]| ==>
        r.mean[j] == ColumnMean(matrix, j) && r.std[j] == ColumnStd(matrix, j, sqrt) && r.std[j] != 0.0
  {
    if |matrix| == 0 then StandardizationStats([], [])
    else StandardizationStats(Means(matrix), Stds(matrix, sqrt))
  }

  /** No row reaches past the first row's columns. */
  predicate FitsFirstRow(matrix: seq<seq<real>>)
  {
    forall i :: 0 <= i < |matrix| ==> |matrix[i]| <= |matrix[0]|
  }

  /** One more row adds its term to a column's total. */
  lemma ColumnStep(matrix: seq<seq<real>>, r: nat, j: nat, term: Term)
    requires r < |matrix|
    ensures Sum(ColumnTerms(matrix[..r + 1], j, term)) ==
      Sum(ColumnTerms(matrix[..r], j, term)) + if j < |matrix[r]| then term(matrix[r][j], j) else 0.0
  {
    assert ColumnTerms(matrix[..r + 1], j, term)[..r] == ColumnTerms(matrix[..r], j, term);
  }

  /** The accumulation pass both loops of `computeStandardizationStats`
      perform: `row.forEach((value, index) => acc[index] += term)` over
      every row, into a fresh array of zeros. */
  method AccumulateColumns(matrix: seq<seq<real>>, dimension: nat, term: Term) returns (acc: array<real>)
    requires forall i :: 0 <= i < |matrix| ==> |matrix[i]| <= dimension
    ensures fresh(acc) && acc.Length == dimension
    ensures forall j :: 0 <= j < dimension ==> acc[j] == Sum(ColumnTerms(matrix, j, term))
  {
    acc := new real[dimension](_ => 0.0);
    for r := 0 to |matrix|
      invariant forall j :: 0 <= j < dimension ==> acc[j] == Sum(ColumnTerms(matrix[..r], j, term))
    {
      AddRow(matrix, r, term, acc);
    }
    assert matrix[..|matrix|] == matrix;
  }

  /** One row's `forEach`: each of its entries adds its term to its
      column's accumulator. */
  method AddRow(matrix: seq<seq<real>>, r: nat, term: Term, acc: array<real>)
    requires r < |matrix| && |matrix[r]| <= acc.Length
    requires forall j :: 0 <= j < acc.Length ==> acc[j] == Sum(ColumnTerms(matrix[..r], j, term))
    modifies acc
    ensures forall j :: 0 <= j < acc.Length ==> acc[j] == Sum(ColumnTerms(matrix[..r + 1], j, term))
  {
    var row := matrix[r];
    for index := 0 to |row|
      invariant forall j :: 0 <= j < index ==> acc[j] == Sum(ColumnTerms(matrix[..r + 1], j, term))
      invariant forall j :: index <= j < acc.Length ==> acc[j] == Sum(ColumnTerms(matrix[..r], j, term))
    {
      ColumnStep(matrix, r, index, term);
      acc[index] := acc[index] + term(row[index], index);
    }
    forall j | |row| <= j < acc.Length
      ensures Sum(ColumnTerms(matrix[..r + 1], j, term)) == Sum(ColumnTerms(matrix[..r], j, term))
    {
      ColumnStep(matrix, r, j, term);
    }
  }

  /** `computeStandardizationStats`. */
  method ComputeStandardizationStats(matrix: seq<seq<real>>, sqrt: real -> real) returns (stats: StandardizationStats)
    requires FitsFirstRow(matrix)
    ensures stats == StatsOf(matrix, sqrt)
  {
    if |matrix| == 0 {
      return StandardizationStats([], []);
    }
    var dimension := |matrix[0]|;
    var mean := AccumulateColumns(matrix, dimension, Value);
    DivideByRows(matrix, mean);
    var means := mean[..];
    var std := AccumulateColumns(matrix, dimension, SquaredDeviation(means));
    FinishDeviations(matrix, sqrt, std);
    stats := StandardizationStats(means, std[..]);
  }

  /** `mean[i] /= matrix.length` for every column. */
  method DivideByRows(matrix: seq<seq<real>>, mean: array<real>)
    requires |matrix| > 0 && mean.Length == |matrix[0]|
    requires forall j :: 0 <= j < mean.Length ==> mean[j] == Sum(ColumnTerms(matrix, j, Value))
    modifies mean
    ensures mean[..] == Means(matrix)
  {
    for i := 0 to mean.Length
      invariant forall j :: 0 <= j < i ==> mean[j] == ColumnMean(matrix, j)
      invariant forall j :: i <= j < mean.Length ==> mean[j] == Sum(ColumnTerms(matrix, j, Value))
    {
      mean[i] := mean[i] / |matrix| as real;
    }
  }

  /** The closing loop: each squared total becomes a deviation, and a zero
      deviation becomes 1. */
  method FinishDeviations(matrix: seq<seq<real>>, sqrt: real -> real, std: array<real>)
    requires |matrix| > 0 && std.Length == |matrix[0]|
    requires forall j :: 0 <= j < std.Length ==> std[j] == Sum(ColumnTerms(matrix, j, SquaredDeviation(Means(matrix))))
    modifies std
    ensures std[..] == Stds(matrix, sqrt)
  {
    ghost var totals := std[..];
    ghost var target := Stds(matrix, sqrt);
    for i := 0 to std.Length
      invariant forall j :: 0 <= j < i ==> std[j] == target[j]
      invariant forall j :: i <= j < std.Length ==> std[j] == totals[j]
    {
      var deviation := sqrt(std[i] / VarianceDivisor(|matrix|));
      if deviation == 0.0 {
        deviation := 1.0;
      }
      FinishedColumn(matrix, sqrt, i, totals[i]);
      std[i] := deviation;
    }
    assert std[..] == target;
  }

  /** Finishing a column's total of squared deviations gives its deviation. */
  lemma FinishedColumn(matrix: seq<seq<real>>, sqrt: real -> real, j: nat, total: real)
    requires |matrix| > 0 && j < |matrix[0]|
    requires total == Sum(ColumnTerms(matrix, j, SquaredDeviation(Means(matrix))))
    ensures FinishedStd(total, |matrix|, sqrt) == Stds(matrix, sqrt)[j]
  {
  }

  /** `(value - stats.mean[index]) / stats.std[index]`: NaN or an infinity
      when the statistics have no entry for the index or a zero deviation. */
  function StandardizeValue(value: real, index: nat, stats: StandardizationStats): (r: Num)
    ensures r.Finite? <==> index < |stats.mean| && index < |stats.std| && stats.std[index] != 0.0
  {
    if index < |stats.mean| && index < |stats.std| && stats.std[index] != 0.0 then
      Finite((value - stats.mean[index]) / stats.std[index])
    else NonFinite
  }

  /** `standardizeMatrix`: the same shape, every entry standardised by its
      column's statistics. */
  function StandardizeMatrix(matrix: seq<seq<real>>, stats: StandardizationStats): (r: seq<seq<Num>>)
    ensures |r| == |matrix|
    ensures forall i :: 0 <= i < |r| ==> |r[i]| == |matrix[i]|
    ensures forall i, j :: 0 <= i < |r| && 0 <= j < |r[i]| ==> r[i][j] == StandardizeValue(matrix[i][j], j, stats)
  {
    seq(|matrix|, i requires 0 <= i < |matrix| =>
      seq(|matrix[i]|, j requires 0 <= j < |matrix[i]| => StandardizeValue(matrix[i][j], j, stats)))
  }

  /** Standardising a matrix by its own statistics gives finite values
      everywhere. */
  lemma OwnStatsFinite(matrix: seq<seq<real>>, sqrt: real -> real)
    requires FitsFirstRow(matrix)
    ensures forall i, j :: 0 <= i < |matrix| && 0 <= j < |matrix[i]| ==>
      StandardizeMatrix(matrix, StatsOf(matrix, sqrt))[i][j].Finite?
  {
  }

  /** Standardising by statistics whose mean is the column mean centres
      a full column: its standardised values sum to zero. */
  lemma StandardizedColumnCentred(matrix: seq<seq<real>>, stats: StandardizationStats, j: nat)
    requires |matrix| > 0 && forall i :: 0 <= i < |matrix| ==> j < |matrix[i]|
    requires j < |stats.mean| && j < |stats.std| && stats.std[j] != 0.0
    requires stats.mean[j] == ColumnMean(matrix, j)
    ensures var z: seq<seq<Num>> := StandardizeMatrix(matrix, stats);
      Sum(seq(|matrix|, i requires 0 <= i < |matrix| => z[i][j].value)) == 0.0
  {
    var z: seq<seq<Num>> := StandardizeMatrix(matrix, stats);
    var m, s := stats.mean[j], stats.std[j];
    var column := ColumnTerms(matrix, j, Value);
    var centred := seq(|matrix|, i requires 0 <= i < |matrix| => column[i] - m);
    var scaled := seq(|matrix|, i requires 0 <= i < |matrix| => z[i][j].value);
    SumShift(column, centred, m);
    forall i | 0 <= i < |matrix| ensures scaled[i] == centred[i] / s {
      StandardizedEntry(matrix, stats, i, j);
    }
    MeanTimesCount(Sum(column), |matrix| as real, m);
    assert Sum(centred) == 0.0;
    SumDivide(centred, scaled, s);
    assert Sum(scaled) == 0.0 / s == 0.0;
  }

  /** One standardised entry is its centred value over the deviation. */
  lemma StandardizedEntry(matrix: seq<seq<real>>, stats: StandardizationStats, i: nat, j: nat)
    requires i < |matrix| && j < |matrix[i]|
    requires j < |stats.mean| && j < |stats.std| && stats.std[j] != 0.0
    ensures StandardizeMatrix(matrix, stats)[i][j] ==
      Finite((ColumnTerms(matrix, j, Value)[i] - stats.mean[j]) / stats.std[j])
  {
  }

  /** n * (total / n) == total. */
  lemma MeanTimesCount(total: real, n: real, m: real)
    requires n > 0.0 && m == total / n
    ensures total - n * m == 0.0
  {
  }

  /** A matrix standardised by its own statistics: every column of a
      rectangular one is centred. */
  lemma OwnStatsCentred(matrix: seq<seq<real>>, sqrt: real -> real, j: nat)
    requires |matrix| > 0 && forall i :: 0 <= i < |matrix| ==> |matrix[i]| == |matrix[0]|
    requires j < |matrix[0]|
    ensures var z: seq<seq<Num>> := StandardizeMatrix(matrix, StatsOf(matrix, sqrt));
      Sum(seq(|matrix|, i requires 0 <= i < |matrix| => z[i][j].value)) == 0.0
  {
    StandardizedColumnCentred(matrix, StatsOf(matrix, sqrt), j);
  }

  /** The training pipeline's shapes: one 8-wide row and one label per
      sample, and 8 statistics for a non-empty sample set. */
  lemma TrainingShapes(samples: seq<HistoricalOddsSample>, sqrt: real -> real)
    ensures |FeatureMatrix(samples)| == |LabelVector(samples)|
    ensures FitsFirstRow(FeatureMatrix(samples))
    ensures |samples| > 0 ==> |StatsOf(FeatureMatrix(samples), sqrt).mean| == FeatureCount &&
                              |StatsOf(FeatureMatrix(samples), sqrt).std| == FeatureCount
  {
  }
}
