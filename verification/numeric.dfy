/** Numeric helpers shared by the model: doubles that may be non-finite,
    `Number(x.toFixed(d))` rounding, left-to-right sums, counts and the law
    that an injected square root must obey. */
module Numeric {

  /** A double as the source sees it: a real number, or one of NaN and
      +/-Infinity, which every check in the modelled code treats alike. */
  datatype Num = Finite(value: real) | NonFinite

  function Pow10(n: nat): (r: real)
    ensures r >= 1.0
  {
    if n == 0 then 1.0 else 10.0 * Pow10(n - 1)
  }

  function Max(a: real, b: real): real
  {
    if a >= b then a else b
  }

  function Min(a: real, b: real): real
  {
    if a <= b then a else b
  }

  /** Half a unit in the last kept place: the largest error of RoundFixed. */
  function HalfUnit(digits: nat): (h: real)
    ensures 0.0 < h <= 0.5
  {
    0.5 / Pow10(digits)
  }

  /** The number of 10^-digits units that `x.toFixed(digits)` keeps: the
      magnitude is rounded with ties upwards and the sign is put back. */
  function RoundedUnits(x: real, digits: nat): int
  {
    if x < 0.0 then -((-x) * Pow10(digits) + 0.5).Floor
    else (x * Pow10(digits) + 0.5).Floor
  }

  lemma FloorMonotone(a: real, b: real)
    requires a <= b
    ensures a.Floor <= b.Floor
  {
  }

  lemma ScaleMonotone(a: real, b: real, p: real)
    requires a <= b && p > 0.0
    ensures a * p <= b * p
  {
  }

  lemma RoundedUnitsBounds(x: real, digits: nat)
    ensures x * Pow10(digits) - 0.5 <= RoundedUnits(x, digits) as real <= x * Pow10(digits) + 0.5
  {
    var p := Pow10(digits);
    if x < 0.0 {
      var y := (-x) * p;
      assert y == -(x * p);
      assert y - 0.5 < (y + 0.5).Floor as real <= y + 0.5;
    }
  }

  lemma RoundedUnitsMonotone(x: real, y: real, digits: nat)
    requires x <= y
    ensures RoundedUnits(x, digits) <= RoundedUnits(y, digits)
  {
    var p := Pow10(digits);
    if 0.0 <= x {
      ScaleMonotone(x, y, p);
      FloorMonotone(x * p + 0.5, y * p + 0.5);
    } else if y < 0.0 {
      ScaleMonotone(-y, -x, p);
      FloorMonotone((-y) * p + 0.5, (-x) * p + 0.5);
    } else {
      assert RoundedUnits(x, digits) <= 0;
      assert y * p >= 0.0;
      assert RoundedUnits(y, digits) >= 0;
    }
  }

  /** `Number(x.toFixed(digits))`: the nearest multiple of 10^-digits, ties
      away from zero (ECMAScript rounds the magnitude and keeps the sign).
      Values of 10^21 and above, which toFixed prints unrounded, are not
      distinguished. */
  function RoundFixed(x: real, digits: nat): (r: real)
    ensures x - HalfUnit(digits) <= r <= x + HalfUnit(digits)
    ensures x >= 0.0 ==> r >= 0.0
    ensures x <= 0.0 ==> r <= 0.0
  {
    var p := Pow10(digits);
    var n := RoundedUnits(x, digits) as real;
    RoundedUnitsBounds(x, digits);
    assert (x * p - 0.5) / p == x - HalfUnit(digits);
    assert (x * p + 0.5) / p == x + HalfUnit(digits);
    DivideMonotone(x * p - 0.5, n, p);
    DivideMonotone(n, x * p + 0.5, p);
    if x >= 0.0 then
      RoundedUnitsMonotone(0.0, x, digits);
      n / p
    else
      RoundedUnitsMonotone(x, 0.0, digits);
      n / p
  }

  lemma DivideMonotone(a: real, b: real, p: real)
    requires a <= b && p > 0.0
    ensures a / p <= b / p
  {
  }

  /** Rounding never reverses the order of two values. */
  lemma RoundFixedMonotone(x: real, y: real, digits: nat)
    requires x <= y
    ensures RoundFixed(x, digits) <= RoundFixed(y, digits)
  {
    RoundedUnitsMonotone(x, y, digits);
    DivideMonotone(RoundedUnits(x, digits) as real, RoundedUnits(y, digits) as real, Pow10(digits));
  }

  /** A multiple of 10^-digits is its own rounding. */
  lemma RoundedUnitsOnGrid(n: int, digits: nat)
    ensures RoundedUnits(n as real / Pow10(digits), digits) == n
  {
    var p := Pow10(digits);
    var x := n as real / p;
    assert x * p == n as real;
    if n < 0 {
      assert x < 0.0;
      assert (-x) * p == (-n) as real;
      assert ((-n) as real + 0.5).Floor == -n;
    } else {
      assert x >= 0.0;
      assert (n as real + 0.5).Floor == n;
    }
  }

  lemma RoundFixedOnGrid(n: int, digits: nat)
    ensures RoundFixed(n as real / Pow10(digits), digits) == n as real / Pow10(digits)
  {
    RoundedUnitsOnGrid(n, digits);
  }

  /** Rounding twice is rounding once. */
  lemma RoundFixedIdempotent(x: real, digits: nat)
    ensures RoundFixed(RoundFixed(x, digits), digits) == RoundFixed(x, digits)
  {
    RoundFixedOnGrid(RoundedUnits(x, digits), digits);
  }

  /** `values.reduce((sum, v) => sum + v, 0)`: the left-to-right sum. */
  function Sum(s: seq<real>): real
  {
    if |s| == 0 then 0.0 else Sum(s[..|s| - 1]) + s[|s| - 1]
  }

  lemma {:induction false} SumAppend(a: seq<real>, b: seq<real>)
    ensures Sum(a + b) == Sum(a) + Sum(b)
  {
    if |b| > 0 {
      assert (a + b)[..|a + b| - 1] == a + b[..|b| - 1];
      SumAppend(a, b[..|b| - 1]);
    } else {
      assert a + b == a;
    }
  }

  lemma {:induction false} SumNonNegative(s: seq<real>)
    requires forall i :: 0 <= i < |s| ==> s[i] >= 0.0
    ensures Sum(s) >= 0.0
  {
    if |s| > 0 {
      SumNonNegative(s[..|s| - 1]);
    }
  }

  lemma {:induction false} SumPositive(s: seq<real>)
    requires |s| > 0
    requires forall i :: 0 <= i < |s| ==> s[i] > 0.0
    ensures Sum(s) > 0.0
  {
    SumNonNegative(s[..|s| - 1]);
  }

  /** A sum of equal terms is the term times their number. */
  lemma {:induction false} SumConstant(s: seq<real>, c: real)
    requires forall i :: 0 <= i < |s| ==> s[i] == c
    ensures Sum(s) == |s| as real * c
  {
    if |s| > 0 {
      SumConstant(s[..|s| - 1], c);
    }
  }

  /** Scaling every term scales the sum. */
  lemma {:induction false} SumScale(s: seq<real>, t: seq<real>, c: real)
    requires |t| == |s|
    requires forall i :: 0 <= i < |s| ==> t[i] == s[i] * c
    ensures Sum(t) == Sum(s) * c
  {
    if |s| > 0 {
      SumScale(s[..|s| - 1], t[..|t| - 1], c);
    }
  }

  /** Dividing every term by c divides the sum by c. */
  lemma {:induction false} SumDivide(s: seq<real>, t: seq<real>, c: real)
    requires |t| == |s| && c != 0.0
    requires forall i :: 0 <= i < |s| ==> t[i] == s[i] / c
    ensures Sum(t) == Sum(s) / c
  {
    if |s| > 0 {
      SumDivide(s[..|s| - 1], t[..|t| - 1], c);
    }
  }

  /** A termwise smaller sequence has a smaller sum. */
  lemma {:induction false} SumLe(s: seq<real>, t: seq<real>)
    requires |s| == |t|
    requires forall i :: 0 <= i < |s| ==> s[i] <= t[i]
    ensures Sum(s) <= Sum(t)
  {
    if |s| > 0 {
      SumLe(s[..|s| - 1], t[..|t| - 1]);
    }
  }

  /** A term of a sum of non-negative terms is at most the sum. */
  lemma {:induction false} TermAtMostSum(s: seq<real>, i: nat)
    requires i < |s| && forall j :: 0 <= j < |s| ==> s[j] >= 0.0
    ensures s[i] <= Sum(s)
  {
    var front := s[..|s| - 1];
    if i < |s| - 1 {
      assert front[i] == s[i];
      TermAtMostSum(front, i);
    } else {
      SumNonNegative(front);
    }
  }

  /** Subtracting c from every term subtracts |s|*c from the sum. */
  lemma {:induction false} SumShift(s: seq<real>, t: seq<real>, c: real)
    requires |t| == |s|
    requires forall i :: 0 <= i < |s| ==> t[i] == s[i] - c
    ensures Sum(t) == Sum(s) - |s| as real * c
  {
    if |s| > 0 {
      SumShift(s[..|s| - 1], t[..|t| - 1], c);
    }
  }

  /** Non-negative terms summing to zero are all zero. */
  lemma {:induction false} SumZeroAllZero(s: seq<real>)
    requires forall i :: 0 <= i < |s| ==> s[i] >= 0.0
    requires Sum(s) == 0.0
    ensures forall i :: 0 <= i < |s| ==> s[i] == 0.0
  {
    if |s| > 0 {
      var front := s[..|s| - 1];
      SumNonNegative(front);
      SumZeroAllZero(front);
      assert forall i :: 0 <= i < |front| ==> s[i] == front[i];
    }
  }

  /** How many elements satisfy p: `values.filter(p).length`. */
  function CountWhere(s: seq<real>, p: real -> bool): (n: nat)
    ensures n <= |s|
  {
    if |s| == 0 then 0
    else CountWhere(s[..|s| - 1], p) + (if p(s[|s| - 1]) then 1 else 0)
  }

  /** Counting a weaker condition never gives less. */
  lemma {:induction false} CountWhereMonotone(s: seq<real>, p: real -> bool, q: real -> bool)
    requires forall x :: p(x) ==> q(x)
    ensures CountWhere(s, p) <= CountWhere(s, q)
  {
    if |s| > 0 {
      CountWhereMonotone(s[..|s| - 1], p, q);
    }
  }

  /** Counting a condition every element meets gives the length; one no
      element meets gives 0. */
  lemma {:induction false} CountWhereAllOrNone(s: seq<real>, p: real -> bool)
    ensures (forall i :: 0 <= i < |s| ==> p(s[i])) ==> CountWhere(s, p) == |s|
    ensures (forall i :: 0 <= i < |s| ==> !p(s[i])) ==> CountWhere(s, p) == 0
  {
    if |s| > 0 {
      var front := s[..|s| - 1];
      assert forall i :: 0 <= i < |front| ==> front[i] == s[i];
      CountWhereAllOrNone(front, p);
    }
  }

  /** What an injected `Math.sqrt` must satisfy on non-negative arguments. */
  ghost predicate IsSqrt(sqrt: real -> real)
  {
    forall x :: 0.0 <= x ==> 0.0 <= sqrt(x) && sqrt(x) * sqrt(x) == x
  }

  lemma PositiveProduct(a: real, b: real)
    requires a > 0.0 && b > 0.0
    ensures a * b > 0.0
  {
  }

  /** A positive amount over a fraction strictly between 0 and 1 is larger. */
  lemma OverFractionGrows(b: real, s: real)
    requires b > 0.0 && 0.0 < s < 1.0
    ensures b / s > b
  {
    assert (b / s) * s == b;
    PositiveProduct(b, 1.0 - s);
    if b / s <= b {
      ScaleMonotone(b / s, b, s);
    }
  }

  lemma SqrtFacts(sqrt: real -> real, x: real)
    requires IsSqrt(sqrt) && 0.0 <= x
    ensures 0.0 <= sqrt(x)
    ensures sqrt(x) == 0.0 <==> x == 0.0
  {
    var s := sqrt(x);
    assert 0.0 <= s && s * s == x;
    if s > 0.0 {
      PositiveProduct(s, s);
      assert s * s > 0.0;
      calc {
        x;
      ==
        s * s;
      >
        0.0;
      }
    } else {
      assert s == 0.0;
      assert x == 0.0;
    }
  }
}
