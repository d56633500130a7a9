/** String operations the source relies on: `toLowerCase`, the ordering of
    `<` on strings, `Number(string)` and `split("/")`. */
module Text {
  import opened Wrappers
  import opened Numeric

  /** Lower-cases the ASCII letters A-Z; other characters are kept. */
  function LowerChar(c: char): char
  {
    if 'A' <= c <= 'Z' then (c as int + 32) as char else c
  }

  /** `s.toLowerCase()`, restricted to ASCII case folding. */
  function Lower(s: string): (r: string)
    ensures |r| == |s|
  {
    seq(|s|, i requires 0 <= i < |s| => LowerChar(s[i]))
  }

  /** `a < b` on strings: lexicographic order of the characters, a proper
      prefix coming first. */
  predicate StrLess(a: string, b: string)
  {
    if |b| == 0 then false
    else if |a| == 0 then true
    else if a[0] != b[0] then a[0] < b[0]
    else StrLess(a[1..], b[1..])
  }

  lemma {:induction false} StrLessIrreflexive(a: string)
    ensures !StrLess(a, a)
  {
    if |a| > 0 {
      StrLessIrreflexive(a[1..]);
    }
  }

  lemma {:induction false} StrLessTransitive(a: string, b: string, c: string)
    requires StrLess(a, b) && StrLess(b, c)
    ensures StrLess(a, c)
  {
    if |a| > 0 && a[0] == b[0] && b[0] == c[0] {
      StrLessTransitive(a[1..], b[1..], c[1..]);
    }
  }

  lemma {:induction false} StrLessTotal(a: string, b: string)
    ensures a == b || StrLess(a, b) || StrLess(b, a)
  {
    if |a| > 0 && |b| > 0 && a[0] == b[0] {
      StrLessTotal(a[1..], b[1..]);
      if a[1..] == b[1..] {
        assert a == [a[0]] + a[1..] && b == [b[0]] + b[1..];
      }
    }
  }

  lemma {:induction false} StrLessAsymmetric(a: string, b: string)
    requires StrLess(a, b)
    ensures !StrLess(b, a)
  {
    if |a| > 0 && a[0] == b[0] {
      StrLessAsymmetric(a[1..], b[1..]);
    }
  }

  /** The first position of c in s, as `indexOf` finds it. */
  function IndexOf(s: string, c: char): (r: Option<nat>)
    ensures r.Some? ==> r.value < |s| && s[r.value] == c
    ensures r.Some? ==> forall j :: 0 <= j < r.value ==> s[j] != c
    ensures r.None? ==> forall j :: 0 <= j < |s| ==> s[j] != c
  {
    if |s| == 0 then None
    else if s[0] == c then Some(0)
    else match IndexOf(s[1..], c)
      case None => None
      case Some(k) => Some(k + 1)
  }

  /** The first two pieces of `s.split(sep)`: everything before the first
      separator, and what lies between it and the next one (or the end),
      which is `undefined` when s holds no separator. */
  function SplitFirstTwo(s: string, sep: char): (string, Option<string>)
  {
    match IndexOf(s, sep)
    case None => (s, None)
    case Some(k) =>
      var rest := s[k + 1..];
      match IndexOf(rest, sep)
      case None => (s[..k], Some(rest))
      case Some(k2) => (s[..k], Some(rest[..k2]))
  }

  predicate IsDigit(c: char) { '0' <= c <= '9' }

  predicate AllDigits(s: string) { forall i :: 0 <= i < |s| ==> IsDigit(s[i]) }

  function DigitsValue(s: string): nat
    requires AllDigits(s)
  {
    if |s| == 0 then 0
    else DigitsValue(s[..|s| - 1]) * 10 + (s[|s| - 1] as int - '0' as int)
  }

  /** An unsigned decimal literal: digits, optionally with a point and more
      digits, at least one digit in all. */
  function ParseUnsigned(s: string): Num
  {
    match IndexOf(s, '.')
    case None =>
      if |s| > 0 && AllDigits(s) then Finite(DigitsValue(s) as real) else NonFinite
    case Some(k) =>
      var whole, frac := s[..k], s[k + 1..];
      if |whole| + |frac| > 0 && AllDigits(whole) && AllDigits(frac)
      then Finite(DigitsValue(whole) as real + DigitsValue(frac) as real / Pow10(|frac|))
      else NonFinite
  }

  /** `Number(s)` for decimal literals with an optional sign; the empty
      string is 0 and anything unparsable is NaN. */
  function ParseNumber(s: string): Num
  {
    if |s| == 0 then Finite(0.0)
    else if s[0] == '-' then
      match ParseUnsigned(s[1..])
      case Finite(v) => Finite(-v)
      case NonFinite => NonFinite
    else if s[0] == '+' then ParseUnsigned(s[1..])
    else ParseUnsigned(s)
  }
}
