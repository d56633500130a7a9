/** The library sorts the source calls (`Array.prototype.sort` with a
    numeric comparator, Java's `List.sort`): a stable insertion sort by an
    ascending real key. A descending order is the ascending order of the
    negated key, exactly as the comparator `(a, b) => key(b) - key(a)` is. */
module Sorting {

  ghost predicate SortedBy<T>(s: seq<T>, key: T -> real)
  {
    forall i, j :: 0 <= i < j < |s| ==> key(s[i]) <= key(s[j])
  }

  /** Puts x after every element whose key is at most key(x). */
  function Insert<T>(s: seq<T>, x: T, key: T -> real): (r: seq<T>)
    requires SortedBy(s, key)
    ensures SortedBy(r, key)
    ensures multiset(r) == multiset(s) + multiset{x}
    ensures |r| == |s| + 1
  {
    if |s| == 0 then [x]
    else if key(s[|s| - 1]) <= key(x) then s + [x]
    else
      var front := s[..|s| - 1];
      assert s == front + [s[|s| - 1]];
      var last := s[|s| - 1];
      var r' := Insert(front, x, key);
      BelowLast(front, x, key, r', last);
      assert multiset(r' + [last]) == multiset(r') + multiset{last};
      r' + [last]
  }

  /** Every element of a permutation of front + [x] is keyed at most
      key(last) when front's and x's keys are. */
  lemma BelowLast<T>(front: seq<T>, x: T, key: T -> real, r: seq<T>, last: T)
    requires forall i :: 0 <= i < |front| ==> key(front[i]) <= key(last)
    requires key(x) <= key(last)
    requires multiset(r) == multiset(front) + multiset{x}
    ensures forall i :: 0 <= i < |r| ==> key(r[i]) <= key(last)
  {
    forall i | 0 <= i < |r|
      ensures key(r[i]) <= key(last)
    {
      assert r[i] in multiset(r);
      if r[i] != x {
        assert r[i] in multiset(front);
        assert r[i] in front;
        var k :| 0 <= k < |front| && front[k] == r[i];
      }
    }
  }

  /** The sorted permutation of s. */
  function SortBy<T>(s: seq<T>, key: T -> real): (r: seq<T>)
    ensures SortedBy(r, key)
    ensures multiset(r) == multiset(s)
    ensures |r| == |s|
  {
    if |s| == 0 then []
    else
      assert s == s[..|s| - 1] + [s[|s| - 1]];
      Insert(SortBy(s[..|s| - 1], key), s[|s| - 1], key)
  }

  /** The elements of s whose key is k, in the order of s. */
  function Ties<T>(s: seq<T>, key: T -> real, k: real): seq<T>
  {
    if |s| == 0 then []
    else Ties(s[..|s| - 1], key, k) + (if key(s[|s| - 1]) == k then [s[|s| - 1]] else [])
  }

  /** Appending an element adds it to its key's ties. */
  lemma TiesSnoc<T>(s: seq<T>, y: T, key: T -> real, k: real)
    ensures Ties(s + [y], key, k) == Ties(s, key, k) + (if key(y) == k then [y] else [])
  {
    assert (s + [y])[..|s|] == s;
  }

  /** An element keyed above x, appended after x has joined the ties,
      leaves x last among them. */
  lemma TiesAfterLast<T>(front: seq<T>, r: seq<T>, x: T, last: T, key: T -> real, k: real)
    requires key(x) < key(last)
    requires Ties(r, key, k) == Ties(front, key, k) + (if key(x) == k then [x] else [])
    ensures Ties(r + [last], key, k) == Ties(front + [last], key, k) + (if key(x) == k then [x] else [])
  {
    TiesSnoc(r, last, key, k);
    TiesSnoc(front, last, key, k);
  }

  /** Inserting x puts it after every element of its key. */
  lemma {:induction false} InsertTies<T>(s: seq<T>, x: T, key: T -> real, k: real)
    requires SortedBy(s, key)
    ensures Ties(Insert(s, x, key), key, k) == Ties(s, key, k) + (if key(x) == k then [x] else [])
  {
    if |s| == 0 {
    } else if key(s[|s| - 1]) <= key(x) {
      TiesSnoc(s, x, key, k);
    } else {
      var front, last := s[..|s| - 1], s[|s| - 1];
      assert s == front + [last];
      var r' := Insert(front, x, key);
      assert Insert(s, x, key) == r' + [last];
      InsertTies(front, x, key, k);
      TiesAfterLast(front, r', x, last, key, k);
    }
  }

  /** The sort is stable: elements with equal keys keep their input
      order. */
  lemma {:induction false} SortByStable<T>(s: seq<T>, key: T -> real, k: real)
    ensures Ties(SortBy(s, key), key, k) == Ties(s, key, k)
  {
    if |s| > 0 {
      var front := s[..|s| - 1];
      SortByStable(front, key, k);
      InsertTies(SortBy(front, key), s[|s| - 1], key, k);
    }
  }

  /** Real numbers in ascending order: `[...values].sort((a, b) => a - b)`. */
  function SortAscending(values: seq<real>): (r: seq<real>)
    ensures |r| == |values|
    ensures multiset(r) == multiset(values)
    ensures forall i, j :: 0 <= i < j < |r| ==> r[i] <= r[j]
  {
    SortBy(values, x => x)
  }
}
