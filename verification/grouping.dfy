/** The loop shape shared by `groupQuotesByEventAndMarket` and the Java
    `groupByEventAndMarket`: walk a list and append each element to the
    list kept under its key, creating the list on first use. */
module Grouping {
  import opened Wrappers
  import opened OrderedMap

  /** `list = grouped.get(k) ?? []; list.push(x); grouped.set(k, list)`. */
  function Add<T>(groups: seq<(string, seq<T>)>, x: T, key: T -> string): (r: seq<(string, seq<T>)>)
    requires UniqueKeys(groups)
    ensures UniqueKeys(r)
  {
    Set(groups, key(x), Get(groups, key(x)).GetOr([]) + [x])
  }

  /** The map after the whole list has been walked, in insertion order. */
  function Grouped<T>(xs: seq<T>, key: T -> string): (r: seq<(string, seq<T>)>)
    ensures UniqueKeys(r)
  {
    if |xs| == 0 then [] else Add(Grouped(xs[..|xs| - 1], key), xs[|xs| - 1], key)
  }

  /** The elements of one key, in input order. */
  function WithKey<T>(xs: seq<T>, key: T -> string, k: string): (r: seq<T>)
    ensures forall j :: 0 <= j < |r| ==> key(r[j]) == k && r[j] in xs
    ensures forall i :: 0 <= i < |xs| && key(xs[i]) == k ==> xs[i] in r
  {
    if |xs| == 0 then []
    else
      var front := xs[..|xs| - 1];
      assert forall i :: 0 <= i < |front| ==> front[i] == xs[i];
      WithKey(front, key, k) + (if key(xs[|xs| - 1]) == k then [xs[|xs| - 1]] else [])
  }

  /** The group of a key is exactly the input's elements with that key, in
      order; a key no element has has no group. */
  lemma {:induction false} GroupedIsFilter<T>(xs: seq<T>, key: T -> string, k: string)
    ensures Get(Grouped(xs, key), k) == if |WithKey(xs, key, k)| == 0 then None else Some(WithKey(xs, key, k))
  {
    if |xs| > 0 {
      var front, x := xs[..|xs| - 1], xs[|xs| - 1];
      GroupedIsFilter(front, key, k);
      assert Grouped(xs, key) == Add(Grouped(front, key), x, key);
      assert WithKey(xs, key, k) == WithKey(front, key, k) + (if key(x) == k then [x] else []);
      if key(x) == k {
        assert Get(Grouped(front, key), k).GetOr([]) == WithKey(front, key, k);
      } else {
        assert WithKey(xs, key, k) == WithKey(front, key, k);
      }
    }
  }

  /** The groups partition the input: every group is non-empty and holds
      exactly the elements of its key, and every element lies in the group
      of its key (and, keys being unique, in no other). */
  lemma GroupsPartition<T>(xs: seq<T>, key: T -> string)
    ensures forall e :: 0 <= e < |Grouped(xs, key)| ==>
      Grouped(xs, key)[e].1 == WithKey(xs, key, Grouped(xs, key)[e].0) && |Grouped(xs, key)[e].1| > 0
    ensures forall i :: 0 <= i < |xs| ==>
      exists e :: 0 <= e < |Grouped(xs, key)| && Grouped(xs, key)[e].0 == key(xs[i]) && xs[i] in Grouped(xs, key)[e].1
  {
    var g := Grouped(xs, key);
    forall e | 0 <= e < |g| ensures g[e].1 == WithKey(xs, key, g[e].0) && |g[e].1| > 0 {
      GetAt(g, e);
      GroupedIsFilter(xs, key, g[e].0);
    }
    forall i | 0 <= i < |xs|
      ensures exists e :: 0 <= e < |g| && g[e].0 == key(xs[i]) && xs[i] in g[e].1
    {
      GroupedIsFilter(xs, key, key(xs[i]));
      var e :| 0 <= e < |g| && g[e].0 == key(xs[i]);
      GetAt(g, e);
    }
  }

  /** Grouping moves elements around and nothing else. */
  lemma GroupsSatisfy<T>(xs: seq<T>, key: T -> string, p: T -> bool)
    requires forall i :: 0 <= i < |xs| ==> p(xs[i])
    ensures forall e, j :: 0 <= e < |Grouped(xs, key)| && 0 <= j < |Grouped(xs, key)[e].1| ==> p(Grouped(xs, key)[e].1[j])
  {
    GroupsPartition(xs, key);
  }
}
