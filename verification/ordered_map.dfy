/** A JavaScript `Map` as the source uses it: entries kept in the order their
    keys were first inserted, each key at most once; `set` on a present key
    replaces the value where it stands, `set` on a new key appends. */
module OrderedMap {
  import opened Wrappers

  predicate UniqueKeys<K(==,!new), V>(m: seq<(K, V)>)
  {
    forall i, j :: 0 <= i < j < |m| ==> m[i].0 != m[j].0
  }

  /** The position of key k, scanning from the front. */
  function Find<K(==,!new), V>(m: seq<(K, V)>, k: K): (r: Option<nat>)
    ensures r.Some? ==> r.value < |m| && m[r.value].0 == k
    ensures r.Some? ==> forall j :: 0 <= j < r.value ==> m[j].0 != k
    ensures r.None? ==> forall j :: 0 <= j < |m| ==> m[j].0 != k
  {
    if |m| == 0 then None
    else if m[0].0 == k then Some(0)
    else match Find(m[1..], k)
      case None => None
      case Some(j) => Some(j + 1)
  }

  function Keys<K(==,!new), V>(m: seq<(K, V)>): set<K>
  {
    set i | 0 <= i < |m| :: m[i].0
  }

  lemma KeysAppend<K(!new), V>(m: seq<(K, V)>, e: (K, V))
    ensures Keys(m + [e]) == Keys(m) + {e.0}
  {
    var r := m + [e];
    forall x | x in Keys(r) ensures x in Keys(m) + {e.0} {
      var i :| 0 <= i < |r| && r[i].0 == x;
      if i < |m| { assert m[i].0 == x; }
    }
    forall x | x in Keys(m) ensures x in Keys(r) {
      var i :| 0 <= i < |m| && m[i].0 == x;
      assert r[i].0 == x;
    }
    assert r[|m|].0 == e.0;
  }

  /** `Array.from(map.values())`. */
  function Values<K, V>(m: seq<(K, V)>): (vs: seq<V>)
    ensures |vs| == |m|
    ensures forall i :: 0 <= i < |m| ==> vs[i] == m[i].1
  {
    seq(|m|, i requires 0 <= i < |m| => m[i].1)
  }

  /** `map.get(k)`. */
  function Get<K(==,!new), V>(m: seq<(K, V)>, k: K): (r: Option<V>)
    ensures r.Some? <==> k in Keys(m)
  {
    match Find(m, k)
    case None => None
    case Some(i) => Some(m[i].1)
  }

  /** With distinct keys, the entry at i is what get returns for its key. */
  lemma GetAt<K(!new), V>(m: seq<(K, V)>, i: nat)
    requires UniqueKeys(m) && i < |m|
    ensures Get(m, m[i].0) == Some(m[i].1)
  {
  }

  /** `map.set(k, v)`. */
  function Set<K(==,!new), V>(m: seq<(K, V)>, k: K, v: V): (r: seq<(K, V)>)
    requires UniqueKeys(m)
    ensures UniqueKeys(r)
    ensures Get(r, k) == Some(v)
    ensures forall k' :: k' != k ==> Get(r, k') == Get(m, k')
    ensures Keys(r) == Keys(m) + {k}
    ensures k in Keys(m) ==> |r| == |m|
    ensures k !in Keys(m) ==> r == m + [(k, v)]
  {
    match Find(m, k)
    case Some(i) =>
      var r := m[i := (k, v)];
      assert forall j :: 0 <= j < |r| ==> r[j].0 == m[j].0;
      assert Keys(r) == Keys(m);
      GetAt(r, i);
      assert forall k' :: k' != k ==> Find(r, k') == Find(m, k');
      r
    case None =>
      AppendNewKey(m, k, v);
      m + [(k, v)]
  }

  lemma AppendNewKey<K(!new), V>(m: seq<(K, V)>, k: K, v: V)
    requires UniqueKeys(m) && k !in Keys(m)
    ensures UniqueKeys(m + [(k, v)])
    ensures Keys(m + [(k, v)]) == Keys(m) + {k}
    ensures Get(m + [(k, v)], k) == Some(v)
    ensures forall k' :: k' != k ==> Get(m + [(k, v)], k') == Get(m, k')
  {
    var r := m + [(k, v)];
    KeysAppend(m, (k, v));
    GetAt(r, |m|);
    forall k' | k' != k
      ensures Get(r, k') == Get(m, k')
    {
      match Find(m, k')
      case None =>
      case Some(j) => GetAt(r, j);
    }
  }

  /** The entries of a list keyed by `key`, as `list.map(x => [key(x), x])`
      builds them. */
  function Entries<K, V>(vs: seq<V>, key: V -> K): (r: seq<(K, V)>)
    ensures |r| == |vs|
    ensures forall i :: 0 <= i < |vs| ==> r[i] == (key(vs[i]), vs[i])
  {
    seq(|vs|, i requires 0 <= i < |vs| => (key(vs[i]), vs[i]))
  }

  /** `for (const [k, v] of entries) map.set(k, v)`. */
  function SetAll<K(==,!new), V>(m: seq<(K, V)>, entries: seq<(K, V)>): (r: seq<(K, V)>)
    requires UniqueKeys(m)
    ensures UniqueKeys(r)
    ensures Keys(r) == Keys(m) + Keys(entries)
    ensures |r| <= |m| + |entries|
    ensures forall i :: 0 <= i < |r| ==> r[i] in m || r[i] in entries
  {
    if |entries| == 0 then m
    else
      var front, last := entries[..|entries| - 1], entries[|entries| - 1];
      assert entries == front + [last];
      KeysAppend(front, last);
      Set(SetAll(m, front), last.0, last.1)
  }

  /** The value of the last entry with key k. */
  function LastValue<K(==,!new), V>(entries: seq<(K, V)>, k: K): (r: Option<V>)
    ensures r.None? <==> k !in Keys(entries)
    ensures r.Some? ==> exists i :: 0 <= i < |entries| && entries[i] == (k, r.value) &&
                                    forall j :: i < j < |entries| ==> entries[j].0 != k
  {
    if |entries| == 0 then None
    else
      var front, last := entries[..|entries| - 1], entries[|entries| - 1];
      assert entries == front + [last];
      KeysAppend(front, last);
      if last.0 == k then Some(last.1) else LastValue(front, k)
  }

  /** After a run of `set`s, a key holds the value it was last set to, or
      its old value when no entry names it. */
  lemma {:induction false} SetAllGet<K(!new), V>(m: seq<(K, V)>, entries: seq<(K, V)>, k: K)
    requires UniqueKeys(m)
    ensures Get(SetAll(m, entries), k) == if k in Keys(entries) then LastValue(entries, k) else Get(m, k)
  {
    if |entries| > 0 {
      var front, last := entries[..|entries| - 1], entries[|entries| - 1];
      assert entries == front + [last];
      KeysAppend(front, last);
      SetAllGet(m, front, k);
    }
  }

  /** `new Map(entries)`: later duplicates overwrite earlier ones in the
      position of the first. */
  function FromEntries<K(==,!new), V>(entries: seq<(K, V)>): (r: seq<(K, V)>)
    ensures UniqueKeys(r)
    ensures Keys(r) == Keys(entries)
    ensures |r| <= |entries|
    ensures forall i :: 0 <= i < |r| ==> r[i] in entries
  {
    SetAll([], entries)
  }

  /** Entries whose keys are already distinct are kept as they are. */
  lemma {:induction false} FromDistinctEntries<K(!new), V>(entries: seq<(K, V)>)
    requires UniqueKeys(entries)
    ensures FromEntries(entries) == entries
  {
    if |entries| > 0 {
      var front := entries[..|entries| - 1];
      FromDistinctEntries(front);
      assert entries[|entries| - 1].0 !in Keys(front);
      assert entries == front + [entries[|entries| - 1]];
    }
  }
}
