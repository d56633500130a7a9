/** The loop shape shared by `dedupeMarkets` and both `bestQuotesByRunner`s:
    walk a list, keep one entry per key in a map, and replace the kept entry
    only when the new element is strictly better. The kept element for a key
    is therefore the FIRST of the best elements with that key. */
module KeepBest {
  import opened Wrappers
  import opened OrderedMap

  /** One iteration: `existing = map.get(k); if (!existing || less(existing, x)) map.set(k, x)`. */
  function Step<T>(acc: seq<(string, T)>, x: T, key: T -> string, less: (T, T) -> bool): (r: seq<(string, T)>)
    requires UniqueKeys(acc)
    ensures UniqueKeys(r)
    ensures Keys(r) == Keys(acc) + {key(x)}
  {
    match Get(acc, key(x))
    case None => Set(acc, key(x), x)
    case Some(e) => if less(e, x) then Set(acc, key(x), x) else acc
  }

  /** The map after the whole list has been walked. */
  function Fold<T>(xs: seq<T>, key: T -> string, less: (T, T) -> bool): (r: seq<(string, T)>)
    ensures UniqueKeys(r)
  {
    if |xs| == 0 then [] else Step(Fold(xs[..|xs| - 1], key, less), xs[|xs| - 1], key, less)
  }

  function InputKeys<T>(xs: seq<T>, key: T -> string): set<string>
  {
    set i | 0 <= i < |xs| :: key(xs[i])
  }

  /** The map holds exactly one entry for every key that occurs in the list. */
  lemma {:induction false} FoldKeys<T>(xs: seq<T>, key: T -> string, less: (T, T) -> bool)
    ensures Keys(Fold(xs, key, less)) == InputKeys(xs, key)
  {
    if |xs| > 0 {
      var ys := xs[..|xs| - 1];
      FoldKeys(ys, key, less);
      assert InputKeys(xs, key) == InputKeys(ys, key) + {key(xs[|xs| - 1])} by {
        forall k | k in InputKeys(xs, key) ensures k in InputKeys(ys, key) + {key(xs[|xs| - 1])} {
          var i :| 0 <= i < |xs| && key(xs[i]) == k;
          if i < |ys| { assert key(ys[i]) == k; }
        }
        forall k | k in InputKeys(ys, key) ensures k in InputKeys(xs, key) {
          var i :| 0 <= i < |ys| && key(ys[i]) == k;
          assert key(xs[i]) == k;
        }
      }
    }
  }

  /** `less` is a strict weak order: asymmetric, and "not above" followed by
      "below" is "below" (as `<` on a numeric or string field is). */
  ghost predicate StrictWeakOrder<T(!new)>(less: (T, T) -> bool)
  {
    (forall a, b :: less(a, b) ==> !less(b, a)) &&
    (forall a, b, c :: !less(b, a) && less(b, c) ==> less(a, c))
  }

  /** Position i holds the element the loop keeps for its key: no element
      with that key is strictly better, and every earlier one is strictly
      worse. */
  ghost predicate Chosen<T>(xs: seq<T>, i: int, key: T -> string, less: (T, T) -> bool)
  {
    0 <= i < |xs| &&
    (forall j :: 0 <= j < |xs| && key(xs[j]) == key(xs[i]) ==> !less(xs[i], xs[j])) &&
    (forall j :: 0 <= j < i && key(xs[j]) == key(xs[i]) ==> less(xs[j], xs[i]))
  }

  /** At most one position is chosen per key. */
  lemma ChosenUnique<T(!new)>(xs: seq<T>, i: int, i': int, key: T -> string, less: (T, T) -> bool)
    requires StrictWeakOrder(less)
    requires Chosen(xs, i, key, less) && Chosen(xs, i', key, less)
    requires key(xs[i]) == key(xs[i'])
    ensures i == i'
  {
  }

  /** Every entry of the map is the chosen element of its key. */
  lemma {:induction false} FoldChosen<T(!new)>(xs: seq<T>, key: T -> string, less: (T, T) -> bool)
    requires StrictWeakOrder(less)
    ensures forall k :: Get(Fold(xs, key, less), k).Some? ==>
      exists i :: Chosen(xs, i, key, less) && key(xs[i]) == k && xs[i] == Get(Fold(xs, key, less), k).value
  {
    if |xs| > 0 {
      var n := |xs| - 1;
      var ys, x := xs[..n], xs[n];
      assert xs == ys + [x];
      FoldChosen(ys, key, less);
      FoldKeys(ys, key, less);
      var acc := Fold(ys, key, less);
      var r := Fold(xs, key, less);
      assert r == Step(acc, x, key, less);
      forall k | Get(r, k).Some?
        ensures exists i :: Chosen(xs, i, key, less) && key(xs[i]) == k && xs[i] == Get(r, k).value
      {
        if k != key(x) {
          assert Get(r, k) == Get(acc, k);
          var i :| Chosen(ys, i, key, less) && key(ys[i]) == k && ys[i] == Get(acc, k).value;
          ChosenExtendOther(ys, x, i, key, less);
        } else {
          match Get(acc, k)
          case None =>
            assert k !in InputKeys(ys, key);
            ChosenNewKey(ys, x, key, less);
          case Some(e) =>
            var i :| Chosen(ys, i, key, less) && key(ys[i]) == k && ys[i] == e;
            if less(e, x) {
              ChosenReplace(ys, x, i, key, less);
            } else {
              ChosenKeep(ys, x, i, key, less);
            }
        }
      }
    }
  }

  lemma ChosenExtendOther<T>(ys: seq<T>, x: T, i: int, key: T -> string, less: (T, T) -> bool)
    requires Chosen(ys, i, key, less) && key(ys[i]) != key(x)
    ensures Chosen(ys + [x], i, key, less) && (ys + [x])[i] == ys[i]
  {
    var xs := ys + [x];
    forall j | 0 <= j < |xs| && key(xs[j]) == key(xs[i]) ensures !less(xs[i], xs[j]) {
      assert j < |ys| && xs[j] == ys[j];
    }
  }

  lemma ChosenNewKey<T(!new)>(ys: seq<T>, x: T, key: T -> string, less: (T, T) -> bool)
    requires StrictWeakOrder(less)
    requires key(x) !in InputKeys(ys, key)
    ensures Chosen(ys + [x], |ys|, key, less) && (ys + [x])[|ys|] == x
  {
    var xs := ys + [x];
    assert forall j :: 0 <= j < |ys| ==> xs[j] == ys[j] && key(ys[j]) in InputKeys(ys, key);
    assert !less(x, x);
  }

  lemma ChosenReplace<T(!new)>(ys: seq<T>, x: T, i: int, key: T -> string, less: (T, T) -> bool)
    requires StrictWeakOrder(less)
    requires Chosen(ys, i, key, less) && key(ys[i]) == key(x) && less(ys[i], x)
    ensures Chosen(ys + [x], |ys|, key, less) && (ys + [x])[|ys|] == x
  {
    var xs := ys + [x];
    forall j | 0 <= j < |ys| && key(xs[j]) == key(x) ensures less(xs[j], x) && !less(x, xs[j]) {
      assert xs[j] == ys[j];
      assert !less(ys[i], ys[j]);
    }
    assert !less(x, x);
  }

  lemma ChosenKeep<T>(ys: seq<T>, x: T, i: int, key: T -> string, less: (T, T) -> bool)
    requires Chosen(ys, i, key, less) && key(ys[i]) == key(x) && !less(ys[i], x)
    ensures Chosen(ys + [x], i, key, less) && (ys + [x])[i] == ys[i]
  {
    var xs := ys + [x];
    forall j | 0 <= j < |xs| && key(xs[j]) == key(xs[i]) ensures !less(xs[i], xs[j]) {
      if j < |ys| { assert xs[j] == ys[j]; }
    }
  }

  /** Every entry of the map is (key, element) for the chosen element of
      that key. */
  lemma FoldEntries<T(!new)>(xs: seq<T>, key: T -> string, less: (T, T) -> bool)
    requires StrictWeakOrder(less)
    ensures forall e :: 0 <= e < |Fold(xs, key, less)| ==>
      exists i :: Chosen(xs, i, key, less) && Fold(xs, key, less)[e] == (key(xs[i]), xs[i])
  {
    var r := Fold(xs, key, less);
    FoldChosen(xs, key, less);
    forall e | 0 <= e < |r|
      ensures exists i :: Chosen(xs, i, key, less) && r[e] == (key(xs[i]), xs[i])
    {
      GetAt(r, e);
    }
  }

  /** Every element of the list has its key represented by some entry. */
  lemma FoldComplete<T>(xs: seq<T>, key: T -> string, less: (T, T) -> bool)
    ensures forall i :: 0 <= i < |xs| ==>
      exists e :: 0 <= e < |Fold(xs, key, less)| && Fold(xs, key, less)[e].0 == key(xs[i])
  {
    FoldKeys(xs, key, less);
    forall i | 0 <= i < |xs|
      ensures exists e :: 0 <= e < |Fold(xs, key, less)| && Fold(xs, key, less)[e].0 == key(xs[i])
    {
      assert key(xs[i]) in InputKeys(xs, key);
    }
  }

  /** A property every element of the list has, every kept element has. */
  lemma {:induction false} FoldValuesSatisfy<T>(xs: seq<T>, key: T -> string, less: (T, T) -> bool, p: T -> bool)
    requires forall i :: 0 <= i < |xs| ==> p(xs[i])
    ensures forall e :: 0 <= e < |Fold(xs, key, less)| ==> p(Fold(xs, key, less)[e].1)
  {
    if |xs| > 0 {
      var ys, x := xs[..|xs| - 1], xs[|xs| - 1];
      FoldValuesSatisfy(ys, key, less, p);
      var acc := Fold(ys, key, less);
      var r := Fold(xs, key, less);
      forall e | 0 <= e < |r| ensures p(r[e].1) {
        GetAt(r, e);
        if r[e].0 == key(x) {
          if Get(acc, key(x)).Some? && !less(Get(acc, key(x)).value, x) {
            assert Get(acc, key(x)).value == Get(r, key(x)).value;
            var k :| 0 <= k < |acc| && acc[k].0 == key(x);
            GetAt(acc, k);
          }
        } else {
          assert Get(r, r[e].0) == Get(acc, r[e].0);
          var k :| 0 <= k < |acc| && acc[k].0 == r[e].0;
          GetAt(acc, k);
        }
      }
    }
  }
}
