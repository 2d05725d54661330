/**
 Python dictionaries built from ordered items. A dict literal and a dict
 comprehension both insert their items in order, a later item overwriting an
 earlier one with the same key.
 */
module Dicts {

  /** The keys of `items` are pairwise distinct: they are the items of a dict. */
  ghost predicate DistinctKeys<K, V>(items: seq<(K, V)>) {
    forall i, j :: 0 <= i < j < |items| ==> items[i].0 != items[j].0
  }

  /** The values of `items` are pairwise distinct. */
  ghost predicate DistinctValues<K, V>(items: seq<(K, V)>) {
    forall i, j :: 0 <= i < j < |items| ==> items[i].1 != items[j].1
  }

  /** No key and no value of `a` occurs in `b`. */
  ghost predicate Apart<K, V>(a: seq<(K, V)>, b: seq<(K, V)>) {
    forall i, j :: 0 <= i < |a| && 0 <= j < |b| ==> a[i].0 != b[j].0 && a[i].1 != b[j].1
  }

  /** Item `i` is the last one inserted under its key. */
  ghost predicate LastUnderKey<K, V>(items: seq<(K, V)>, i: int)
    requires 0 <= i < |items|
  {
    forall j :: i < j < |items| ==> items[j].0 != items[i].0
  }

  /** `{k: v for k, v in items}`: later items overwrite earlier ones. */
  function FromItems<K(!new), V>(items: seq<(K, V)>): (m: map<K, V>)
    ensures forall k :: k in m <==> exists i :: 0 <= i < |items| && items[i].0 == k
    decreases |items|
  {
    if |items| == 0 then map[]
    else
      var init := items[..|items| - 1];
      var last := items[|items| - 1];
      assert forall i :: 0 <= i < |init| ==> init[i] == items[i];
      FromItems(init)[last.0 := last.1]
  }

  /** The value under a key is the one of the last item inserted with that key. */
  lemma {:induction false} FromItemsLastWins<K(!new), V>(items: seq<(K, V)>, i: int)
    requires 0 <= i < |items| && LastUnderKey(items, i)
    ensures FromItems(items)[items[i].0] == items[i].1
    decreases |items|
  {
    var init := items[..|items| - 1];
    var last := items[|items| - 1];
    assert FromItems(items) == FromItems(init)[last.0 := last.1];
    if i < |items| - 1 {
      assert init[i] == items[i];
      assert LastUnderKey(init, i) by {
        forall j | i < j < |init| ensures init[j].0 != init[i].0 {
          assert init[j] == items[j];
        }
      }
      FromItemsLastWins(init, i);
    }
  }

  /** A dict built from items with distinct keys has one entry per item. */
  lemma {:induction false} FromItemsSize<K(!new), V>(items: seq<(K, V)>)
    requires DistinctKeys(items)
    ensures |FromItems(items)| == |items|
    decreases |items|
  {
    if |items| > 0 {
      var init := items[..|items| - 1];
      var last := items[|items| - 1];
      assert DistinctKeys(init);
      FromItemsSize(init);
      assert last.0 !in FromItems(init);
      assert FromItems(items) == FromItems(init)[last.0 := last.1];
    }
  }

  /** `(v, k)` for every item `(k, v)`, in the same order. */
  function Swap<K, V>(items: seq<(K, V)>): (swapped: seq<(V, K)>)
    ensures |swapped| == |items|
    ensures forall i :: 0 <= i < |items| ==> swapped[i] == (items[i].1, items[i].0)
  {
    seq(|items|, i requires 0 <= i < |items| => (items[i].1, items[i].0))
  }

  /** `rev` undoes `fwd` and `fwd` undoes `rev`. */
  ghost predicate ExactInverse<K, V>(fwd: map<K, V>, rev: map<V, K>) {
    && (forall k :: k in fwd ==> fwd[k] in rev && rev[fwd[k]] == k)
    && (forall v :: v in rev ==> rev[v] in fwd && fwd[rev[v]] == v)
  }

  /** With distinct values, reversing a dict gives its exact inverse, of the same size. */
  lemma ReverseOfInjectiveIsExactInverse<K(!new), V(!new)>(items: seq<(K, V)>)
    requires DistinctKeys(items) && DistinctValues(items)
    ensures ExactInverse(FromItems(items), FromItems(Swap(items)))
    ensures |FromItems(Swap(items))| == |FromItems(items)| == |items|
  {
    var fwd := FromItems(items);
    var sw := Swap(items);
    var rev := FromItems(sw);
    assert DistinctKeys(sw);
    FromItemsSize(items);
    FromItemsSize(sw);
    forall k | k in fwd
      ensures fwd[k] in rev && rev[fwd[k]] == k
    {
      var i :| 0 <= i < |items| && items[i].0 == k;
      FromItemsLastWins(items, i);
      FromItemsLastWins(sw, i);
    }
    forall v | v in rev
      ensures rev[v] in fwd && fwd[rev[v]] == v
    {
      var i :| 0 <= i < |sw| && sw[i].0 == v;
      FromItemsLastWins(items, i);
      FromItemsLastWins(sw, i);
    }
  }

  /** Two codes sharing a value cannot both be recovered by the reversed dict. */
  lemma ReverseOfNonInjectiveLosesAKey<K(!new), V(!new)>(items: seq<(K, V)>)
    requires DistinctKeys(items) && !DistinctValues(items)
    ensures !ExactInverse(FromItems(items), FromItems(Swap(items)))
  {
    var fwd := FromItems(items);
    var rev := FromItems(Swap(items));
    var i, j :| 0 <= i < j < |items| && items[i].1 == items[j].1;
    FromItemsLastWins(items, i);
    FromItemsLastWins(items, j);
    assert fwd[items[i].0] == fwd[items[j].0];
  }

  /**
   Reversing a dict (`{v: k for k, v in d.items()}`) gives its exact inverse
   exactly when the dict's values are distinct.
   */
  lemma ReverseIsExactInverseIffDistinct<K(!new), V(!new)>(items: seq<(K, V)>)
    requires DistinctKeys(items)
    ensures ExactInverse(FromItems(items), FromItems(Swap(items))) <==> DistinctValues(items)
  {
    if DistinctValues(items) {
      ReverseOfInjectiveIsExactInverse(items);
    } else {
      ReverseOfNonInjectiveLosesAKey(items);
    }
  }

  /** Two dicts with no shared key or value concatenate into one. */
  lemma ConcatDistinct<K, V>(a: seq<(K, V)>, b: seq<(K, V)>)
    requires DistinctKeys(a) && DistinctValues(a)
    requires DistinctKeys(b) && DistinctValues(b)
    requires Apart(a, b)
    ensures DistinctKeys(a + b) && DistinctValues(a + b)
  {
    var c := a + b;
    forall i, j | 0 <= i < j < |c|
      ensures c[i].0 != c[j].0 && c[i].1 != c[j].1
    {
      if j < |a| {
      } else if i >= |a| {
        assert c[i] == b[i - |a|] && c[j] == b[j - |a|];
      } else {
        assert c[i] == a[i] && c[j] == b[j - |a|];
      }
    }
  }

  /** Being apart from two sequences is being apart from their concatenation. */
  lemma ApartConcat<K, V>(a: seq<(K, V)>, b: seq<(K, V)>, c: seq<(K, V)>)
    requires Apart(a, b) && Apart(a, c)
    ensures Apart(a, b + c)
  {
    forall i, j | 0 <= i < |a| && 0 <= j < |b + c|
      ensures a[i].0 != (b + c)[j].0 && a[i].1 != (b + c)[j].1
    {
      if j >= |b| {
        assert (b + c)[j] == c[j - |b|];
      }
    }
  }
}
