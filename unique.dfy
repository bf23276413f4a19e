/** De-duplication through an insertion-ordered JavaScript `Map`: walk a list,
    and `set` an element under its key only when the map `has` no entry for
    that key yet; `Array.from(map.values())` then lists the first element of
    each key, in order of first occurrence. */
module Unique {

  /** The keys of the elements of a list. */
  function Keys<T(==), K(==)>(s: seq<T>, key: T -> K): set<K> {
    set x | x in s :: key(x)
  }

  lemma KeysSnoc<T, K>(s: seq<T>, x: T, key: T -> K)
    ensures Keys(s + [x], key) == Keys(s, key) + {key(x)}
  {
    assert forall y :: y in s + [x] <==> y in s || y == x;
  }

  /** The position of the first element carrying key `k`. */
  function FirstIndex<T(==), K(==)>(s: seq<T>, key: T -> K, k: K): (i: nat)
    requires k in Keys(s, key)
    ensures i < |s| && key(s[i]) == k
    ensures forall j :: 0 <= j < i ==> key(s[j]) != k
  {
    if key(s[0]) == k then 0
    else
      var x :| x in s && key(x) == k;
      assert x in s[1..] by {
        var j :| 0 <= j < |s| && s[j] == x;
        assert j != 0;
      }
      1 + FirstIndex(s[1..], key, k)
  }

  /** The first position of a key is the only position that has it with no earlier one. */
  lemma FirstIndexUnique<T, K>(s: seq<T>, key: T -> K, k: K, i: nat)
    requires i < |s| && key(s[i]) == k
    requires forall j :: 0 <= j < i ==> key(s[j]) != k
    ensures k in Keys(s, key) && FirstIndex(s, key, k) == i
  {
    assert s[i] in s;
  }

  /** The `values()` of the de-duplicating map after the whole walk. */
  function Dedup<T(==), K(==)>(s: seq<T>, key: T -> K): (r: seq<T>)
    ensures Keys(r, key) == Keys(s, key)
  {
    if s == [] then []
    else
      var init, last := s[..|s| - 1], s[|s| - 1];
      var d := Dedup(init, key);
      assert s == init + [last];
      KeysSnoc(init, last, key);
      if key(last) in Keys(d, key) then d
      else
        KeysSnoc(d, last, key);
        d + [last]
  }

  /** One more element: kept when its key is new, dropped otherwise. */
  lemma DedupSnoc<T, K>(s: seq<T>, x: T, key: T -> K)
    ensures Dedup(s + [x], key) == if key(x) in Keys(Dedup(s, key), key) then Dedup(s, key) else Dedup(s, key) + [x]
  {
    assert (s + [x])[..|s|] == s;
  }

  /** `r` lists, for each of its keys, the first element of `s` with that key,
      in the order in which those first elements appear in `s`. */
  ghost predicate FirstOccurrences<T, K>(s: seq<T>, key: T -> K, r: seq<T>) {
    (forall a :: 0 <= a < |r| ==> key(r[a]) in Keys(s, key) && r[a] == s[FirstIndex(s, key, key(r[a]))])
    && (forall a, b :: 0 <= a < b < |r| ==>
          key(r[a]) in Keys(s, key) && key(r[b]) in Keys(s, key)
          && FirstIndex(s, key, key(r[a])) < FirstIndex(s, key, key(r[b])))
  }

  /** Adding an element at the end leaves the first position of every earlier key alone. */
  lemma FirstIndexSnoc<T, K>(s: seq<T>, x: T, key: T -> K, k: K)
    requires k in Keys(s, key)
    ensures k in Keys(s + [x], key) && FirstIndex(s + [x], key, k) == FirstIndex(s, key, k)
  {
    var i := FirstIndex(s, key, k);
    assert (s + [x])[i] == s[i];
    assert forall j :: 0 <= j < i ==> (s + [x])[j] == s[j];
    FirstIndexUnique(s + [x], key, k, i);
  }

  /** The de-duplicated list keeps exactly the first element of each key, in
      order of first occurrence. */
  lemma {:induction false} DedupFirst<T, K>(s: seq<T>, key: T -> K)
    ensures FirstOccurrences(s, key, Dedup(s, key))
  {
    if s != [] {
      var init, last := s[..|s| - 1], s[|s| - 1];
      assert s == init + [last];
      var d := Dedup(init, key);
      DedupFirst(init, key);
      forall a | 0 <= a < |d|
        ensures key(d[a]) in Keys(s, key) && FirstIndex(s, key, key(d[a])) == FirstIndex(init, key, key(d[a]))
      {
        FirstIndexSnoc(init, last, key, key(d[a]));
      }
      if key(last) !in Keys(d, key) {
        var r := d + [last];
        assert forall j :: 0 <= j < |init| ==> key(s[j]) != key(last) by {
          forall j | 0 <= j < |init| ensures key(s[j]) != key(last) {
            assert s[j] == init[j] && init[j] in init;
          }
        }
        FirstIndexUnique(s, key, key(last), |init|);
        assert forall a :: 0 <= a < |d| ==> r[a] == d[a];
      }
    }
  }

  /** No key occurs twice in the de-duplicated list. */
  lemma DedupDistinct<T, K>(s: seq<T>, key: T -> K)
    ensures forall a, b :: 0 <= a < b < |Dedup(s, key)| ==> key(Dedup(s, key)[a]) != key(Dedup(s, key)[b])
  {
    DedupFirst(s, key);
  }

  /** A list whose keys are already distinct is its own de-duplication. */
  lemma {:induction false} DedupDistinctUnchanged<T, K>(s: seq<T>, key: T -> K)
    requires forall a, b :: 0 <= a < b < |s| ==> key(s[a]) != key(s[b])
    ensures Dedup(s, key) == s
  {
    if s != [] {
      var init, last := s[..|s| - 1], s[|s| - 1];
      assert s == init + [last];
      DedupDistinctUnchanged(init, key);
      assert key(last) !in Keys(init, key) by {
        forall x | x in init ensures key(x) != key(last) {
          var j :| 0 <= j < |init| && init[j] == x;
          assert s[j] == x;
        }
      }
    }
  }

  /** De-duplicating twice changes nothing the second time. */
  lemma DedupIdempotent<T, K>(s: seq<T>, key: T -> K)
    ensures Dedup(Dedup(s, key), key) == Dedup(s, key)
  {
    DedupDistinct(s, key);
    DedupDistinctUnchanged(Dedup(s, key), key);
  }

  /** One step of the walk, as the map sees it: a new key adds the element, a
      known one leaves the map alone. */
  lemma DedupStep<T, K>(walked: seq<T>, x: T, values: seq<T>, seen: set<K>, key: T -> K)
    requires values == Dedup(walked, key) && seen == Keys(values, key)
    ensures key(x) in seen ==> Dedup(walked + [x], key) == values
    ensures key(x) !in seen ==>
      Dedup(walked + [x], key) == values + [x] && Keys(values + [x], key) == seen + {key(x)}
  {
    DedupSnoc(walked, x, key);
    KeysSnoc(values, x, key);
  }

  /** The walk over more elements: `if (!map.has(key(x))) map.set(key(x), x)`
      for each `x` of `xs`, on a map that already holds the first elements
      of `p`; `seen` stands for the keys of the map and `values` for its values. */
  method DedupExtend<T(==), K(==)>(ghost p: seq<T>, values0: seq<T>, seen0: set<K>, xs: seq<T>, key: T -> K)
    returns (values: seq<T>, seen: set<K>)
    requires values0 == Dedup(p, key) && seen0 == Keys(values0, key)
    ensures values == Dedup(p + xs, key) && seen == Keys(values, key)
  {
    values, seen := values0, seen0;
    var i := 0;
    PrefixSnoc(p, xs, 0);
    while i < |xs|
      invariant i <= |xs|
      invariant values == Dedup(p + xs[..i], key) && seen == Keys(values, key)
    {
      DedupStep(p + xs[..i], xs[i], values, seen, key);
      PrefixSnoc(p, xs, i);
      if key(xs[i]) !in seen {
        values := values + [xs[i]];
        seen := seen + {key(xs[i])};
      }
      i := i + 1;
    }
    PrefixSnoc(p, xs, i);
  }

  /** The walked prefix grows by one element per step, and is all of `p + xs` at the end. */
  lemma PrefixSnoc<T>(p: seq<T>, xs: seq<T>, i: nat)
    requires i <= |xs|
    ensures i == 0 ==> p + xs[..i] == p
    ensures i == |xs| ==> p + xs[..i] == p + xs
    ensures i < |xs| ==> (p + xs[..i]) + [xs[i]] == p + xs[..i + 1]
  {
    if i < |xs| {
      assert xs[..i + 1] == xs[..i] + [xs[i]];
    }
  }

  /** The whole walk, from an empty map. */
  method DedupWalk<T(==), K(==)>(s: seq<T>, key: T -> K) returns (values: seq<T>)
    ensures values == Dedup(s, key)
  {
    var seen;
    assert [] + s == s;
    values, seen := DedupExtend([], [], {}, s, key);
  }
}
