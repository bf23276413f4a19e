/** The array operations of JavaScript that the pages use on their lists:
    `filter`, `filter(...).length` and the stable `sort` with a numeric
    comparator. */
module Lists {

  /** `s.filter(p)`: the elements that pass `p`, in their original order. */
  function Filter<T>(s: seq<T>, p: T -> bool): (r: seq<T>)
    ensures |r| <= |s|
  {
    if s == [] then [] else (if p(s[0]) then [s[0]] else []) + Filter(s[1..], p)
  }

  /** Everything a filter keeps comes from the list and passes the test. */
  lemma {:induction false} FilterSound<T>(s: seq<T>, p: T -> bool)
    ensures forall x :: x in Filter(s, p) ==> x in s && p(x)
  {
    if s != [] {
      FilterSound(s[1..], p);
    }
  }

  /** A filter keeps everything in the list that passes the test. */
  lemma {:induction false} FilterComplete<T>(s: seq<T>, p: T -> bool)
    ensures forall x :: x in s && p(x) ==> x in Filter(s, p)
  {
    if s != [] {
      FilterComplete(s[1..], p);
      assert forall x :: x in s ==> x == s[0] || x in s[1..];
    }
  }

  /** Filtering a concatenation filters each part. */
  lemma {:induction false} FilterAppend<T>(a: seq<T>, b: seq<T>, p: T -> bool)
    ensures Filter(a + b, p) == Filter(a, p) + Filter(b, p)
  {
    if a != [] {
      assert (a + b)[0] == a[0];
      assert (a + b)[1..] == a[1..] + b;
      FilterAppend(a[1..], b, p);
    } else {
      assert a + b == b;
    }
  }

  /** Two tests that agree on every element of a list filter it alike. */
  lemma {:induction false} FilterAgree<T>(s: seq<T>, p: T -> bool, q: T -> bool)
    requires forall x :: x in s ==> p(x) == q(x)
    ensures Filter(s, p) == Filter(s, q)
  {
    if s != [] {
      assert s[0] in s;
      assert forall x :: x in s[1..] ==> x in s;
      FilterAgree(s[1..], p, q);
    }
  }

  /** The elements of `s` whose flag in `mask` is set, in order. */
  function Select<T>(s: seq<T>, mask: seq<bool>): (r: seq<T>)
    requires |mask| == |s|
    ensures |r| <= |s|
  {
    if s == [] then [] else (if mask[0] then [s[0]] else []) + Select(s[1..], mask[1..])
  }

  /** `a` is an order-preserving subsequence of `b`: keeping some of the
      elements of `b`, in place, gives `a`. */
  ghost predicate IsSubseq<T>(a: seq<T>, b: seq<T>) {
    exists mask: seq<bool> :: |mask| == |b| && Select(b, mask) == a
  }

  lemma {:induction false} FilterIsSelect<T>(s: seq<T>, p: T -> bool)
    ensures Select(s, seq(|s|, i requires 0 <= i < |s| => p(s[i]))) == Filter(s, p)
  {
    if s != [] {
      var mask := seq(|s|, i requires 0 <= i < |s| => p(s[i]));
      FilterIsSelect(s[1..], p);
      assert mask[1..] == seq(|s[1..]|, i requires 0 <= i < |s[1..]| => p(s[1..][i]));
    }
  }

  /** A filtered list is an order-preserving subsequence of the list it came from. */
  lemma FilterIsSubseq<T>(s: seq<T>, p: T -> bool)
    ensures IsSubseq(Filter(s, p), s)
  {
    var mask := seq(|s|, i requires 0 <= i < |s| => p(s[i]));
    FilterIsSelect(s, p);
    assert |mask| == |s| && Select(s, mask) == Filter(s, p);
  }

  /** Each element either passes `p` or fails it, so the two counts add up to the length. */
  lemma {:induction false} FilterCountSplit<T>(s: seq<T>, p: T -> bool)
    ensures |Filter(s, p)| + |Filter(s, x => !p(x))| == |s|
  {
    if s != [] {
      FilterCountSplit(s[1..], p);
    }
  }

  /** Filtering twice with the same predicate changes nothing the second time. */
  lemma {:induction false} FilterIdempotent<T>(s: seq<T>, p: T -> bool)
    ensures Filter(Filter(s, p), p) == Filter(s, p)
  {
    if s != [] {
      FilterIdempotent(s[1..], p);
      FilterAppend(if p(s[0]) then [s[0]] else [], Filter(s[1..], p), p);
    }
  }

  /** No element occurs twice. */
  predicate Distinct<T(==)>(s: seq<T>) {
    forall i, j :: 0 <= i < j < |s| ==> s[i] != s[j]
  }

  /** Filtering a list without repeats gives a list without repeats. */
  lemma {:induction false} FilterDistinct<T>(s: seq<T>, p: T -> bool)
    requires Distinct(s)
    ensures Distinct(Filter(s, p))
  {
    if s != [] {
      FilterDistinct(s[1..], p);
      FilterSound(s[1..], p);
      assert s[0] !in s[1..];
    }
  }

  /** Non-decreasing by `key`. */
  predicate SortedBy<T>(s: seq<T>, key: T -> int) {
    forall i, j :: 0 <= i < j < |s| ==> key(s[i]) <= key(s[j])
  }

  /** Insert `x` into a list sorted by `key`, after every element whose key is not
      greater than its own. */
  function InsertBy<T>(x: T, s: seq<T>, key: T -> int): (r: seq<T>)
    requires SortedBy(s, key)
    ensures SortedBy(r, key)
    ensures multiset(r) == multiset(s) + multiset{x}
    ensures |r| == |s| + 1
  {
    if s == [] then [x]
    else if key(x) < key(s[0]) then
      SortedCons(x, s, key);
      [x] + s
    else
      var t := InsertBy(x, s[1..], key);
      assert s == [s[0]] + s[1..];
      HeadBelow(s[0], x, s[1..], t, key);
      SortedCons(s[0], t, key);
      [s[0]] + t
  }

  /** Putting an element no greater than any of a sorted list in front keeps it sorted. */
  lemma SortedCons<T>(h: T, t: seq<T>, key: T -> int)
    requires SortedBy(t, key)
    requires forall k :: 0 <= k < |t| ==> key(h) <= key(t[k])
    ensures SortedBy([h] + t, key)
  {
  }

  /** An element no greater than `x` and than every element of `rest` is no
      greater than any element of a rearrangement of `rest` plus `x`. */
  lemma HeadBelow<T>(h: T, x: T, rest: seq<T>, t: seq<T>, key: T -> int)
    requires key(h) <= key(x)
    requires forall j :: 0 <= j < |rest| ==> key(h) <= key(rest[j])
    requires multiset(t) == multiset(rest) + multiset{x}
    ensures forall k :: 0 <= k < |t| ==> key(h) <= key(t[k])
  {
    forall k | 0 <= k < |t| ensures key(h) <= key(t[k]) {
      assert t[k] in multiset(t);
      assert t[k] == x || t[k] in multiset(rest);
      if t[k] != x {
        assert t[k] in rest;
      }
    }
  }

  /** The stable sort `[...s].sort((a, b) => key(a) - key(b))`: an insertion sort
      that keeps equal keys in their original order. */
  function SortBy<T>(s: seq<T>, key: T -> int): (r: seq<T>)
    ensures SortedBy(r, key)
    ensures multiset(r) == multiset(s)
    ensures |r| == |s|
  {
    if s == [] then []
    else
      assert s == s[..|s| - 1] + [s[|s| - 1]];
      InsertBy(s[|s| - 1], SortBy(s[..|s| - 1], key), key)
  }

  /** The test "has key `k`", as one named predicate so that every use is the same term. */
  function HasKey<T>(key: T -> int, k: int): T -> bool {
    y => key(y) == k
  }

  /** No element of a list sorted by `key` and starting above `k` has key `k`. */
  lemma {:induction false} FilterKeyAbove<T>(s: seq<T>, key: T -> int, k: int)
    requires SortedBy(s, key)
    requires s != [] && k < key(s[0])
    ensures Filter(s, HasKey(key, k)) == []
  {
    if |s| > 1 {
      FilterKeyAbove(s[1..], key, k);
    }
  }

  lemma InsertByFrontStable<T>(x: T, s: seq<T>, key: T -> int, k: int)
    requires SortedBy(s, key) && s != [] && key(x) < key(s[0])
    ensures Filter([x] + s, HasKey(key, k)) == Filter(s, HasKey(key, k)) + (if key(x) == k then [x] else [])
  {
    if key(x) == k {
      FilterKeyAbove(s, key, k);
    }
    FilterAppend([x], s, HasKey(key, k));
  }

  lemma ConsFilter<T>(y: T, s: seq<T>, t: seq<T>, extra: seq<T>, p: T -> bool)
    requires Filter(t, p) == Filter(s, p) + extra
    ensures Filter([y] + t, p) == Filter([y] + s, p) + extra
  {
    FilterCons(y, t, p);
    FilterCons(y, s, p);
    AppendAssoc(if p(y) then [y] else [], Filter(s, p), extra);
  }

  lemma AppendAssoc<T>(a: seq<T>, b: seq<T>, c: seq<T>)
    ensures a + (b + c) == (a + b) + c
  {
  }

  /** Filtering a list with one more element in front. */
  lemma FilterCons<T>(y: T, s: seq<T>, p: T -> bool)
    ensures Filter([y] + s, p) == (if p(y) then [y] else []) + Filter(s, p)
  {
    assert ([y] + s)[0] == y;
    assert ([y] + s)[1..] == s;
  }

  lemma {:induction false} InsertByStable<T>(x: T, s: seq<T>, key: T -> int, k: int)
    requires SortedBy(s, key)
    ensures Filter(InsertBy(x, s, key), HasKey(key, k))
         == Filter(s, HasKey(key, k)) + (if key(x) == k then [x] else [])
  {
    if s == [] {
      assert InsertBy(x, s, key) == [x];
    } else if key(x) < key(s[0]) {
      InsertByFrontStable(x, s, key, k);
    } else {
      InsertByStable(x, s[1..], key, k);
      ConsFilter(s[0], s[1..], InsertBy(x, s[1..], key), if key(x) == k then [x] else [], HasKey(key, k));
      assert [s[0]] + s[1..] == s;
    }
  }

  lemma FilterSnoc<T>(s: seq<T>, x: T, key: T -> int, k: int)
    ensures Filter(s + [x], HasKey(key, k)) == Filter(s, HasKey(key, k)) + (if key(x) == k then [x] else [])
  {
    FilterAppend(s, [x], HasKey(key, k));
  }

  /** Stability: for every key, the elements carrying it come out in the order they went in. */
  lemma {:induction false} SortByStable<T>(s: seq<T>, key: T -> int, k: int)
    ensures Filter(SortBy(s, key), HasKey(key, k)) == Filter(s, HasKey(key, k))
  {
    if s != [] {
      var init, last := s[..|s| - 1], s[|s| - 1];
      assert s == init + [last];
      var sorted := SortBy(init, key);
      var extra := if key(last) == k then [last] else [];
      SortByStable(init, key, k);
      InsertByStable(last, sorted, key, k);
      FilterSnoc(init, last, key, k);
      calc {
        Filter(SortBy(s, key), HasKey(key, k));
        Filter(InsertBy(last, sorted, key), HasKey(key, k));
        Filter(sorted, HasKey(key, k)) + extra;
        Filter(init, HasKey(key, k)) + extra;
        Filter(init + [last], HasKey(key, k));
      }
    }
  }

  /** Filtering a sorted list keeps it sorted. */
  lemma {:induction false} FilterSorted<T>(s: seq<T>, p: T -> bool, key: T -> int)
    requires SortedBy(s, key)
    ensures SortedBy(Filter(s, p), key)
  {
    if s != [] {
      FilterSorted(s[1..], p, key);
      FilterSound(s[1..], p);
      var t := Filter(s[1..], p);
      forall k | 0 <= k < |t| ensures key(s[0]) <= key(t[k]) {
        assert t[k] in s[1..];
      }
      if p(s[0]) {
        SortedCons(s[0], t, key);
      }
    }
  }

  /** Removing the element at `j` removes one copy of it from the multiset. */
  lemma RemoveAt<T>(b: seq<T>, j: nat)
    requires j < |b|
    ensures multiset(b[..j] + b[j + 1..]) == multiset(b) - multiset{b[j]}
  {
    assert b == b[..j] + [b[j]] + b[j + 1..];
  }

  /** Removing the element at `j` removes it from the filtered list when it passes. */
  lemma FilterCountRemove<T>(b: seq<T>, j: nat, p: T -> bool)
    requires j < |b|
    ensures |Filter(b, p)| == |Filter(b[..j] + b[j + 1..], p)| + (if p(b[j]) then 1 else 0)
  {
    assert b == b[..j] + [b[j]] + b[j + 1..];
    FilterAppend(b[..j] + [b[j]], b[j + 1..], p);
    FilterAppend(b[..j], [b[j]], p);
    FilterAppend(b[..j], b[j + 1..], p);
  }

  /** Two lists with the same elements have as many elements passing any test. */
  lemma {:induction false} FilterCountPerm<T>(a: seq<T>, b: seq<T>, p: T -> bool)
    requires multiset(a) == multiset(b)
    ensures |Filter(a, p)| == |Filter(b, p)|
  {
    if a != [] {
      var j := MatchFirst(a, b);
      FilterCountPerm(a[1..], b[..j] + b[j + 1..], p);
      FilterCountRemove(b, j, p);
      FilterCons(a[0], a[1..], p);
      assert a == [a[0]] + a[1..];
    }
  }

  /** Where the first element of `a` sits in `b`, and what is left of both. */
  lemma MatchFirst<T>(a: seq<T>, b: seq<T>) returns (j: nat)
    requires multiset(a) == multiset(b) && a != []
    ensures j < |b| && b[j] == a[0]
    ensures multiset(a[1..]) == multiset(b[..j] + b[j + 1..])
  {
    assert a[0] in multiset(b);
    j :| 0 <= j < |b| && b[j] == a[0];
    RemoveAt(b, j);
    DropFirst(a);
  }

  lemma DropFirst<T>(a: seq<T>)
    requires a != []
    ensures multiset(a[1..]) == multiset(a) - multiset{a[0]}
  {
    assert a == [a[0]] + a[1..];
  }
}
