/** Sorting by a numeric key, as the browser's and the server's code do. The browser's sort is stable;
    the server's need not be, but the keys it sorts by are distinct, and then every sort yields this
    one's result (`StrictlySortedIsUnique`). */
module Sorting {

  /** Inserting after everything that is not greater: one step of a stable sort. */
  function Insert<T>(sorted: seq<T>, x: T, key: T -> real): (r: seq<T>)
    ensures |r| == |sorted| + 1
  {
    if sorted == [] || key(sorted[|sorted| - 1]) <= key(x) then sorted + [x]
    else Insert(sorted[..|sorted| - 1], x, key) + [sorted[|sorted| - 1]]
  }

  /** A stable sort by a key. */
  function StableSort<T>(s: seq<T>, key: T -> real): (r: seq<T>)
    ensures |r| == |s|
  {
    if s == [] then [] else Insert(StableSort(s[..|s| - 1], key), s[|s| - 1], key)
  }

  ghost predicate SortedBy<T>(s: seq<T>, key: T -> real) {
    forall i, j | 0 <= i < j < |s| :: key(s[i]) <= key(s[j])
  }

  /** The elements with a given key, in their order. */
  ghost function WithKey<T>(s: seq<T>, key: T -> real, k: real): seq<T> {
    if s == [] then []
    else WithKey(s[..|s| - 1], key, k) + (if key(s[|s| - 1]) == k then [s[|s| - 1]] else [])
  }

  lemma WithKeyAppend<T>(s: seq<T>, x: T, key: T -> real, k: real)
    ensures WithKey(s + [x], key, k) == WithKey(s, key, k) + (if key(x) == k then [x] else [])
  {
    assert (s + [x])[..|s|] == s;
  }

  lemma {:induction false} InsertElements<T>(sorted: seq<T>, x: T, key: T -> real)
    ensures multiset(Insert(sorted, x, key)) == multiset(sorted) + multiset{x}
  {
    if sorted != [] && key(sorted[|sorted| - 1]) > key(x) {
      var init, last := sorted[..|sorted| - 1], sorted[|sorted| - 1];
      assert sorted == init + [last];
      InsertElements(init, x, key);
    }
  }

  lemma {:induction false} InsertBounded<T>(sorted: seq<T>, x: T, key: T -> real, bound: real)
    requires key(x) <= bound && forall i | 0 <= i < |sorted| :: key(sorted[i]) <= bound
    ensures forall i | 0 <= i < |Insert(sorted, x, key)| :: key(Insert(sorted, x, key)[i]) <= bound
  {
    if sorted != [] && key(sorted[|sorted| - 1]) > key(x) {
      InsertBounded(sorted[..|sorted| - 1], x, key, bound);
    }
  }

  lemma {:induction false} InsertSorts<T>(sorted: seq<T>, x: T, key: T -> real)
    requires SortedBy(sorted, key)
    ensures SortedBy(Insert(sorted, x, key), key)
  {
    if sorted != [] && key(sorted[|sorted| - 1]) > key(x) {
      var init, last := sorted[..|sorted| - 1], sorted[|sorted| - 1];
      InsertSorts(init, x, key);
      InsertBounded(init, x, key, key(last));
    }
  }

  lemma {:induction false} InsertIsStable<T>(sorted: seq<T>, x: T, key: T -> real, k: real)
    requires SortedBy(sorted, key)
    ensures WithKey(Insert(sorted, x, key), key, k) == WithKey(sorted, key, k) + (if key(x) == k then [x] else [])
  {
    if sorted == [] || key(sorted[|sorted| - 1]) <= key(x) {
      WithKeyAppend(sorted, x, key, k);
    } else {
      var init, last := sorted[..|sorted| - 1], sorted[|sorted| - 1];
      assert sorted == init + [last];
      InsertIsStable(init, x, key, k);
      WithKeyAppend(init, last, key, k);
      WithKeyAppend(Insert(init, x, key), last, key, k);
    }
  }

  /** The sort orders by key, keeps every element, and keeps elements of equal key in their order;
      these three determine the result. */
  lemma {:induction false} StableSortIsStable<T>(s: seq<T>, key: T -> real, k: real)
    ensures SortedBy(StableSort(s, key), key)
    ensures multiset(StableSort(s, key)) == multiset(s)
    ensures WithKey(StableSort(s, key), key, k) == WithKey(s, key, k)
  {
    if s != [] {
      var init, last := s[..|s| - 1], s[|s| - 1];
      assert s == init + [last];
      StableSortIsStable(init, key, k);
      InsertElements(StableSort(init, key), last, key);
      InsertSorts(StableSort(init, key), last, key);
      InsertIsStable(StableSort(init, key), last, key, k);
    }
  }

  lemma SortAppend<T>(s: seq<T>, x: T, key: T -> real)
    ensures StableSort(s + [x], key) == Insert(StableSort(s, key), x, key)
  {
    assert (s + [x])[..|s|] == s;
  }

  /** Inserting into a prefix is the prefix of inserting. */
  lemma {:induction false} InsertPrefix<T>(sorted: seq<T>, x: T, key: T -> real, n: nat)
    requires SortedBy(sorted, key) && n <= |sorted|
    ensures Insert(sorted, x, key)[..n] == Insert(sorted[..n], x, key)[..n]
    decreases |sorted|
  {
    if n == |sorted| {
      assert sorted[..n] == sorted;
    } else {
      var init, last := sorted[..|sorted| - 1], sorted[|sorted| - 1];
      if key(last) <= key(x) {
        if n > 0 {
          assert key(sorted[n - 1]) <= key(last);
        }
        assert Insert(sorted[..n], x, key) == sorted[..n] + [x];
      } else {
        InsertPrefix(init, x, key, n);
        assert init[..n] == sorted[..n];
        assert Insert(sorted, x, key)[..n] == Insert(init, x, key)[..n];
      }
    }
  }

  lemma {:induction false} SortOfSorted<T>(s: seq<T>, key: T -> real)
    requires SortedBy(s, key)
    ensures StableSort(s, key) == s
  {
    if s != [] {
      SortOfSorted(s[..|s| - 1], key);
      assert s == s[..|s| - 1] + [s[|s| - 1]];
    }
  }

  lemma SortedAt<T>(s: seq<T>, key: T -> real, i: nat, j: nat)
    requires SortedBy(s, key) && i <= j < |s|
    ensures key(s[i]) <= key(s[j])
  {
  }

  ghost predicate StrictlySortedBy<T>(s: seq<T>, key: T -> real) {
    forall i, j | 0 <= i < j < |s| :: key(s[i]) < key(s[j])
  }

  lemma PrefixSorted<T>(s: seq<T>, key: T -> real, n: nat)
    requires n <= |s|
    ensures SortedBy(s, key) ==> SortedBy(s[..n], key)
    ensures StrictlySortedBy(s, key) ==> StrictlySortedBy(s[..n], key)
  {
  }

  lemma WithoutLast<T>(s: seq<T>)
    requires s != []
    ensures s == s[..|s| - 1] + [s[|s| - 1]]
    ensures multiset(s[..|s| - 1]) == multiset(s) - multiset{s[|s| - 1]}
  {
    assert s == s[..|s| - 1] + [s[|s| - 1]];
  }

  lemma SameLength<T>(a: seq<T>, b: seq<T>)
    requires multiset(a) == multiset(b)
    ensures |a| == |b|
  {
    assert |a| == |multiset(a)| == |multiset(b)|;
  }

  lemma SameLast<T>(a: seq<T>, b: seq<T>, key: T -> real)
    requires SortedBy(a, key) && multiset(a) == multiset(b) && |a| == |b| > 0
    requires StrictlySortedBy(b, key)
    ensures a[|a| - 1] == b[|b| - 1]
  {
    var x, y := a[|a| - 1], b[|b| - 1];
    assert x in multiset(b) && y in multiset(a);
    var i :| 0 <= i < |b| && b[i] == x;
    var j :| 0 <= j < |a| && a[j] == y;
    SortedAt(a, key, j, |a| - 1);
  }

  /** A rearrangement that is strictly ordered by key is what sorting yields. */
  lemma {:induction false} StrictlySortedIsUnique<T>(a: seq<T>, b: seq<T>, key: T -> real)
    requires SortedBy(a, key) && multiset(a) == multiset(b)
    requires StrictlySortedBy(b, key)
    ensures a == b
    decreases |a|
  {
    SameLength(a, b);
    if a != [] {
      var n := |a| - 1;
      SameLast(a, b, key);
      WithoutLast(a);
      WithoutLast(b);
      PrefixSorted(a, key, n);
      PrefixSorted(b, key, n);
      StrictlySortedIsUnique(a[..n], b[..n], key);
    }
  }
}
