/** The stable sort behind `sorted`, `list.sort` and `ORDER BY`: ascending by a
    numeric key, equal keys in their original order.  A descending sort
    (`reverse=True`, which Python also keeps stable) sorts by the negated key. */
module StableSort {
  import opened Prelude

  function Insert<T>(x: T, s: seq<T>, key: T -> real): seq<T> {
    if s == [] then [x]
    else if key(x) <= key(s[0]) then [x] + s
    else [s[0]] + Insert(x, s[1..], key)
  }

  function SortBy<T>(s: seq<T>, key: T -> real): seq<T> {
    if s == [] then [] else Insert(s[0], SortBy(s[1..], key), key)
  }

  ghost predicate Ascending<T>(s: seq<T>, key: T -> real) {
    forall i, j :: 0 <= i < j < |s| ==> key(s[i]) <= key(s[j])
  }

  /** The elements whose key is k, in order. */
  function WithKey<T>(s: seq<T>, key: T -> real, k: real): seq<T> {
    if s == [] then []
    else (if key(s[0]) == k then [s[0]] else []) + WithKey(s[1..], key, k)
  }

  /** r is the stable sort of s: the same elements, ascending, ties in order. */
  ghost predicate IsStableSort<T>(r: seq<T>, s: seq<T>, key: T -> real) {
    && Ascending(r, key)
    && multiset(r) == multiset(s)
    && forall k :: WithKey(r, key, k) == WithKey(s, key, k)
  }

  lemma {:induction false} InsertMembers<T>(x: T, s: seq<T>, key: T -> real)
    ensures multiset(Insert(x, s, key)) == multiset{x} + multiset(s)
  {
    if s != [] && key(x) > key(s[0]) {
      InsertMembers(x, s[1..], key);
      assert s == [s[0]] + s[1..];
    }
  }

  lemma {:induction false} InsertAscending<T>(x: T, s: seq<T>, key: T -> real)
    requires Ascending(s, key)
    ensures Ascending(Insert(x, s, key), key)
  {
    if s != [] && key(x) > key(s[0]) {
      InsertAscending(x, s[1..], key);
      var rest := Insert(x, s[1..], key);
      InsertMembers(x, s[1..], key);
      forall i | 0 <= i < |rest| ensures key(s[0]) <= key(rest[i]) {
        assert rest[i] in multiset(rest);
        assert rest[i] == x || rest[i] in s[1..];
      }
    }
  }

  lemma {:induction false} InsertWithKey<T>(x: T, s: seq<T>, key: T -> real, k: real)
    ensures WithKey(Insert(x, s, key), key, k) == WithKey([x], key, k) + WithKey(s, key, k)
  {
    if s != [] && key(x) > key(s[0]) {
      InsertWithKey(x, s[1..], key, k);
      assert ([s[0]] + Insert(x, s[1..], key))[1..] == Insert(x, s[1..], key);
    } else {
      assert ([x] + s)[1..] == s;
    }
  }

  lemma {:induction false} SortByWithKey<T>(s: seq<T>, key: T -> real, k: real)
    ensures WithKey(SortBy(s, key), key, k) == WithKey(s, key, k)
  {
    if s != [] {
      SortByWithKey(s[1..], key, k);
      InsertWithKey(s[0], SortBy(s[1..], key), key, k);
    }
  }

  lemma {:induction false} SortByMembers<T>(s: seq<T>, key: T -> real)
    ensures multiset(SortBy(s, key)) == multiset(s)
    ensures Ascending(SortBy(s, key), key)
  {
    if s != [] {
      SortByMembers(s[1..], key);
      InsertMembers(s[0], SortBy(s[1..], key), key);
      InsertAscending(s[0], SortBy(s[1..], key), key);
      assert s == [s[0]] + s[1..];
    }
  }

  lemma {:induction false} SameMembers<T>(a: seq<T>, b: seq<T>)
    requires multiset(a) == multiset(b)
    ensures |a| == |b|
    ensures forall i :: 0 <= i < |a| ==> a[i] in b
  {
    assert |multiset(a)| == |multiset(b)|;
    forall i | 0 <= i < |a| ensures a[i] in b {
      assert a[i] in multiset(a);
    }
  }

  lemma {:induction false} SortByCorrect<T>(s: seq<T>, key: T -> real)
    ensures IsStableSort(SortBy(s, key), s, key)
    ensures |SortBy(s, key)| == |s|
    ensures forall i :: 0 <= i < |s| ==> SortBy(s, key)[i] in s
    ensures forall i :: 0 <= i < |s| ==> s[i] in SortBy(s, key)
  {
    SortByMembers(s, key);
    SameMembers(s, SortBy(s, key));
    SameMembers(SortBy(s, key), s);
    forall k ensures WithKey(SortBy(s, key), key, k) == WithKey(s, key, k) {
      SortByWithKey(s, key, k);
    }
  }

  lemma {:induction false} SmallestFirst<T>(a: seq<T>, key: T -> real, k: real)
    requires Ascending(a, key) && a != [] && WithKey(a, key, k) != []
    ensures key(a[0]) <= k
    ensures key(a[0]) == k ==> WithKey(a, key, k)[0] == a[0]
  {
    if key(a[0]) != k {
      SmallestFirst(a[1..], key, k);
    }
  }

  lemma {:induction false} TailWithKey<T>(a: seq<T>, b: seq<T>, key: T -> real, k: real)
    requires a != [] && b != [] && a[0] == b[0]
    requires WithKey(a, key, k) == WithKey(b, key, k)
    ensures WithKey(a[1..], key, k) == WithKey(b[1..], key, k)
  {
    var first := if key(a[0]) == k then [a[0]] else [];
    assert WithKey(a, key, k) == first + WithKey(a[1..], key, k);
    assert WithKey(b, key, k) == first + WithKey(b[1..], key, k);
    assert WithKey(a[1..], key, k) == WithKey(a, key, k)[|first|..];
  }

  lemma {:induction false} SameFirst<T>(a: seq<T>, b: seq<T>, key: T -> real)
    requires a != [] && b != [] && Ascending(a, key) && Ascending(b, key)
    requires WithKey(a, key, key(a[0])) == WithKey(b, key, key(a[0]))
    requires WithKey(a, key, key(b[0])) == WithKey(b, key, key(b[0]))
    ensures a[0] == b[0]
  {
    SmallestFirst(b, key, key(a[0]));
    SmallestFirst(a, key, key(b[0]));
  }

  /** There is only one stable sort of a sequence. */
  lemma {:induction false} StableSortUnique<T>(a: seq<T>, b: seq<T>, key: T -> real)
    requires |a| == |b| && Ascending(a, key) && Ascending(b, key)
    requires forall k :: WithKey(a, key, k) == WithKey(b, key, k)
    ensures a == b
  {
    if a != [] {
      assert WithKey(b, key, key(a[0])) == WithKey(a, key, key(a[0])) != [];
      SameFirst(a, b, key);
      forall k ensures WithKey(a[1..], key, k) == WithKey(b[1..], key, k) {
        TailWithKey(a, b, key, k);
      }
      StableSortUnique(a[1..], b[1..], key);
    }
  }

  /** Sorting leaves a sequence that is already in order alone. */
  lemma {:induction false} SortByFixed<T>(s: seq<T>, key: T -> real)
    requires Ascending(s, key)
    ensures SortBy(s, key) == s
  {
    SortByCorrect(s, key);
    StableSortUnique(SortBy(s, key), s, key);
  }

  lemma {:induction false} InsertDistinct<T>(x: T, s: seq<T>, key: T -> real)
    requires Distinct(s) && x !in s
    ensures Distinct(Insert(x, s, key))
  {
    if s != [] && key(x) > key(s[0]) {
      var rest := Insert(x, s[1..], key);
      InsertDistinct(x, s[1..], key);
      InsertMembers(x, s[1..], key);
      forall i | 0 <= i < |rest| ensures rest[i] != s[0] {
        assert rest[i] in multiset(rest);
        assert rest[i] == x || rest[i] in s[1..];
      }
    }
  }

  /** Sorting repeats nothing. */
  lemma {:induction false} SortByDistinct<T>(s: seq<T>, key: T -> real)
    requires Distinct(s)
    ensures Distinct(SortBy(s, key))
  {
    if s != [] {
      SortByDistinct(s[1..], key);
      SortByMembers(s[1..], key);
      SameMembers(SortBy(s[1..], key), s[1..]);
      InsertDistinct(s[0], SortBy(s[1..], key), key);
    }
  }
}
