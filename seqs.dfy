/** The array operations the pages build their views from: `filter`, `find`,
    `some` and the stable `sort` of ECMAScript 2019 with a numeric key. */
module Seqs {
  import opened Types

  /** `s.filter(p)` */
  function Filter<T>(s: seq<T>, p: T -> bool): (r: seq<T>)
    ensures |r| <= |s|
    ensures forall i :: 0 <= i < |r| ==> r[i] in s && p(r[i])
    ensures forall i :: 0 <= i < |s| && p(s[i]) ==> s[i] in r
  {
    if |s| == 0 then [] else (if p(s[0]) then [s[0]] else []) + Filter(s[1..], p)
  }

  /** Filtering a concatenation filters each part, keeping their order. */
  lemma {:induction false} FilterConcat<T>(a: seq<T>, b: seq<T>, p: T -> bool)
    ensures Filter(a + b, p) == Filter(a, p) + Filter(b, p)
  {
    if |a| == 0 {
      assert a + b == b;
    } else {
      assert (a + b)[1..] == a[1..] + b;
      FilterConcat(a[1..], b, p);
    }
  }

  lemma FilterSingleton<T>(x: T, p: T -> bool)
    ensures Filter([x], p) == if p(x) then [x] else []
  {
    assert [x][1..] == [];
  }

  /** Appending one element appends it to the filtered view exactly when it
      passes the test. */
  lemma FilterAppend<T>(s: seq<T>, x: T, p: T -> bool)
    ensures Filter(s + [x], p) == Filter(s, p) + (if p(x) then [x] else [])
  {
    FilterConcat(s, [x], p);
    FilterSingleton(x, p);
  }

  /** Prepending one element prepends it to the filtered view exactly when it
      passes the test. */
  lemma FilterPrepend<T>(x: T, s: seq<T>, p: T -> bool)
    ensures Filter([x] + s, p) == (if p(x) then [x] else []) + Filter(s, p)
  {
    assert ([x] + s)[1..] == s;
  }

  /** Filtering with a test every element passes changes nothing. */
  lemma {:induction false} FilterKeepsAll<T>(s: seq<T>, p: T -> bool)
    requires forall i :: 0 <= i < |s| ==> p(s[i])
    ensures Filter(s, p) == s
  {
    if |s| > 0 {
      FilterKeepsAll(s[1..], p);
      assert s == [s[0]] + s[1..];
    }
  }

  /** Filtering with a test no element passes leaves nothing. */
  lemma {:induction false} FilterKeepsNone<T>(s: seq<T>, p: T -> bool)
    requires forall i :: 0 <= i < |s| ==> !p(s[i])
    ensures Filter(s, p) == []
  {
    if |s| > 0 {
      FilterKeepsNone(s[1..], p);
    }
  }

  /** Filtering twice is filtering once with the second test when every
      element that passes the second test passes the first. */
  lemma {:induction false} FilterImplied<T>(s: seq<T>, p: T -> bool, q: T -> bool)
    requires forall i :: 0 <= i < |s| && q(s[i]) ==> p(s[i])
    ensures Filter(Filter(s, p), q) == Filter(s, q)
  {
    if |s| > 0 {
      var head := if p(s[0]) then [s[0]] else [];
      FilterConcat(head, Filter(s[1..], p), q);
      FilterImplied(s[1..], p, q);
      if p(s[0]) {
        FilterSingleton(s[0], q);
      }
    }
  }

  /** Two tests that agree on every element filter alike. */
  lemma {:induction false} FilterCongruent<T>(s: seq<T>, p: T -> bool, q: T -> bool)
    requires forall i :: 0 <= i < |s| ==> p(s[i]) == q(s[i])
    ensures Filter(s, p) == Filter(s, q)
  {
    if |s| > 0 {
      FilterCongruent(s[1..], p, q);
    }
  }

  /** The first element of a filtered view is the first element that passes. */
  lemma FilterHead<T>(s: seq<T>, p: T -> bool)
    requires |s| > 0 && p(s[0])
    ensures Filter(s, p)[0] == s[0]
  {
  }

  /** `s.map(f).filter(x => x !== undefined)`: the defined results of `f`,
      in order. */
  function FilterMap<A, B>(s: seq<A>, f: A -> Option<B>): (r: seq<B>)
    ensures |r| <= |s|
    ensures forall j :: 0 <= j < |r| ==> exists i | 0 <= i < |s| :: f(s[i]) == Some(r[j])
    ensures forall i :: 0 <= i < |s| && f(s[i]).Some? ==> f(s[i]).value in r
  {
    if |s| == 0 then []
    else
      var rest := FilterMap(s[1..], f);
      assert forall i :: 0 <= i < |s| - 1 ==> s[1..][i] == s[i + 1];
      (if f(s[0]).Some? then [f(s[0]).value] else []) + rest
  }

  lemma FilterMapMember<A, B>(s: seq<A>, f: A -> Option<B>, x: A)
    requires x in s && f(x).Some?
    ensures f(x).value in FilterMap(s, f)
  {
    var i :| 0 <= i < |s| && s[i] == x;
  }

  /** No element occurs twice. */
  predicate NoDuplicates<T(==)>(s: seq<T>) {
    forall i, j :: 0 <= i < j < |s| ==> s[i] != s[j]
  }

  /** Filtering keeps a sequence free of duplicates. */
  lemma {:induction false} FilterNoDuplicates<T>(s: seq<T>, p: T -> bool)
    requires NoDuplicates(s)
    ensures NoDuplicates(Filter(s, p))
    decreases |s|
  {
    if |s| > 0 {
      assert forall i :: 0 <= i < |s| - 1 ==> s[1..][i] == s[i + 1];
      FilterNoDuplicates(s[1..], p);
      assert s[0] !in s[1..];
    }
  }

  /** The defined results of `f` are free of duplicates when no two inputs
      have the same defined result. */
  lemma {:induction false} FilterMapNoDuplicates<A, B>(s: seq<A>, f: A -> Option<B>)
    requires forall i, j :: 0 <= i < j < |s| && f(s[i]).Some? ==> f(s[i]) != f(s[j])
    ensures NoDuplicates(FilterMap(s, f))
    decreases |s|
  {
    if |s| > 0 {
      assert forall i :: 0 <= i < |s| - 1 ==> s[1..][i] == s[i + 1];
      FilterMapNoDuplicates(s[1..], f);
      var rest := FilterMap(s[1..], f);
      if f(s[0]).Some? {
        forall j | 0 <= j < |rest| ensures rest[j] != f(s[0]).value {
          var i :| 0 <= i < |s[1..]| && f(s[1..][i]) == Some(rest[j]);
          assert f(s[i + 1]) == Some(rest[j]);
        }
      }
    }
  }

  /** A value occurs at most once in a sequence free of duplicates. */
  lemma {:induction false} NoDuplicatesMultiplicity<T>(s: seq<T>, x: T)
    requires NoDuplicates(s)
    ensures multiset(s)[x] <= 1
    decreases |s|
  {
    if |s| > 0 {
      var init := s[..|s| - 1];
      assert s == init + [s[|s| - 1]];
      NoDuplicatesMultiplicity(init, x);
      if x == s[|s| - 1] {
        assert x !in init;
      }
    }
  }

  /** A reordering of a sequence free of duplicates is free of them too. */
  lemma PermutationNoDuplicates<T>(a: seq<T>, b: seq<T>)
    requires multiset(a) == multiset(b) && NoDuplicates(b)
    ensures NoDuplicates(a)
  {
    forall i, j | 0 <= i < j < |a| ensures a[i] != a[j] {
      if a[i] == a[j] {
        assert a == a[..j] + a[j..];
        assert a[i] in a[..j] && a[j] in a[j..];
        assert multiset(a)[a[i]] == multiset(a[..j])[a[i]] + multiset(a[j..])[a[i]];
        NoDuplicatesMultiplicity(b, a[i]);
      }
    }
  }

  /** Two appends in a row append the pair. */
  lemma AppendTwice<T>(s: seq<T>, a: T, b: T)
    ensures s + [a] + [b] == s + [a, b]
  {
    assert (s + [a] + [b])[|s|..] == [a, b];
  }

  /** `s.some(p)` */
  predicate Any<T>(s: seq<T>, p: T -> bool) {
    exists i | 0 <= i < |s| :: p(s[i])
  }

  /** `s.find(p)`: the first element that passes the test, if any. */
  function Find<T>(s: seq<T>, p: T -> bool): (r: Option<T>)
    ensures r.None? <==> !Any(s, p)
    ensures r.Some? ==> exists i | 0 <= i < |s| :: s[i] == r.value && p(r.value)
                          && forall j :: 0 <= j < i ==> !p(s[j])
  {
    if |s| == 0 then None
    else if p(s[0]) then Some(s[0])
    else
      var r := Find(s[1..], p);
      assert r.Some? ==> exists i | 0 <= i < |s| - 1 :: s[1..][i] == r.value && p(r.value)
                            && forall j :: 0 <= j < i ==> !p(s[1..][j]);
      r
  }

  /** `s` is in ascending order of `key`. */
  ghost predicate SortedBy<T>(s: seq<T>, key: T -> int) {
    forall i, j :: 0 <= i < j < |s| ==> key(s[i]) <= key(s[j])
  }

  /** Places `x` before the first element whose key is not smaller, which is
      what keeps the sort stable. */
  function Insert<T>(x: T, t: seq<T>, key: T -> int): (r: seq<T>)
    ensures |r| == |t| + 1
    ensures multiset(r) == multiset(t) + multiset{x}
  {
    if |t| == 0 then [x]
    else if key(x) <= key(t[0]) then
      assert t == [t[0]] + t[1..];
      [x] + t
    else
      assert t == [t[0]] + t[1..];
      [t[0]] + Insert(x, t[1..], key)
  }

  /** Inserting into a sorted sequence keeps it sorted. */
  lemma {:induction false} InsertSorted<T>(x: T, t: seq<T>, key: T -> int)
    requires SortedBy(t, key)
    ensures SortedBy(Insert(x, t, key), key)
  {
    if |t| > 0 && key(x) > key(t[0]) {
      var rest := Insert(x, t[1..], key);
      InsertSorted(x, t[1..], key);
      forall i | 0 <= i < |rest| ensures key(t[0]) <= key(rest[i]) {
        assert rest[i] in multiset(rest);
        if rest[i] != x {
          assert rest[i] in multiset(t[1..]);
          assert rest[i] in t[1..];
        }
      }
    }
  }

  /** `s.slice().sort((a, b) => key(a) - key(b))`: a stable sort, ascending
      by `key`. */
  function SortByKey<T>(s: seq<T>, key: T -> int): (r: seq<T>)
    ensures |r| == |s|
    ensures multiset(r) == multiset(s)
    ensures SortedBy(r, key)
  {
    if |s| == 0 then []
    else
      assert s == [s[0]] + s[1..];
      InsertSorted(s[0], SortByKey(s[1..], key), key);
      Insert(s[0], SortByKey(s[1..], key), key)
  }

  function KeyIs<T>(key: T -> int, k: int): T -> bool {
    x => key(x) == k
  }

  lemma {:induction false} InsertKeepsTies<T>(x: T, t: seq<T>, key: T -> int, k: int)
    ensures Filter(Insert(x, t, key), KeyIs(key, k))
         == (if key(x) == k then [x] else []) + Filter(t, KeyIs(key, k))
  {
    var p := KeyIs(key, k);
    if |t| == 0 {
      FilterSingleton(x, p);
    } else if key(x) <= key(t[0]) {
      FilterPrepend(x, t, p);
    } else {
      var rest := Insert(x, t[1..], key);
      assert Insert(x, t, key) == [t[0]] + rest;
      assert t == [t[0]] + t[1..];
      InsertKeepsTies(x, t[1..], key, k);
      FilterPrepend(t[0], rest, p);
      FilterPrepend(t[0], t[1..], p);
      var f1 := Filter(t[1..], p);
      if p(x) {
        assert !p(t[0]);
        assert Filter(t, p) == f1;
        assert Filter(Insert(x, t, key), p) == Filter(rest, p) == [x] + f1;
      } else {
        assert Filter(rest, p) == f1;
      }
    }
  }

  /** The sort is stable: the elements sharing any one key come out in the
      order they went in. */
  lemma {:induction false} SortByKeyStable<T>(s: seq<T>, key: T -> int, k: int)
    ensures Filter(SortByKey(s, key), KeyIs(key, k)) == Filter(s, KeyIs(key, k))
  {
    if |s| > 0 {
      SortByKeyStable(s[1..], key, k);
      InsertKeepsTies(s[0], SortByKey(s[1..], key), key, k);
    }
  }
}
