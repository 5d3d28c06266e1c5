/**
 * The array operations the components use: `filter`, `findIndex`/`find`, and the stable
 * `sort` with a comparator on one string key (ascending or descending).
 */
module Lists {
  import opened Base
  import opened Strings

  // ---------------------------------------------------------------------------
  // filter
  // ---------------------------------------------------------------------------

  /** `s.filter(p)`. */
  function Filter<T>(s: seq<T>, p: T -> bool): (r: seq<T>)
    ensures |r| <= |s|
  {
    if s == [] then [] else (if p(s[0]) then [s[0]] else []) + Filter(s[1..], p)
  }

  /** The filter keeps exactly the elements that pass the test. */
  lemma {:induction false} FilterMembers<T(!new)>(s: seq<T>, p: T -> bool)
    ensures forall x :: x in Filter(s, p) <==> x in s && p(x)
    decreases |s|
  {
    if s != [] {
      FilterMembers(s[1..], p);
      assert s == [s[0]] + s[1..];
    }
  }

  /** Filtering distributes over concatenation, so it keeps the input order. */
  lemma {:induction false} FilterAppend<T>(a: seq<T>, b: seq<T>, p: T -> bool)
    ensures Filter(a + b, p) == Filter(a, p) + Filter(b, p)
    decreases |a|
  {
    if a == [] {
      assert a + b == b;
    } else {
      var head := if p(a[0]) then [a[0]] else [];
      assert (a + b)[0] == a[0] && (a + b)[1..] == a[1..] + b;
      assert Filter(a + b, p) == head + Filter(a[1..] + b, p);
      assert Filter(a, p) == head + Filter(a[1..], p);
      FilterAppend(a[1..], b, p);
    }
  }

  lemma {:induction false} FilterAll<T>(s: seq<T>, p: T -> bool)
    requires forall i :: 0 <= i < |s| ==> p(s[i])
    ensures Filter(s, p) == s
    decreases |s|
  {
    if s != [] {
      FilterAll(s[1..], p);
      assert s == [s[0]] + s[1..];
    }
  }

  lemma {:induction false} FilterNone<T>(s: seq<T>, p: T -> bool)
    requires forall i :: 0 <= i < |s| ==> !p(s[i])
    ensures Filter(s, p) == []
    decreases |s|
  {
    if s != [] {
      FilterNone(s[1..], p);
    }
  }

  /** Filtering twice is filtering once by the conjunction. */
  lemma {:induction false} FilterFilter<T>(s: seq<T>, p: T -> bool, q: T -> bool, pq: T -> bool)
    requires forall x :: pq(x) == (p(x) && q(x))
    ensures Filter(Filter(s, p), q) == Filter(s, pq)
    decreases |s|
  {
    if s != [] {
      FilterFilter(s[1..], p, q, pq);
      var head := if p(s[0]) then [s[0]] else [];
      FilterAppend(head, Filter(s[1..], p), q);
    }
  }

  /** How many times each value survives the filter. */
  lemma {:induction false} FilterMultiset<T>(s: seq<T>, p: T -> bool, x: T)
    ensures multiset(Filter(s, p))[x] == if p(x) then multiset(s)[x] else 0
    decreases |s|
  {
    if s != [] {
      FilterMultiset(s[1..], p, x);
      assert s == [s[0]] + s[1..];
    }
  }

  /** The number of elements of `s` that satisfy `p`. */
  function Count<T>(s: seq<T>, p: T -> bool): nat
  {
    |Filter(s, p)|
  }

  /** Counting does not depend on the order of the elements. */
  lemma CountPermutation<T(!new)>(a: seq<T>, b: seq<T>, p: T -> bool)
    requires multiset(a) == multiset(b)
    ensures Count(a, p) == Count(b, p)
  {
    forall x
      ensures multiset(Filter(a, p))[x] == multiset(Filter(b, p))[x]
    {
      FilterMultiset(a, p, x);
      FilterMultiset(b, p, x);
      assert multiset(a)[x] == multiset(b)[x];
    }
    assert multiset(Filter(a, p)) == multiset(Filter(b, p));
    assert |multiset(Filter(a, p))| == |Filter(a, p)|;
    assert |multiset(Filter(b, p))| == |Filter(b, p)|;
  }

  /** A filter can only lower a count. */
  lemma CountFilter<T>(s: seq<T>, q: T -> bool, p: T -> bool)
    ensures Count(Filter(s, q), p) <= Count(s, p)
  {
    var qp := (x: T) => q(x) && p(x);
    var pq := (x: T) => p(x) && q(x);
    FilterFilter(s, q, p, qp);
    FilterFilter(s, p, q, pq);
    assert Filter(s, qp) == Filter(s, pq) by {
      FilterSameTest(s, qp, pq);
    }
  }

  lemma {:induction false} FilterSameTest<T>(s: seq<T>, p: T -> bool, q: T -> bool)
    requires forall x :: p(x) == q(x)
    ensures Filter(s, p) == Filter(s, q)
    decreases |s|
  {
    if s != [] {
      FilterSameTest(s[1..], p, q);
    }
  }

  lemma CountAppend<T>(a: seq<T>, b: seq<T>, p: T -> bool)
    ensures Count(a + b, p) == Count(a, p) + Count(b, p)
  {
    FilterAppend(a, b, p);
  }

  // ---------------------------------------------------------------------------
  // findIndex / find
  // ---------------------------------------------------------------------------

  /** `s.findIndex(p)`: the first index whose element satisfies `p`, or -1. */
  function FindIndex<T>(s: seq<T>, p: T -> bool): (r: int)
    ensures -1 <= r < |s|
    ensures 0 <= r ==> p(s[r]) && forall j :: 0 <= j < r ==> !p(s[j])
    ensures r == -1 ==> forall j :: 0 <= j < |s| ==> !p(s[j])
  {
    if s == [] then -1
    else if p(s[0]) then 0
    else
      var k := FindIndex(s[1..], p);
      if k == -1 then -1 else k + 1
  }

  /** `s.find(p)`: the first element that satisfies `p`, if any. */
  function Find<T>(s: seq<T>, p: T -> bool): (r: Option<T>)
    ensures r.Some? <==> exists i :: 0 <= i < |s| && p(s[i])
    ensures r.Some? ==> r.value in s && p(r.value)
    ensures r.Some? ==> exists i :: 0 <= i < |s| && s[i] == r.value && forall j :: 0 <= j < i ==> !p(s[j])
  {
    var i := FindIndex(s, p);
    if i < 0 then None else Some(s[i])
  }

  /** Appending elements never changes a search that already succeeds. */
  lemma FindAppendFound<T>(s: seq<T>, t: seq<T>, p: T -> bool)
    requires Find(s, p).Some?
    ensures Find(s + t, p) == Find(s, p)
    ensures FindIndex(s + t, p) == FindIndex(s, p)
  {
    var i := FindIndex(s, p);
    assert (s + t)[i] == s[i];
    assert forall j :: 0 <= j < i ==> (s + t)[j] == s[j];
  }

  /** When nothing in `s` matches, a search of `s + t` is a search of `t`. */
  lemma FindAppendMissing<T>(s: seq<T>, t: seq<T>, p: T -> bool)
    requires Find(s, p).None?
    ensures Find(s + t, p) == Find(t, p)
  {
    var k := FindIndex(s + t, p);
    var j := FindIndex(t, p);
    if k >= 0 {
      assert (s + t)[k] == t[k - |s|];
    }
    if j >= 0 {
      assert (s + t)[|s| + j] == t[j];
    }
  }

  /** Two tests that agree everywhere find the same element. */
  lemma {:induction false} FindSameTest<T>(s: seq<T>, p: T -> bool, q: T -> bool)
    requires forall x :: p(x) == q(x)
    ensures FindIndex(s, p) == FindIndex(s, q)
    ensures Find(s, p) == Find(s, q)
    decreases |s|
  {
    if s != [] {
      FindSameTest(s[1..], p, q);
    }
  }

  /** `find` on the result of replacing one element. */
  lemma FindIndexUpdate<T>(s: seq<T>, i: nat, v: T, p: T -> bool)
    requires i < |s| && FindIndex(s, p) == i && p(v)
    ensures FindIndex(s[i := v], p) == i
  {
    assert s[i := v][i] == v;
    assert forall j :: 0 <= j < i ==> s[i := v][j] == s[j];
  }

  // ---------------------------------------------------------------------------
  // sort
  // ---------------------------------------------------------------------------

  /** Two keys in the order a comparator on that key puts them. */
  predicate InOrder(x: string, y: string, desc: bool)
  {
    if desc then LexLe(y, x) else LexLe(x, y)
  }

  predicate SortedBy<T>(s: seq<T>, key: T -> string, desc: bool)
  {
    forall i, j :: 0 <= i < j < |s| ==> InOrder(key(s[i]), key(s[j]), desc)
  }

  lemma InOrderTotal(x: string, y: string, desc: bool)
    ensures InOrder(x, y, desc) || InOrder(y, x, desc)
  {
    LexTotal(x, y);
  }

  lemma InOrderTransitive(x: string, y: string, z: string, desc: bool)
    requires InOrder(x, y, desc) && InOrder(y, z, desc)
    ensures InOrder(x, z, desc)
  {
    if x != y && y != z {
      if desc {
        LexLessTransitive(z, y, x);
      } else {
        LexLessTransitive(x, y, z);
      }
    }
  }

  /** Inserts `x` before the first element it may precede. */
  function Insert<T>(x: T, s: seq<T>, key: T -> string, desc: bool): seq<T>
  {
    if s == [] then [x]
    else if InOrder(key(x), key(s[0]), desc) then [x] + s
    else [s[0]] + Insert(x, s[1..], key, desc)
  }

  /** A head that may precede every element of a sorted tail gives a sorted sequence. */
  lemma SortedCons<T>(h: T, t: seq<T>, key: T -> string, desc: bool)
    requires SortedBy(t, key, desc)
    requires forall i :: 0 <= i < |t| ==> InOrder(key(h), key(t[i]), desc)
    ensures SortedBy([h] + t, key, desc)
  {
    var r := [h] + t;
    forall i, j | 0 <= i < j < |r|
      ensures InOrder(key(r[i]), key(r[j]), desc)
    {
      assert r[j] == t[j - 1];
      if i > 0 {
        assert r[i] == t[i - 1];
      }
    }
  }

  lemma {:induction false} InsertCorrect<T>(x: T, s: seq<T>, key: T -> string, desc: bool)
    requires SortedBy(s, key, desc)
    ensures multiset(Insert(x, s, key, desc)) == multiset(s) + multiset{x}
    ensures SortedBy(Insert(x, s, key, desc), key, desc)
    decreases |s|
  {
    if s == [] {
    } else if InOrder(key(x), key(s[0]), desc) {
      forall j | 0 <= j < |s|
        ensures InOrder(key(x), key(s[j]), desc)
      {
        if j > 0 {
          InOrderTransitive(key(x), key(s[0]), key(s[j]), desc);
        }
      }
      SortedCons(x, s, key, desc);
    } else {
      InOrderTotal(key(x), key(s[0]), desc);
      var tail := Insert(x, s[1..], key, desc);
      InsertCorrect(x, s[1..], key, desc);
      forall i | 0 <= i < |tail|
        ensures InOrder(key(s[0]), key(tail[i]), desc)
      {
        InsertedFrom(x, s[1..], tail, tail[i]);
      }
      SortedCons(s[0], tail, key, desc);
      assert s == [s[0]] + s[1..];
    }
  }

  /** An element of a sequence holding the elements of `s` and `x` is `x` or an element of `s`. */
  lemma InsertedFrom<T>(x: T, s: seq<T>, r: seq<T>, e: T)
    requires multiset(r) == multiset(s) + multiset{x} && e in r
    ensures e == x || exists k :: 0 <= k < |s| && s[k] == e
  {
    assert e in multiset(r);
    if e != x {
      assert e in multiset(s);
      assert e in s;
    }
  }

  /**
   * `s.sort((a, b) => comparator)` on one string key; `desc` compares `b` before `a`.
   * Insertion of each element before the later elements of equal key keeps the sort stable.
   */
  function SortBy<T>(s: seq<T>, key: T -> string, desc: bool): (r: seq<T>)
    ensures multiset(r) == multiset(s)
    ensures SortedBy(r, key, desc)
  {
    if s == [] then []
    else
      var rest := SortBy(s[1..], key, desc);
      InsertCorrect(s[0], rest, key, desc);
      HeadTailMultiset(s);
      Insert(s[0], rest, key, desc)
  }

  lemma HeadTailMultiset<T>(s: seq<T>)
    requires s != []
    ensures multiset(s) == multiset(s[1..]) + multiset{s[0]}
  {
    assert s == [s[0]] + s[1..];
  }

  /** Permutations have the same members. */
  lemma SameMembers<T(!new)>(a: seq<T>, b: seq<T>)
    requires multiset(a) == multiset(b)
    ensures forall x :: x in a <==> x in b
  {
    forall x
      ensures x in a <==> x in b
    {
      assert x in a <==> x in multiset(a);
      assert x in b <==> x in multiset(b);
    }
  }

  /** A sorted sequence stays sorted under any filter. */
  lemma {:induction false} FilterSorted<T(!new)>(s: seq<T>, p: T -> bool, key: T -> string, desc: bool)
    requires SortedBy(s, key, desc)
    ensures SortedBy(Filter(s, p), key, desc)
    decreases |s|
  {
    if s != [] {
      FilterSorted(s[1..], p, key, desc);
      var tail := Filter(s[1..], p);
      FilterMembers(s[1..], p);
      if p(s[0]) {
        var r := [s[0]] + tail;
        forall i, j | 0 <= i < j < |r|
          ensures InOrder(key(r[i]), key(r[j]), desc)
        {
          if i == 0 {
            assert r[j] == tail[j - 1] && tail[j - 1] in tail;
            assert r[j] in s[1..];
            var k :| 0 <= k < |s[1..]| && s[1..][k] == r[j];
            assert s[k + 1] == r[j];
          } else {
            assert r[i] == tail[i - 1] && r[j] == tail[j - 1];
          }
        }
      }
    }
  }

  /** The identity key, for sorting strings themselves. */
  function Self(s: string): string
  {
    s
  }

  /** Two ascending lists of the same strings are the same list. */
  lemma {:induction false} SortedUnique(a: seq<string>, b: seq<string>)
    requires SortedBy(a, Self, false) && SortedBy(b, Self, false) && multiset(a) == multiset(b)
    ensures a == b
    decreases |a|
  {
    assert |a| == |multiset(a)| && |b| == |multiset(b)|;
    if a != [] {
      assert a[0] in multiset(b) && b[0] in multiset(a);
      var j :| 0 <= j < |b| && b[j] == a[0];
      var k :| 0 <= k < |a| && a[k] == b[0];
      assert LexLe(b[0], a[0]) by {
        if 0 < j {
          assert InOrder(Self(b[0]), Self(b[j]), false);
        }
      }
      assert LexLe(a[0], b[0]) by {
        if 0 < k {
          assert InOrder(Self(a[0]), Self(a[k]), false);
        }
      }
      if a[0] != b[0] {
        LexLessAsymmetric(a[0], b[0]);
      }
      HeadTailMultiset(a);
      HeadTailMultiset(b);
      assert a[0] == b[0];
      assert multiset(a[1..]) == multiset(a) - multiset{a[0]};
      assert multiset(b[1..]) == multiset(b) - multiset{a[0]};
      SortedTail(a, Self, false);
      SortedTail(b, Self, false);
      SortedUnique(a[1..], b[1..]);
    }
  }

  lemma SortedTail<T>(s: seq<T>, key: T -> string, desc: bool)
    requires SortedBy(s, key, desc) && s != []
    ensures SortedBy(s[1..], key, desc)
  {
    forall i, j | 0 <= i < j < |s| - 1
      ensures InOrder(key(s[1..][i]), key(s[1..][j]), desc)
    {
      assert s[1..][i] == s[i + 1] && s[1..][j] == s[j + 1];
    }
  }

  predicate NoDuplicates<T(==)>(s: seq<T>)
  {
    forall i, j :: 0 <= i < j < |s| ==> s[i] != s[j]
  }

  lemma NoDuplicatesMultiset<T>(s: seq<T>)
    ensures NoDuplicates(s) <==> forall x :: multiset(s)[x] <= 1
  {
    if NoDuplicates(s) {
      forall x
        ensures multiset(s)[x] <= 1
      {
        NoDuplicatesCount(s, x);
      }
    } else {
      var i, j :| 0 <= i < j < |s| && s[i] == s[j];
      assert s == s[..j] + s[j..];
      assert s[i] in s[..j];
      assert multiset(s)[s[i]] == multiset(s[..j])[s[i]] + multiset(s[j..])[s[i]];
      assert s[j..] == [s[j]] + s[j + 1..];
    }
  }

  lemma {:induction false} NoDuplicatesCount<T>(s: seq<T>, x: T)
    requires NoDuplicates(s)
    ensures multiset(s)[x] <= 1
    decreases |s|
  {
    if s != [] {
      NoDuplicatesCount(s[1..], x);
      assert s == [s[0]] + s[1..];
      if s[0] == x {
        assert x !in s[1..];
      }
    }
  }

  /** Two sequences with the same elements agree on having duplicates. */
  lemma NoDuplicatesPermutation<T>(a: seq<T>, b: seq<T>)
    requires multiset(a) == multiset(b) && NoDuplicates(a)
    ensures NoDuplicates(b)
  {
    NoDuplicatesMultiset(a);
    NoDuplicatesMultiset(b);
  }

  lemma {:induction false} FilterNoDuplicates<T>(s: seq<T>, p: T -> bool)
    requires NoDuplicates(s)
    ensures NoDuplicates(Filter(s, p))
  {
    NoDuplicatesMultiset(s);
    forall x
      ensures multiset(Filter(s, p))[x] <= 1
    {
      FilterMultiset(s, p, x);
    }
    NoDuplicatesMultiset(Filter(s, p));
  }
}
