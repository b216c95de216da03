/**
 * The list operations the handlers and views share: `filter`, a stable sort
 * by a descending key (JavaScript's `sort` and the database's
 * `orderBy: { … : "desc" }`), and `slice(0, n)`.
 */
module Seqs {

  function Filter<T>(s: seq<T>, keep: T -> bool): (r: seq<T>)
    ensures |r| <= |s|
  {
    if s == [] then []
    else (if keep(s[0]) then [s[0]] else []) + Filter(s[1..], keep)
  }

  /** The filtered list holds exactly the kept elements, as many times as before. */
  lemma {:induction false} FilterMultiset<T>(s: seq<T>, keep: T -> bool, x: T)
    ensures multiset(Filter(s, keep))[x] == if keep(x) then multiset(s)[x] else 0
  {
    if s != [] {
      assert s == [s[0]] + s[1..];
      FilterMultiset(s[1..], keep, x);
    }
  }

  lemma FilterMembers<T>(s: seq<T>, keep: T -> bool, x: T)
    ensures x in Filter(s, keep) <==> x in s && keep(x)
  {
    FilterMultiset(s, keep, x);
    assert x in Filter(s, keep) <==> x in multiset(Filter(s, keep));
    assert x in s <==> x in multiset(s);
  }

  /** Filtering keeps the original order: it distributes over concatenation. */
  lemma {:induction false} FilterConcat<T>(a: seq<T>, b: seq<T>, keep: T -> bool)
    ensures Filter(a + b, keep) == Filter(a, keep) + Filter(b, keep)
  {
    if a != [] {
      assert (a + b)[0] == a[0];
      assert (a + b)[1..] == a[1..] + b;
      FilterConcat(a[1..], b, keep);
    } else {
      assert a + b == b;
    }
  }

  lemma {:induction false} FilterAll<T>(s: seq<T>, keep: T -> bool)
    requires forall i :: 0 <= i < |s| ==> keep(s[i])
    ensures Filter(s, keep) == s
  {
    if s != [] {
      FilterAll(s[1..], keep);
    }
  }

  /** `r` is `s` with some elements dropped: the rest keep their relative order. */
  ghost predicate IsSubsequence<T>(r: seq<T>, s: seq<T>)
    decreases |s|
  {
    r == [] || (s != [] && ((r[0] == s[0] && IsSubsequence(r[1..], s[1..])) || IsSubsequence(r, s[1..])))
  }

  /** Filtering keeps the original order. */
  lemma {:induction false} FilterSubsequence<T>(s: seq<T>, keep: T -> bool)
    ensures IsSubsequence(Filter(s, keep), s)
  {
    if s != [] {
      FilterSubsequence(s[1..], keep);
      var r := Filter(s, keep);
      if keep(s[0]) {
        assert r == [s[0]] + Filter(s[1..], keep);
        assert r[0] == s[0] && r[1..] == Filter(s[1..], keep);
      } else {
        assert r == Filter(s[1..], keep);
      }
    }
  }

  /** A prefix of a subsequence is a subsequence. */
  lemma {:induction false} SubsequencePrefix<T>(r: seq<T>, s: seq<T>, n: nat)
    requires IsSubsequence(r, s) && n <= |r|
    ensures IsSubsequence(r[..n], s)
    decreases |s|
  {
    if n > 0 {
      if r[0] == s[0] && IsSubsequence(r[1..], s[1..]) {
        SubsequencePrefix(r[1..], s[1..], n - 1);
        assert r[..n][1..] == r[1..][..n - 1];
      } else {
        SubsequencePrefix(r, s[1..], n);
      }
    }
  }

  /** `s.slice(0, n)`. */
  function Take<T>(s: seq<T>, n: nat): (r: seq<T>)
    ensures |r| == if |s| <= n then |s| else n
    ensures r <= s
  {
    if |s| <= n then s else s[..n]
  }

  predicate SortedDesc<T>(s: seq<T>, key: T -> int) {
    forall i, j :: 0 <= i < j < |s| ==> key(s[i]) >= key(s[j])
  }

  /** Inserts `x` after every element whose key is at least `key(x)`. */
  function Insert<T>(s: seq<T>, x: T, key: T -> int): (r: seq<T>)
    ensures multiset(r) == multiset(s) + multiset{x}
    ensures |r| == |s| + 1
  {
    if s == [] then [x]
    else if key(s[0]) < key(x) then [x] + s
    else
      assert s == [s[0]] + s[1..];
      [s[0]] + Insert(s[1..], x, key)
  }

  lemma {:induction false} InsertSorted<T>(s: seq<T>, x: T, key: T -> int)
    requires SortedDesc(s, key)
    ensures SortedDesc(Insert(s, x, key), key)
  {
    if s != [] && key(s[0]) >= key(x) {
      InsertSorted(s[1..], x, key);
      var t := Insert(s[1..], x, key);
      forall i | 0 <= i < |t| ensures key(s[0]) >= key(t[i]) {
        assert t[i] in multiset(t);
        assert t[i] in multiset(s[1..]) || t[i] == x;
      }
    }
  }

  /** A stable sort by `key`, largest first. */
  function SortDesc<T>(s: seq<T>, key: T -> int): (r: seq<T>)
    ensures multiset(r) == multiset(s)
    ensures |r| == |s|
  {
    if s == [] then []
    else
      assert s == s[..|s| - 1] + [s[|s| - 1]];
      Insert(SortDesc(s[..|s| - 1], key), s[|s| - 1], key)
  }

  lemma {:induction false} SortDescSorted<T>(s: seq<T>, key: T -> int)
    ensures SortedDesc(SortDesc(s, key), key)
  {
    if s != [] {
      SortDescSorted(s[..|s| - 1], key);
      InsertSorted(SortDesc(s[..|s| - 1], key), s[|s| - 1], key);
    }
  }

  /** The first `n` of the sorted list are sorted and come from `s`, no more often than they occur there. */
  lemma {:induction false} TakeSortedKept<T>(s: seq<T>, key: T -> int, n: nat)
    ensures multiset(Take(SortDesc(s, key), n)) <= multiset(s)
    ensures forall a :: a in Take(SortDesc(s, key), n) ==> a in s
    ensures SortedDesc(Take(SortDesc(s, key), n), key)
  {
    var sorted := SortDesc(s, key);
    var r := Take(sorted, n);
    SortDescSorted(s, key);
    assert sorted == r + sorted[|r|..];
    assert multiset(sorted) == multiset(r) + multiset(sorted[|r|..]);
    forall a | a in r ensures a in s {
      assert a in multiset(s);
    }
  }

  /** ... and they are the `n` greatest: no element left out has a greater key than one kept. */
  lemma {:induction false} TakeSortedGreatest<T>(s: seq<T>, key: T -> int, n: nat)
    ensures forall a :: a in multiset(s) - multiset(Take(SortDesc(s, key), n)) ==>
      forall b :: b in Take(SortDesc(s, key), n) ==> key(a) <= key(b)
  {
    var sorted := SortDesc(s, key);
    var r := Take(sorted, n);
    var rest := sorted[|r|..];
    SortDescSorted(s, key);
    assert sorted == r + rest;
    assert multiset(s) - multiset(r) == multiset(rest);
    forall a | a in multiset(rest)
      ensures forall b :: b in r ==> key(a) <= key(b)
    {
      assert a in rest;
      var j :| 0 <= j < |rest| && rest[j] == a;
      forall b | b in r ensures key(a) <= key(b) {
        var i :| 0 <= i < |r| && r[i] == b;
        assert sorted[i] == b && sorted[|r| + j] == a;
      }
    }
  }

  /**
   * A filtered, sorted listing (`findMany` with `where` and `orderBy: desc`):
   * sorted, and holding exactly the kept elements with their multiplicities.
   */
  lemma ListingSpec<T>(s: seq<T>, keep: T -> bool, key: T -> int)
    ensures SortedDesc(SortDesc(Filter(s, keep), key), key)
    ensures forall x :: multiset(SortDesc(Filter(s, keep), key))[x] == if keep(x) then multiset(s)[x] else 0
    ensures forall x :: x in SortDesc(Filter(s, keep), key) <==> x in s && keep(x)
  {
    var r := SortDesc(Filter(s, keep), key);
    SortDescSorted(Filter(s, keep), key);
    forall x ensures multiset(r)[x] == if keep(x) then multiset(s)[x] else 0 {
      FilterMultiset(s, keep, x);
    }
    forall x ensures x in r <==> x in s && keep(x) {
      assert x in r <==> x in multiset(r);
      assert x in s <==> x in multiset(s);
    }
  }

  lemma MultisetIn<T>(a: seq<T>, b: seq<T>, x: T)
    requires multiset(a) == multiset(b)
    ensures x in a <==> x in b
  {
    assert x in a <==> x in multiset(a);
    assert x in b <==> x in multiset(b);
  }

  function Sum<T>(s: seq<T>, f: T -> int): int {
    if s == [] then 0 else f(s[0]) + Sum(s[1..], f)
  }

  lemma {:induction false} SumConcat<T>(a: seq<T>, b: seq<T>, f: T -> int)
    ensures Sum(a + b, f) == Sum(a, f) + Sum(b, f)
  {
    if a != [] {
      assert (a + b)[0] == a[0];
      assert (a + b)[1..] == a[1..] + b;
      SumConcat(a[1..], b, f);
    } else {
      assert a + b == b;
    }
  }

  /** Replacing one element changes the sum by the difference. */
  lemma {:induction false} SumUpdate<T>(s: seq<T>, i: nat, x: T, f: T -> int)
    requires i < |s|
    ensures Sum(s[i := x], f) == Sum(s, f) - f(s[i]) + f(x)
  {
    if i > 0 {
      assert s[i := x][1..] == s[1..][i - 1 := x];
      SumUpdate(s[1..], i - 1, x, f);
    } else {
      assert s[i := x][1..] == s[1..];
    }
  }

  /** No two elements share a key. */
  predicate DistinctBy<T>(s: seq<T>, key: T -> int) {
    forall i, j :: 0 <= i < j < |s| ==> key(s[i]) != key(s[j])
  }

  /** Filtering keeps keys distinct. */
  lemma {:induction false} FilterKeepsDistinct<T>(s: seq<T>, keep: T -> bool, key: T -> int)
    requires DistinctBy(s, key)
    ensures DistinctBy(Filter(s, keep), key)
  {
    if s != [] {
      FilterKeepsDistinct(s[1..], keep, key);
      var rest := Filter(s[1..], keep);
      forall j | 0 <= j < |rest| ensures key(rest[j]) != key(s[0]) {
        FilterMembers(s[1..], keep, rest[j]);
        var k :| 0 <= k < |s[1..]| && s[1..][k] == rest[j];
        assert s[k + 1] == rest[j];
      }
    }
  }

  /** Dropping the one element at `i` leaves the elements around it. */
  lemma {:induction false} RemoveOne<T>(s: seq<T>, i: nat, keep: T -> bool)
    requires i < |s| && !keep(s[i])
    requires forall j :: 0 <= j < |s| && j != i ==> keep(s[j])
    ensures Filter(s, keep) == s[..i] + s[i + 1..]
  {
    var a, x, b := s[..i], s[i], s[i + 1..];
    assert s == (a + [x]) + b;
    FilterAll(a, keep);
    assert forall j :: 0 <= j < |b| ==> b[j] == s[i + 1 + j];
    FilterAll(b, keep);
    assert Filter([x], keep) == Filter([x][1..], keep);
    FilterConcat(a, [x], keep);
    FilterConcat(a + [x], b, keep);
  }

  /** ... and lowers the sum by that element. */
  lemma {:induction false} RemoveOneSum<T>(s: seq<T>, i: nat, keep: T -> bool, f: T -> int)
    requires i < |s| && !keep(s[i])
    requires forall j :: 0 <= j < |s| && j != i ==> keep(s[j])
    ensures Sum(Filter(s, keep), f) == Sum(s, f) - f(s[i])
  {
    RemoveOne(s, i, keep);
    var a, x, b := s[..i], s[i], s[i + 1..];
    assert s == (a + [x]) + b;
    assert Sum([x], f) == f(x) + Sum([x][1..], f);
    SumConcat(a, [x], f);
    SumConcat(a + [x], b, f);
    SumConcat(a, b, f);
  }
}
