/**
  The SQL building blocks the report routes compose: a WHERE filter, COUNT(*)
  and SUM over the rows that pass, GROUP BY on a key with per-group sums, and
  ORDER BY ... DESC LIMIT n. The database leaves the order of rows with equal
  sort keys unspecified; the sort here keeps them in table order.
*/
module Aggregates {

  // ============================================================ WHERE, COUNT

  /** The rows of `s` that satisfy `keep`, in table order. */
  function Filter<T>(s: seq<T>, keep: T -> bool): (r: seq<T>)
    ensures |r| <= |s|
    ensures forall x :: x in r ==> x in s && keep(x)
  {
    if s == [] then []
    else
      var front := Filter(s[..|s| - 1], keep);
      front + (if keep(s[|s| - 1]) then [s[|s| - 1]] else [])
  }

  /** Every passing row is kept: the filter loses nothing. */
  lemma {:induction false} FilterComplete<T>(s: seq<T>, keep: T -> bool)
    ensures forall x :: x in s && keep(x) ==> x in Filter(s, keep)
  {
    if s != [] {
      FilterComplete(s[..|s| - 1], keep);
      forall x | x in s && keep(x) ensures x in Filter(s, keep) {
        if x != s[|s| - 1] {
          var k :| 0 <= k < |s| && s[k] == x;
          assert s[..|s| - 1][k] == x;
        }
      }
    }
  }

  lemma {:induction false} FilterAppend<T>(a: seq<T>, b: seq<T>, keep: T -> bool)
    ensures Filter(a + b, keep) == Filter(a, keep) + Filter(b, keep)
  {
    if b != [] {
      var b' := b[..|b| - 1];
      assert (a + b)[..|a + b| - 1] == a + b';
      FilterAppend(a, b', keep);
    } else {
      assert a + b == a;
    }
  }

  /** COUNT(*) of the rows that pass. */
  function Count<T>(s: seq<T>, keep: T -> bool): (n: nat)
    ensures n <= |s|
  {
    |Filter(s, keep)|
  }

  /** The ids of a keyed table whose row passes `keep`. */
  function IdsWhere<T>(m: map<int, T>, keep: T -> bool): (ids: set<int>)
    ensures forall id :: id in ids <==> id in m && keep(m[id])
  {
    set id | id in m && keep(m[id])
  }

  /** COUNT(*) over a table keyed by id. */
  function CountKeyed<T>(m: map<int, T>, keep: T -> bool): (n: nat)
    ensures n <= |m|
    ensures n == 0 <==> forall id | id in m :: !keep(m[id])
  {
    var ids := IdsWhere(m, keep);
    SubsetCard(ids, m.Keys);
    NoIds(m, keep);
    |ids|
  }

  lemma NoIds<T>(m: map<int, T>, keep: T -> bool)
    ensures IdsWhere(m, keep) == {} <==> forall id | id in m :: !keep(m[id])
  {
    if exists id | id in m :: keep(m[id]) {
      var id :| id in m && keep(m[id]);
      assert id in IdsWhere(m, keep);
    }
  }

  lemma SubsetCard(a: set<int>, b: set<int>)
    requires a <= b
    ensures |a| <= |b|
  {
    assert b == a + (b - a);
  }

  /** No row passes exactly when the count is zero, and every row does exactly when it is the table size. */
  lemma CountExtremes<T>(s: seq<T>, keep: T -> bool)
    ensures Count(s, keep) == 0 <==> forall x | x in s :: !keep(x)
    ensures Count(s, keep) == |s| <==> forall x | x in s :: keep(x)
  {
    FilterComplete(s, keep);
    var r := Filter(s, keep);
    if r != [] {
      assert r[0] in r;
    }
    CountAll(s, keep);
  }

  lemma {:induction false} CountAll<T>(s: seq<T>, keep: T -> bool)
    ensures Count(s, keep) == |s| <==> forall x | x in s :: keep(x)
  {
    if s != [] {
      var front, last := s[..|s| - 1], s[|s| - 1];
      CountAll(front, keep);
      assert Count(s, keep) == Count(front, keep) + (if keep(last) then 1 else 0);
      assert forall x | x in front :: x in s;
      assert forall x | x in s :: x in front || x == last by {
        assert s == front + [last];
      }
    }
  }

  /** Counting distributes over appending rows. */
  lemma CountAppend<T>(a: seq<T>, b: seq<T>, keep: T -> bool)
    ensures Count(a + b, keep) == Count(a, keep) + Count(b, keep)
  {
    FilterAppend(a, b, keep);
  }

  // ===================================================================== SUM

  /** SUM(f) over all rows, folded left to right; the empty sum is 0 (COALESCE(SUM(..), 0)). */
  function Sum<T>(s: seq<T>, f: T -> real): real {
    if s == [] then 0.0 else Sum(s[..|s| - 1], f) + f(s[|s| - 1])
  }

  lemma {:induction false} SumAppend<T>(a: seq<T>, b: seq<T>, f: T -> real)
    ensures Sum(a + b, f) == Sum(a, f) + Sum(b, f)
  {
    if b != [] {
      var b' := b[..|b| - 1];
      assert (a + b)[..|a + b| - 1] == a + b';
      SumAppend(a, b', f);
    } else {
      assert a + b == a;
    }
  }

  /** SUM(f) over the rows that pass `keep`. */
  function SumWhere<T>(s: seq<T>, keep: T -> bool, f: T -> real): real {
    Sum(Filter(s, keep), f)
  }

  /**
    When every row that passes `whole` passes exactly one of `a` and `b` (and
    no other row passes either), the sum over `whole` is the sum over `a` plus
    the sum over `b`.
  */
  lemma {:induction false} SumWhereSplit<T>(s: seq<T>, whole: T -> bool, a: T -> bool, b: T -> bool, f: T -> real)
    requires forall x | x in s :: whole(x) <==> a(x) || b(x)
    requires forall x | x in s :: !(a(x) && b(x))
    ensures SumWhere(s, whole, f) == SumWhere(s, a, f) + SumWhere(s, b, f)
    ensures Count(s, whole) == Count(s, a) + Count(s, b)
  {
    if s != [] {
      var front := s[..|s| - 1];
      assert forall x | x in front :: x in s;
      SumWhereSplit(front, whole, a, b, f);
      var last := s[|s| - 1];
      SumAppend(Filter(front, whole), if whole(last) then [last] else [], f);
      SumAppend(Filter(front, a), if a(last) then [last] else [], f);
      SumAppend(Filter(front, b), if b(last) then [last] else [], f);
    }
  }

  /** `x` added up `n` times. */
  function Times(n: nat, x: real): real {
    if n == 0 then 0.0 else Times(n - 1, x) + x
  }

  lemma {:induction false} TimesIsProduct(n: nat, x: real)
    ensures Times(n, x) == n as real * x
  {
    if n > 0 {
      TimesIsProduct(n - 1, x);
    }
  }

  /** A sum of rows each between `lo` and `hi` lies between `lo` and `hi` taken once per row. */
  lemma {:induction false} SumBounds<T>(s: seq<T>, f: T -> real, lo: real, hi: real)
    requires forall x | x in s :: lo <= f(x) <= hi
    ensures Times(|s|, lo) <= Sum(s, f) <= Times(|s|, hi)
  {
    if s != [] {
      var front := s[..|s| - 1];
      assert forall x | x in front :: x in s;
      SumBounds(front, f, lo, hi);
    }
  }

  /** SUM over an integer column. */
  function SumInt<T>(s: seq<T>, f: T -> int): int {
    if s == [] then 0 else SumInt(s[..|s| - 1], f) + f(s[|s| - 1])
  }

  // ================================================================ GROUP BY

  /** The distinct keys of `s`, in order of first occurrence: the groups of GROUP BY key. */
  function Keys<T, K(==)>(s: seq<T>, key: T -> K): (r: seq<K>)
    ensures forall i, j | 0 <= i < j < |r| :: r[i] != r[j]
  {
    if s == [] then []
    else
      var front := Keys(s[..|s| - 1], key);
      if key(s[|s| - 1]) in front then front else front + [key(s[|s| - 1])]
  }

  /** `k` is a group exactly when some row carries it. */
  lemma {:induction false} KeysSpec<T, K>(s: seq<T>, key: T -> K, k: K)
    ensures k in Keys(s, key) <==> exists x | x in s :: key(x) == k
  {
    if s != [] {
      var front, last := s[..|s| - 1], s[|s| - 1];
      KeysSpec(front, key, k);
      assert s == front + [last];
      if k in Keys(s, key) {
        if k in Keys(front, key) {
          var x :| x in front && key(x) == k;
          assert x in s;
        } else {
          assert key(last) == k;
        }
      }
      if exists x | x in s :: key(x) == k {
        var x :| x in s && key(x) == k;
        if x in front {
          assert k in Keys(front, key);
        }
      }
    }
  }

  /** SUM(f) over the rows of the group `k`. */
  function GroupSum<T, K(==)>(s: seq<T>, key: T -> K, k: K, f: T -> real): real {
    if s == [] then 0.0
    else GroupSum(s[..|s| - 1], key, k, f) + (if key(s[|s| - 1]) == k then f(s[|s| - 1]) else 0.0)
  }

  /** SUM over an integer column, for the rows of the group `k`. */
  function GroupSumInt<T, K(==)>(s: seq<T>, key: T -> K, k: K, f: T -> int): int {
    if s == [] then 0
    else GroupSumInt(s[..|s| - 1], key, k, f) + (if key(s[|s| - 1]) == k then f(s[|s| - 1]) else 0)
  }

  /** COUNT(*) of the rows of the group `k`. */
  function GroupCount<T, K(==)>(s: seq<T>, key: T -> K, k: K): nat {
    if s == [] then 0
    else GroupCount(s[..|s| - 1], key, k) + (if key(s[|s| - 1]) == k then 1 else 0)
  }

  /** A group of a key that no row carries is empty. */
  lemma {:induction false} GroupOfAbsentKey<T, K>(s: seq<T>, key: T -> K, k: K, f: T -> real)
    requires k !in Keys(s, key)
    ensures GroupSum(s, key, k, f) == 0.0
  {
    if s != [] {
      GroupOfAbsentKey(s[..|s| - 1], key, k, f);
    }
  }

  /** Σ over the listed groups of their sums. */
  function SumOfGroups<T, K(==)>(s: seq<T>, key: T -> K, ks: seq<K>, f: T -> real): real {
    if ks == [] then 0.0 else SumOfGroups(s, key, ks[..|ks| - 1], f) + GroupSum(s, key, ks[|ks| - 1], f)
  }

  /** The per-group sum as a function of the key. */
  function GroupTotal<T, K(==)>(s: seq<T>, key: T -> K, f: T -> real): K -> real {
    k => GroupSum(s, key, k, f)
  }

  lemma {:induction false} SumOfGroupsAsSum<T, K>(s: seq<T>, key: T -> K, ks: seq<K>, f: T -> real)
    ensures SumOfGroups(s, key, ks, f) == Sum(ks, GroupTotal(s, key, f))
  {
    if ks != [] {
      SumOfGroupsAsSum(s, key, ks[..|ks| - 1], f);
    }
  }

  lemma {:induction false} SumOfGroupsSnoc<T, K>(s: seq<T>, x: T, key: T -> K, ks: seq<K>, f: T -> real)
    requires forall i, j | 0 <= i < j < |ks| :: ks[i] != ks[j]
    ensures SumOfGroups(s + [x], key, ks, f) == SumOfGroups(s, key, ks, f) + (if key(x) in ks then f(x) else 0.0)
  {
    if ks != [] {
      var front := ks[..|ks| - 1];
      SumOfGroupsSnoc(s, x, key, front, f);
      assert (s + [x])[..|s + [x]| - 1] == s;
      assert key(x) in ks <==> key(x) in front || key(x) == ks[|ks| - 1];
      if key(x) == ks[|ks| - 1] {
        assert key(x) !in front;
      }
    }
  }

  /**
    The group sums add up to the sum over the whole table: every row lands in
    exactly one group.
  */
  lemma {:induction false} GroupsPartition<T, K>(s: seq<T>, key: T -> K, f: T -> real)
    ensures SumOfGroups(s, key, Keys(s, key), f) == Sum(s, f)
  {
    if s != [] {
      var front, x := s[..|s| - 1], s[|s| - 1];
      assert s == front + [x];
      GroupsPartition(front, key, f);
      var ks := Keys(front, key);
      SumOfGroupsSnoc(front, x, key, ks, f);
      if key(x) !in ks {
        GroupOfAbsentKey(front, key, key(x), f);
        NewGroup(s, key, ks, f);
      }
    }
  }

  lemma NewGroup<T, K>(s: seq<T>, key: T -> K, ks: seq<K>, f: T -> real)
    requires s != [] && ks == Keys(s[..|s| - 1], key) && key(s[|s| - 1]) !in ks
    ensures SumOfGroups(s, key, Keys(s, key), f) == SumOfGroups(s, key, ks, f) + GroupSum(s, key, key(s[|s| - 1]), f)
  {
    assert Keys(s, key) == ks + [key(s[|s| - 1])];
    assert (ks + [key(s[|s| - 1])])[..|ks|] == ks;
  }

  // ========================================================= ORDER BY DESC

  predicate SortedDesc<T>(s: seq<T>, key: T -> int) {
    forall i, j | 0 <= i < j < |s| :: key(s[i]) >= key(s[j])
  }

  /** Places `x` after every row whose key is at least its own. */
  function InsertDesc<T>(x: T, s: seq<T>, key: T -> int): (r: seq<T>)
    ensures |r| == |s| + 1
    ensures multiset(r) == multiset(s) + multiset{x}
  {
    if s == [] then [x]
    else if key(s[0]) >= key(x) then
      assert s == [s[0]] + s[1..];
      [s[0]] + InsertDesc(x, s[1..], key)
    else [x] + s
  }

  lemma {:induction false} InsertDescSorted<T>(x: T, s: seq<T>, key: T -> int)
    requires SortedDesc(s, key)
    ensures SortedDesc(InsertDesc(x, s, key), key)
  {
    if s != [] && key(s[0]) >= key(x) {
      InsertDescSorted(x, s[1..], key);
      var t := InsertDesc(x, s[1..], key);
      assert multiset(t) == multiset(s[1..]) + multiset{x};
      forall j | 0 <= j < |t| ensures key(s[0]) >= key(t[j]) {
        assert t[j] in multiset(t);
        if t[j] != x {
          assert t[j] in multiset(s[1..]);
          var k :| 0 <= k < |s[1..]| && s[1..][k] == t[j];
          assert s[1..][k] == s[k + 1];
        }
      }
    }
  }

  /** ORDER BY key DESC, rows with equal keys kept in table order (insertion sort). */
  function SortDesc<T>(s: seq<T>, key: T -> int): (r: seq<T>)
    ensures |r| == |s|
    ensures multiset(r) == multiset(s)
  {
    if s == [] then []
    else
      assert s == s[..|s| - 1] + [s[|s| - 1]];
      InsertDesc(s[|s| - 1], SortDesc(s[..|s| - 1], key), key)
  }

  /** A list without repeats holds each value at most once. */
  lemma {:induction false} DistinctAtMostOnce<T>(s: seq<T>, x: T)
    requires forall i, j | 0 <= i < j < |s| :: s[i] != s[j]
    ensures multiset(s)[x] <= 1
  {
    if s != [] {
      var front := s[..|s| - 1];
      DistinctAtMostOnce(front, x);
      assert s == front + [s[|s| - 1]];
      assert s[|s| - 1] !in front;
    }
  }

  /** Two positions holding the same value count it twice. */
  lemma RepeatCountsTwice<T>(r: seq<T>, i: nat, j: nat)
    requires i < j < |r|
    ensures r[i] == r[j] ==> multiset(r)[r[i]] >= 2
  {
    assert r == r[..j] + [r[j]] + r[j + 1..];
    assert r[..j][i] == r[i];
  }

  /** Sorting a list without repeats gives a list without repeats. */
  lemma SortDescDistinct<T>(s: seq<T>, key: T -> int)
    requires forall i, j | 0 <= i < j < |s| :: s[i] != s[j]
    ensures forall i, j | 0 <= i < j < |SortDesc(s, key)| :: SortDesc(s, key)[i] != SortDesc(s, key)[j]
  {
    var r := SortDesc(s, key);
    forall i, j | 0 <= i < j < |r| ensures r[i] != r[j] {
      RepeatCountsTwice(r, i, j);
      DistinctAtMostOnce(s, r[i]);
    }
  }

  lemma {:induction false} SortDescSorted<T>(s: seq<T>, key: T -> int)
    ensures SortedDesc(SortDesc(s, key), key)
  {
    if s != [] {
      SortDescSorted(s[..|s| - 1], key);
      InsertDescSorted(s[|s| - 1], SortDesc(s[..|s| - 1], key), key);
    }
  }

  /** Sorting does not change a sum: inserting `x` adds `f(x)`. */
  lemma {:induction false} SumInsertDesc<T>(x: T, s: seq<T>, key: T -> int, f: T -> real)
    ensures Sum(InsertDesc(x, s, key), f) == Sum(s, f) + f(x)
  {
    if s == [] {
      assert [x][..0] == [];
    } else if key(s[0]) >= key(x) {
      SumInsertDesc(x, s[1..], key, f);
      SumAppend([s[0]], InsertDesc(x, s[1..], key), f);
      SumAppend([s[0]], s[1..], f);
      assert s == [s[0]] + s[1..];
    } else {
      SumAppend([x], s, f);
      assert [x][..0] == [];
      SumAppend(s, [x], f);
      assert (s + [x])[..|s|] == s;
    }
  }

  lemma {:induction false} SumSortDesc<T>(s: seq<T>, key: T -> int, f: T -> real)
    ensures Sum(SortDesc(s, key), f) == Sum(s, f)
  {
    if s != [] {
      SumSortDesc(s[..|s| - 1], key, f);
      SumInsertDesc(s[|s| - 1], SortDesc(s[..|s| - 1], key), key, f);
    }
  }

  function Min(a: int, b: int): int {
    if a <= b then a else b
  }

  /** ORDER BY key DESC LIMIT n. */
  function Top<T>(s: seq<T>, key: T -> int, n: nat): (r: seq<T>)
    ensures |r| == Min(n, |s|)
  {
    SortDesc(s, key)[..Min(n, |s|)]
  }

  /** In a list sorted by descending key, every row before position `m` has a key at least that of every row from `m` on. */
  lemma SortedSplit<T>(sorted: seq<T>, key: T -> int, m: nat)
    requires SortedDesc(sorted, key) && m <= |sorted|
    ensures forall x, y | x in sorted[m..] && y in sorted[..m] :: key(y) >= key(x)
  {
    forall x, y | x in sorted[m..] && y in sorted[..m] ensures key(y) >= key(x) {
      var k :| 0 <= k < |sorted[m..]| && sorted[m..][k] == x;
      var j :| 0 <= j < m && sorted[..m][j] == y;
      assert sorted[j] == y && sorted[m + k] == x;
    }
  }

  /**
    The first `n` rows by key: the result is sorted, drawn from the table, and
    every row left out has a key no larger than any row kept.
  */
  lemma TopSpec<T>(s: seq<T>, key: T -> int, n: nat)
    ensures SortedDesc(Top(s, key, n), key)
    ensures multiset(Top(s, key, n)) <= multiset(s)
    ensures forall x | x in Top(s, key, n) :: x in s
    ensures forall x, y | x in s && x !in Top(s, key, n) && y in Top(s, key, n) :: key(y) >= key(x)
  {
    var sorted := SortDesc(s, key);
    var m := Min(n, |s|);
    var top, rest := sorted[..m], sorted[m..];
    SortDescSorted(s, key);
    assert sorted == top + rest;
    assert multiset(s) == multiset(top) + multiset(rest);
    SortedSplit(sorted, key, m);
    forall x | x in s && x !in top ensures x in rest {
      assert x in multiset(s);
      assert x !in multiset(top);
    }
    TopWithin(s, key, n);
  }

  lemma TopWithin<T>(s: seq<T>, key: T -> int, n: nat)
    ensures multiset(Top(s, key, n)) <= multiset(s)
    ensures forall x | x in Top(s, key, n) :: x in s
  {
    var sorted := SortDesc(s, key);
    var m := Min(n, |s|);
    var top := sorted[..m];
    assert sorted == top + sorted[m..];
    assert multiset(s) == multiset(top) + multiset(sorted[m..]);
    forall x | x in top ensures x in s {
      assert x in multiset(top);
      assert x in multiset(s);
    }
  }
}
