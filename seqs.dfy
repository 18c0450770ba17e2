/**
 * Sequence operations that the modelled code takes from Python's runtime:
 * the stable `sorted`/`list.sort` with a key, `collections.Counter.most_common`,
 * `min`/`max`, sums and means, and flattening a list of lists.
 */
module Seqs {

  // ---------------------------------------------------------------------------
  // Flattening

  function Flatten<T>(ss: seq<seq<T>>): seq<T> {
    if ss == [] then [] else ss[0] + Flatten(ss[1..])
  }

  lemma {:induction false} FlattenAppend<T>(a: seq<seq<T>>, b: seq<seq<T>>)
    ensures Flatten(a + b) == Flatten(a) + Flatten(b)
  {
    if a != [] {
      assert (a + b)[1..] == a[1..] + b;
      FlattenAppend(a[1..], b);
      assert (a + b)[0] == a[0];
      assert Flatten(a + b) == a[0] + (Flatten(a[1..]) + Flatten(b));
    } else {
      assert a + b == b;
    }
  }

  // ---------------------------------------------------------------------------
  // Stable sorting by a real-valued key (Python's sort is stable: Timsort)

  ghost predicate SortedBy<T>(s: seq<T>, key: T -> real) {
    forall i, j :: 0 <= i < j < |s| ==> key(s[i]) <= key(s[j])
  }

  /** The elements of `s` whose key is `k`, in their order in `s`. */
  function WithKey<T>(s: seq<T>, key: T -> real, k: real): seq<T> {
    if s == [] then [] else (if key(s[0]) == k then [s[0]] else []) + WithKey(s[1..], key, k)
  }

  /** Place `x` in front of the first element whose key is not smaller. */
  function Insert<T>(x: T, t: seq<T>, key: T -> real): seq<T> {
    if t == [] || key(x) <= key(t[0]) then [x] + t else [t[0]] + Insert(x, t[1..], key)
  }

  /** `sorted(s, key=key)`. */
  function SortBy<T>(s: seq<T>, key: T -> real): seq<T> {
    if s == [] then [] else Insert(s[0], SortBy(s[1..], key), key)
  }

  lemma {:induction false} InsertProperties<T>(x: T, t: seq<T>, key: T -> real)
    requires SortedBy(t, key)
    ensures SortedBy(Insert(x, t, key), key)
    ensures multiset(Insert(x, t, key)) == multiset(t) + multiset{x}
    ensures |Insert(x, t, key)| == |t| + 1
    ensures forall k :: WithKey(Insert(x, t, key), key, k)
                        == (if key(x) == k then [x] else []) + WithKey(t, key, k)
  {
    InsertMultiset(x, t, key);
    InsertSorted(x, t, key);
    forall k ensures WithKey(Insert(x, t, key), key, k)
                     == (if key(x) == k then [x] else []) + WithKey(t, key, k) {
      InsertWithKey(x, t, key, k);
    }
  }

  lemma {:induction false} InsertMultiset<T>(x: T, t: seq<T>, key: T -> real)
    ensures multiset(Insert(x, t, key)) == multiset(t) + multiset{x}
    ensures |Insert(x, t, key)| == |t| + 1
  {
    if !(t == [] || key(x) <= key(t[0])) {
      InsertMultiset(x, t[1..], key);
      assert t == [t[0]] + t[1..];
    }
  }

  lemma {:induction false} InsertSorted<T>(x: T, t: seq<T>, key: T -> real)
    requires SortedBy(t, key)
    ensures SortedBy(Insert(x, t, key), key)
  {
    var r := Insert(x, t, key);
    if t == [] || key(x) <= key(t[0]) {
      forall i, j | 0 <= i < j < |r| ensures key(r[i]) <= key(r[j]) {
        if i == 0 && j > 1 { assert key(t[0]) <= key(t[j - 1]); }
      }
    } else {
      var u := Insert(x, t[1..], key);
      InsertSorted(x, t[1..], key);
      InsertMultiset(x, t[1..], key);
      assert r == [t[0]] + u;
      forall j | 0 < j < |r| ensures key(r[0]) <= key(r[j]) {
        assert r[j] == u[j - 1];
        assert u[j - 1] in multiset(u);
        if r[j] != x {
          assert r[j] in multiset(t[1..]);
          var m :| 0 <= m < |t[1..]| && t[1..][m] == r[j];
          assert key(t[0]) <= key(t[m + 1]);
        }
      }
    }
  }

  lemma {:induction false} InsertWithKey<T>(x: T, t: seq<T>, key: T -> real, k: real)
    requires SortedBy(t, key)
    ensures WithKey(Insert(x, t, key), key, k) == (if key(x) == k then [x] else []) + WithKey(t, key, k)
  {
    var r := Insert(x, t, key);
    if t == [] || key(x) <= key(t[0]) {
      assert r[1..] == t;
    } else {
      var u := Insert(x, t[1..], key);
      InsertWithKey(x, t[1..], key, k);
      var head := if key(t[0]) == k then [t[0]] else [];
      assert r[0] == t[0] && r[1..] == u;
      assert WithKey(r, key, k) == head + WithKey(u, key, k);
      assert WithKey(t, key, k) == head + WithKey(t[1..], key, k);
    }
  }

  lemma {:induction false} SortByLength<T>(s: seq<T>, key: T -> real)
    ensures |SortBy(s, key)| == |s|
  {
    if s != [] {
      SortByLength(s[1..], key);
      InsertMultiset(s[0], SortBy(s[1..], key), key);
    }
  }

  /** `sorted` orders by key, keeps every element, and keeps the input order among equal keys. */
  lemma SortByProperties<T>(s: seq<T>, key: T -> real)
    ensures SortedBy(SortBy(s, key), key)
    ensures multiset(SortBy(s, key)) == multiset(s)
    ensures |SortBy(s, key)| == |s|
    ensures forall k :: WithKey(SortBy(s, key), key, k) == WithKey(s, key, k)
  {
    SortBySorted(s, key);
    SortByMultiset(s, key);
    SortByLength(s, key);
    forall k ensures WithKey(SortBy(s, key), key, k) == WithKey(s, key, k) {
      SortByStable(s, key, k);
    }
  }

  lemma {:induction false} SortBySorted<T>(s: seq<T>, key: T -> real)
    ensures SortedBy(SortBy(s, key), key)
  {
    if s != [] {
      SortBySorted(s[1..], key);
      InsertSorted(s[0], SortBy(s[1..], key), key);
    }
  }

  lemma {:induction false} SortByMultiset<T>(s: seq<T>, key: T -> real)
    ensures multiset(SortBy(s, key)) == multiset(s)
  {
    if s != [] {
      SortByMultiset(s[1..], key);
      InsertMultiset(s[0], SortBy(s[1..], key), key);
      assert s == [s[0]] + s[1..];
    }
  }

  lemma {:induction false} SortByStable<T>(s: seq<T>, key: T -> real, k: real)
    ensures WithKey(SortBy(s, key), key, k) == WithKey(s, key, k)
  {
    if s != [] {
      SortByStable(s[1..], key, k);
      SortBySorted(s[1..], key);
      InsertWithKey(s[0], SortBy(s[1..], key), key, k);
    }
  }

  /** Sorting an already sorted sequence changes nothing. */
  lemma {:induction false} SortBySortedIdentity<T>(s: seq<T>, key: T -> real)
    requires SortedBy(s, key)
    ensures SortBy(s, key) == s
  {
    if s != [] {
      var tail := s[1..];
      assert SortedBy(tail, key) by {
        forall i, j | 0 <= i < j < |tail| ensures key(tail[i]) <= key(tail[j]) {
          assert tail[i] == s[i + 1] && tail[j] == s[j + 1];
        }
      }
      SortBySortedIdentity(tail, key);
      assert s == [s[0]] + tail;
    }
  }

  /** The prefix one element longer. */
  lemma PrefixNext<T>(s: seq<T>, j: nat)
    requires j < |s|
    ensures s[..j + 1] == s[..j] + [s[j]]
  {
  }

  /** A slice from `lo` through `hi` starts with `s[lo]` and ends with `s[hi]`. */
  lemma SliceEnds<T>(s: seq<T>, lo: nat, hi: nat)
    requires lo <= hi < |s|
    ensures var r := s[lo..hi + 1]; |r| == hi - lo + 1 && r[0] == s[lo] && r[|r| - 1] == s[hi]
  {
  }

  /** The suffix one element shorter. */
  lemma SuffixNext<T>(s: seq<T>, i: nat)
    requires i < |s|
    ensures s[i..] != [] && s[i..][0] == s[i] && s[i..][1..] == s[i + 1..]
  {
  }

  /** `s[:n]`: the first `n` elements, or all of them. */
  function Take<T>(s: seq<T>, n: nat): (r: seq<T>)
    ensures |r| == (if |s| < n then |s| else n)
    ensures r == s[..|r|]
  {
    s[..if |s| < n then |s| else n]
  }

  // ---------------------------------------------------------------------------
  // Counting: collections.Counter

  function Count<T(==)>(s: seq<T>, x: T): (n: nat)
    ensures n <= |s|
    ensures n > 0 <==> x in s
  {
    if s == [] then 0 else (if s[0] == x then 1 else 0) + Count(s[1..], x)
  }

  /** The distinct elements of `s` in order of first occurrence (the key order of a `Counter`). */
  function Distinct<T(==)>(s: seq<T>): (r: seq<T>)
    ensures forall i :: 0 <= i < |r| ==> r[i] in s
    ensures forall i :: 0 <= i < |s| ==> s[i] in r
    ensures forall i, j :: 0 <= i < j < |r| ==> r[i] != r[j]
    ensures |r| <= |s|
  {
    if s == [] then []
    else
      var r := Distinct(s[..|s| - 1]);
      if s[|s| - 1] in r then r else r + [s[|s| - 1]]
  }

  /** The index of the first occurrence of `x` in `s`. */
  function FirstIndex<T(==)>(s: seq<T>, x: T): (r: nat)
    requires x in s
    ensures r < |s| && s[r] == x
    ensures forall j :: 0 <= j < r ==> s[j] != x
  {
    var init := s[..|s| - 1];
    assert s == init + [s[|s| - 1]];
    if x in init then FirstIndex(init, x) else |s| - 1
  }

  /** A `Counter` lists its keys in order of first occurrence. */
  lemma {:induction false} DistinctInOrder<T>(s: seq<T>)
    ensures forall i, j :: 0 <= i < j < |Distinct(s)| ==>
              FirstIndex(s, Distinct(s)[i]) < FirstIndex(s, Distinct(s)[j])
  {
    if s != [] {
      var init := s[..|s| - 1];
      var last := s[|s| - 1];
      assert s == init + [last];
      DistinctInOrder(init);
      var d := Distinct(init);
      forall y | y in init ensures FirstIndex(s, y) == FirstIndex(init, y) {
      }
      if last !in d {
        assert last !in init by {
          forall k | 0 <= k < |init| ensures init[k] != last {
            assert init[k] in d;
          }
        }
        assert FirstIndex(s, last) == |s| - 1;
        forall i | 0 <= i < |d| ensures FirstIndex(s, d[i]) < |s| - 1 {
          assert FirstIndex(s, d[i]) == FirstIndex(init, d[i]);
        }
      }
    }
  }

  /** Elements of `t` with equal keys appear in increasing `rank`. */
  ghost predicate TiesByRank<T>(t: seq<T>, key: T -> real, rank: T -> int) {
    forall i, j :: 0 <= i < j < |t| && key(t[i]) == key(t[j]) ==> rank(t[i]) < rank(t[j])
  }

  lemma {:induction false} InsertTies<T>(x: T, t: seq<T>, key: T -> real, rank: T -> int)
    requires TiesByRank(t, key, rank)
    requires forall y :: y in t ==> rank(x) < rank(y)
    ensures TiesByRank(Insert(x, t, key), key, rank)
    decreases |t|
  {
    if t != [] && key(t[0]) < key(x) {
      var tail := t[1..];
      assert TiesByRank(tail, key, rank) by {
        forall i, j | 0 <= i < j < |tail| && key(tail[i]) == key(tail[j]) ensures rank(tail[i]) < rank(tail[j]) {
          assert tail[i] == t[i + 1] && tail[j] == t[j + 1];
        }
      }
      forall y | y in tail ensures rank(x) < rank(y) {
        assert y in t;
      }
      InsertTies(x, tail, key, rank);
      InsertMultiset(x, tail, key);
      var rest := Insert(x, tail, key);
      forall y | y in rest && key(y) == key(t[0]) ensures rank(t[0]) < rank(y) {
        assert y in multiset(rest);
        if y != x {
          assert y in multiset(tail);
          var k :| 0 <= k < |tail| && tail[k] == y;
          assert t[k + 1] == y;
        }
      }
      TiesCons(t[0], rest, key, rank);
    } else {
      TiesCons(x, t, key, rank);
    }
  }

  lemma TiesCons<T>(h: T, t: seq<T>, key: T -> real, rank: T -> int)
    requires TiesByRank(t, key, rank)
    requires forall y :: y in t && key(y) == key(h) ==> rank(h) < rank(y)
    ensures TiesByRank([h] + t, key, rank)
  {
    var r := [h] + t;
    forall i, j | 0 <= i < j < |r| && key(r[i]) == key(r[j]) ensures rank(r[i]) < rank(r[j]) {
      assert r[j] == t[j - 1];
      if 0 < i {
        assert r[i] == t[i - 1];
      }
    }
  }

  /** Sorting a sequence listed in increasing `rank` keeps equal keys in that order. */
  lemma {:induction false} SortByTies<T>(s: seq<T>, key: T -> real, rank: T -> int)
    requires forall i, j :: 0 <= i < j < |s| ==> rank(s[i]) < rank(s[j])
    ensures TiesByRank(SortBy(s, key), key, rank)
  {
    if s != [] {
      var tail := s[1..];
      forall i, j | 0 <= i < j < |tail| ensures rank(tail[i]) < rank(tail[j]) {
        assert tail[i] == s[i + 1] && tail[j] == s[j + 1];
      }
      SortByTies(tail, key, rank);
      SortByMultiset(tail, key);
      var sorted := SortBy(tail, key);
      forall y | y in sorted ensures rank(s[0]) < rank(y) {
        assert y in multiset(tail);
        var k :| 0 <= k < |tail| && tail[k] == y;
        assert s[k + 1] == y;
      }
      InsertTies(s[0], sorted, key, rank);
    }
  }

  /** The sort key of `most_common`: falling count. */
  function CountKey<T(==)>(s: seq<T>): T -> real {
    (x: T) => -(Count(s, x) as real)
  }

  /** The first-occurrence rank of elements of `s`. */
  function FirstSeen<T(==)>(s: seq<T>): T -> int {
    (x: T) => if x in s then FirstIndex(s, x) else |s|
  }

  /** The distinct elements of `s` sorted by falling count: `sorted(Counter(s).items(),
      key=count, reverse=True)`, which is stable. */
  function Ranked<T(==)>(s: seq<T>): (r: seq<T>)
    ensures forall i :: 0 <= i < |r| ==> r[i] in s
  {
    var r := SortBy(Distinct(s), CountKey(s));
    SortByMultiset(Distinct(s), CountKey(s));
    assert forall i :: 0 <= i < |r| ==> r[i] in multiset(Distinct(s));
    r
  }

  /** The ranking lists every element of `s` once. */
  lemma RankedMembers<T>(s: seq<T>)
    ensures |Ranked(s)| == |Distinct(s)|
    ensures forall x :: x in s ==> x in Ranked(s)
    ensures forall i, j :: 0 <= i < j < |Ranked(s)| ==> Ranked(s)[i] != Ranked(s)[j]
  {
    var d := Distinct(s);
    var r := Ranked(s);
    SortByMultiset(d, CountKey(s));
    SortByLength(d, CountKey(s));
    forall x | x in s ensures x in r {
      var k :| 0 <= k < |s| && s[k] == x;
      assert s[k] in d;
      assert x in multiset(r);
    }
    DistinctAfterSort(d, r);
  }

  /** The ranking is by non-increasing count. */
  lemma RankedOrder<T>(s: seq<T>)
    ensures forall i, j :: 0 <= i < j < |Ranked(s)| ==> Count(s, Ranked(s)[i]) >= Count(s, Ranked(s)[j])
  {
    var key := CountKey(s);
    var r := Ranked(s);
    SortBySorted(Distinct(s), key);
    forall i, j | 0 <= i < j < |r| ensures Count(s, r[i]) >= Count(s, r[j]) {
      assert key(r[i]) <= key(r[j]);
    }
  }

  /** Elements of equal count keep their order of first occurrence. */
  lemma RankedTies<T>(s: seq<T>)
    ensures forall i, j :: 0 <= i < j < |Ranked(s)| && Count(s, Ranked(s)[i]) == Count(s, Ranked(s)[j]) ==>
              FirstIndex(s, Ranked(s)[i]) < FirstIndex(s, Ranked(s)[j])
  {
    var d := Distinct(s);
    var key, rank := CountKey(s), FirstSeen(s);
    var r := Ranked(s);
    RankedMembers(s);
    DistinctInOrder(s);
    forall i, j | 0 <= i < j < |d| ensures rank(d[i]) < rank(d[j]) {
    }
    SortByTies(d, key, rank);
    forall i, j | 0 <= i < j < |r| && Count(s, r[i]) == Count(s, r[j])
      ensures FirstIndex(s, r[i]) < FirstIndex(s, r[j])
    {
      assert key(r[i]) == key(r[j]);
      assert rank(r[i]) < rank(r[j]);
    }
  }

  /** `Counter(s).most_common(n)`: the first `n` of the ranking. */
  function MostCommon<T(==)>(s: seq<T>, n: nat): (r: seq<T>)
  {
    var ranked := Ranked(s);
    ranked[..if n < |ranked| then n else |ranked|]
  }

  /** `most_common(n)` lists min(n, number of distinct elements) distinct elements of `s`,
      by non-increasing count and, among equal counts, in order of first occurrence. */
  lemma MostCommonRanked<T>(s: seq<T>, n: nat)
    ensures |MostCommon(s, n)| == (if n < |Distinct(s)| then n else |Distinct(s)|)
    ensures forall i :: 0 <= i < |MostCommon(s, n)| ==> MostCommon(s, n)[i] in s
    ensures forall i, j :: 0 <= i < j < |MostCommon(s, n)| ==>
              MostCommon(s, n)[i] != MostCommon(s, n)[j]
              && Count(s, MostCommon(s, n)[i]) >= Count(s, MostCommon(s, n)[j])
    ensures forall i, j :: 0 <= i < j < |MostCommon(s, n)| && Count(s, MostCommon(s, n)[i]) == Count(s, MostCommon(s, n)[j]) ==>
              FirstIndex(s, MostCommon(s, n)[i]) < FirstIndex(s, MostCommon(s, n)[j])
  {
    RankedMembers(s);
    RankedOrder(s);
    RankedTies(s);
    var ranked, r := Ranked(s), MostCommon(s, n);
    assert r == ranked[..|r|];
    forall i | 0 <= i < |r| ensures r[i] in s {
      assert r[i] == ranked[i];
    }
    forall i, j | 0 <= i < j < |r| ensures r[i] != r[j] && Count(s, r[i]) >= Count(s, r[j]) {
      assert r[i] == ranked[i] && r[j] == ranked[j];
    }
    forall i, j | 0 <= i < j < |r| && Count(s, r[i]) == Count(s, r[j])
      ensures FirstIndex(s, r[i]) < FirstIndex(s, r[j])
    {
      assert r[i] == ranked[i] && r[j] == ranked[j];
    }
  }

  /** An element `most_common(n)` leaves out is ranked after all its entries. */
  lemma Omitted<T>(s: seq<T>, n: nat, x: T)
    requires x in s && x !in MostCommon(s, n)
    ensures exists p :: |MostCommon(s, n)| <= p < |Ranked(s)| && Ranked(s)[p] == x
  {
    RankedMembers(s);
    var ranked, r := Ranked(s), MostCommon(s, n);
    var p :| 0 <= p < |ranked| && ranked[p] == x;
    assert |r| <= p;
  }

  /** What `most_common(n)` leaves out is no more frequent than its last entry. */
  lemma MostCommonTop<T>(s: seq<T>, n: nat)
    ensures forall x :: x in s && x !in MostCommon(s, n) && MostCommon(s, n) != [] ==>
              Count(s, x) <= Count(s, MostCommon(s, n)[|MostCommon(s, n)| - 1])
  {
    var ranked, r := Ranked(s), MostCommon(s, n);
    forall x | x in s && x !in r && r != [] ensures Count(s, x) <= Count(s, r[|r| - 1]) {
      Omitted(s, n, x);
      var p :| |r| <= p < |ranked| && ranked[p] == x;
      RankedOrder(s);
      assert r[|r| - 1] == ranked[|r| - 1];
    }
  }

  /** And it comes after every listed entry of the same count in order of first occurrence. */
  lemma MostCommonTopTies<T>(s: seq<T>, n: nat)
    ensures forall x, i ::
              (&& x in s && x !in MostCommon(s, n) && 0 <= i < |MostCommon(s, n)|
               && Count(s, x) == Count(s, MostCommon(s, n)[i])) ==>
              FirstIndex(s, MostCommon(s, n)[i]) < FirstIndex(s, x)
  {
    var ranked, r := Ranked(s), MostCommon(s, n);
    forall x, i | x in s && x !in r && 0 <= i < |r| && Count(s, x) == Count(s, r[i])
      ensures FirstIndex(s, r[i]) < FirstIndex(s, x)
    {
      Omitted(s, n, x);
      var p :| |r| <= p < |ranked| && ranked[p] == x;
      RankedTies(s);
      RankedMembers(s);
      assert r[i] == ranked[i];
    }
  }

  /** The first entry of `most_common` is the first-seen of the most frequent elements. */
  lemma MostCommonFirst<T>(s: seq<T>, n: nat)
    requires s != [] && n >= 1
    ensures |MostCommon(s, n)| >= 1
    ensures MostCommon(s, n)[0] in s
    ensures forall y :: y in s ==> Count(s, y) <= Count(s, MostCommon(s, n)[0])
    ensures forall j :: 0 <= j < FirstIndex(s, MostCommon(s, n)[0]) ==> Count(s, s[j]) < Count(s, MostCommon(s, n)[0])
  {
    RankedMembers(s);
    RankedOrder(s);
    RankedTies(s);
    var ranked := Ranked(s);
    assert s[0] in ranked;
    var m := ranked[0];
    assert MostCommon(s, n)[0] == m;
    forall y | y in s ensures Count(s, y) <= Count(s, m) {
      var p :| 0 <= p < |ranked| && ranked[p] == y;
    }
    forall j | 0 <= j < FirstIndex(s, m) ensures Count(s, s[j]) < Count(s, m) {
      var y := s[j];
      assert y != m;
      var p :| 0 <= p < |ranked| && ranked[p] == y;
      assert FirstIndex(s, y) <= j;
    }
  }

  lemma DistinctAfterSort<T>(d: seq<T>, r: seq<T>)
    requires forall i, j :: 0 <= i < j < |d| ==> d[i] != d[j]
    requires multiset(r) == multiset(d)
    ensures forall i, j :: 0 <= i < j < |r| ==> r[i] != r[j]
  {
    forall i, j | 0 <= i < j < |r| ensures r[i] != r[j] {
      if r[i] == r[j] {
        assert multiset(r)[r[i]] >= 2 by {
          assert r == r[..i] + [r[i]] + r[i + 1..j] + [r[j]] + r[j + 1..];
          assert multiset(r) == multiset(r[..i]) + multiset{r[i]} + multiset(r[i + 1..j]) + multiset{r[j]} + multiset(r[j + 1..]);
        }
        DistinctMultiplicity(d, r[i]);
        assert false;
      }
    }
  }

  lemma {:induction false} DistinctMultiplicity<T>(d: seq<T>, x: T)
    requires forall i, j :: 0 <= i < j < |d| ==> d[i] != d[j]
    ensures multiset(d)[x] <= 1
  {
    if d != [] {
      assert d == [d[0]] + d[1..];
      DistinctMultiplicity(d[1..], x);
      if d[0] == x {
        assert x !in d[1..];
      }
    }
  }

  // ---------------------------------------------------------------------------
  // min, max, sum, mean

  /** Python's `min` on a non-empty list. */
  function MinOf(s: seq<int>): (m: int)
    requires s != []
    ensures m in s
    ensures forall i :: 0 <= i < |s| ==> m <= s[i]
  {
    if |s| == 1 then s[0]
    else var m := MinOf(s[1..]); if s[0] <= m then s[0] else m
  }

  /** Python's `max` on a non-empty list. */
  function MaxOf(s: seq<int>): (m: int)
    requires s != []
    ensures m in s
    ensures forall i :: 0 <= i < |s| ==> s[i] <= m
  {
    if |s| == 1 then s[0]
    else var m := MaxOf(s[1..]); if s[0] >= m then s[0] else m
  }

  function Sum(s: seq<real>): real {
    if s == [] then 0.0 else s[0] + Sum(s[1..])
  }

  /** A sum of `|s|` values each in [lo, hi] lies in [|s|·lo, |s|·hi]. */
  lemma {:induction false} SumBounds(s: seq<real>, lo: real, hi: real)
    requires forall i :: 0 <= i < |s| ==> lo <= s[i] <= hi
    ensures (|s| as real) * lo <= Sum(s) <= (|s| as real) * hi
  {
    if s != [] {
      SumBounds(s[1..], lo, hi);
      assert (|s| as real) * lo == lo + (|s[1..]| as real) * lo;
      assert (|s| as real) * hi == hi + (|s[1..]| as real) * hi;
    }
  }

  /** The arithmetic mean (`np.mean`, or `sum(...) / len(...)`). */
  function Mean(s: seq<real>): real
    requires s != []
  {
    Sum(s) / (|s| as real)
  }

  /** A mean lies between the smallest and the largest value. */
  lemma MeanBounds(s: seq<real>, lo: real, hi: real)
    requires s != []
    requires forall i :: 0 <= i < |s| ==> lo <= s[i] <= hi
    ensures lo <= Mean(s) <= hi
  {
    SumBounds(s, lo, hi);
    var n := |s| as real;
    assert n * lo <= Sum(s) <= n * hi;
    assert lo == (n * lo) / n;
    assert hi == (n * hi) / n;
  }
}
