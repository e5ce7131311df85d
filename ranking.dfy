/** Ranking of (symbol, score) pairs as the engines' leader-board queries do
    it: Python's stable `list.sort(key=score, reverse=True)` followed by the
    slice `[:n]`. Stability is what keeps tied symbols in the order in which
    they were first recorded. */
module Ranking {

  ghost predicate NonIncreasing<K>(s: seq<(K, real)>) {
    forall i, j :: 0 <= i < j < |s| ==> s[i].1 >= s[j].1
  }

  ghost predicate DistinctKeys<K>(s: seq<(K, real)>) {
    forall i, j :: 0 <= i < j < |s| ==> s[i].0 != s[j].0
  }

  /** Puts `x` in front of the first entry that does not score strictly
      higher, so `x` precedes every entry it ties with. */
  function InsertDesc<K>(x: (K, real), s: seq<(K, real)>): (r: seq<(K, real)>)
    ensures |r| == |s| + 1
  {
    if s == [] || s[0].1 <= x.1 then [x] + s
    else [s[0]] + InsertDesc(x, s[1..])
  }

  /** Inserting into a sorted sequence keeps it sorted. */
  lemma {:induction false} InsertDescSorted<K>(x: (K, real), s: seq<(K, real)>)
    requires NonIncreasing(s)
    ensures NonIncreasing(InsertDesc(x, s))
    ensures InsertDesc(x, s)[0] == x || (s != [] && InsertDesc(x, s)[0] == s[0])
  {
    if s != [] && s[0].1 > x.1 {
      var tail := InsertDesc(x, s[1..]);
      InsertDescSorted(x, s[1..]);
      var r := [s[0]] + tail;
      assert InsertDesc(x, s) == r;
      forall i, j | 0 <= i < j < |r| ensures r[i].1 >= r[j].1 {
        if i == 0 {
          assert r[j] == tail[j - 1];
        } else {
          assert r[i] == tail[i - 1] && r[j] == tail[j - 1];
        }
      }
    }
  }

  /** Inserting adds exactly `x`. */
  lemma {:induction false} InsertDescPerm<K>(x: (K, real), s: seq<(K, real)>)
    ensures multiset(InsertDesc(x, s)) == multiset(s) + multiset{x}
  {
    if s != [] && s[0].1 > x.1 {
      InsertDescPerm(x, s[1..]);
      assert s == [s[0]] + s[1..];
    }
  }

  /** Stable sort by score, highest first. */
  function SortDesc<K>(s: seq<(K, real)>): (r: seq<(K, real)>)
    ensures NonIncreasing(r)
    ensures multiset(r) == multiset(s)
    ensures |r| == |s|
  {
    if s == [] then []
    else
      var rest := SortDesc(s[1..]);
      InsertDescSorted(s[0], rest);
      InsertDescPerm(s[0], rest);
      assert s == [s[0]] + s[1..];
      InsertDesc(s[0], rest)
  }

  /** The entries of `s` that score exactly `v`, in their order in `s`. */
  function WithScore<K>(s: seq<(K, real)>, v: real): seq<(K, real)> {
    if s == [] then []
    else (if s[0].1 == v then [s[0]] else []) + WithScore(s[1..], v)
  }

  lemma {:induction false} InsertDescTies<K>(x: (K, real), s: seq<(K, real)>, v: real)
    requires NonIncreasing(s)
    ensures WithScore(InsertDesc(x, s), v) == (if x.1 == v then [x] else []) + WithScore(s, v)
  {
    if s == [] || s[0].1 <= x.1 {
      assert InsertDesc(x, s) == [x] + s;
      assert ([x] + s)[1..] == s;
    } else {
      var tail := InsertDesc(x, s[1..]);
      assert InsertDesc(x, s) == [s[0]] + tail;
      InsertDescTies(x, s[1..], v);
      assert ([s[0]] + tail)[1..] == tail;
      assert WithScore([s[0]] + tail, v) == (if s[0].1 == v then [s[0]] else []) + WithScore(tail, v);
      assert x.1 == v ==> s[0].1 != v;
    }
  }

  /** The sort is stable: for every score, the entries with that score come
      out in the order they went in. */
  lemma {:induction false} SortDescStable<K>(s: seq<(K, real)>, v: real)
    ensures WithScore(SortDesc(s), v) == WithScore(s, v)
  {
    if s != [] {
      SortDescStable(s[1..], v);
      InsertDescTies(s[0], SortDesc(s[1..]), v);
    }
  }

  /** Sorting keeps keys apart: one entry per key in, one entry per key out. */
  lemma {:induction false} SortDescDistinct<K>(s: seq<(K, real)>)
    requires DistinctKeys(s)
    ensures DistinctKeys(SortDesc(s))
  {
    if s != [] {
      SortDescDistinct(s[1..]);
      var rest := SortDesc(s[1..]);
      forall i | 0 <= i < |rest| ensures rest[i].0 != s[0].0 {
        assert rest[i] in multiset(s[1..]);
        var k :| 0 <= k < |s[1..]| && s[1..][k] == rest[i];
        assert s[k + 1] == rest[i];
      }
      InsertDescDistinct(s[0], rest);
    }
  }

  lemma {:induction false} InsertDescDistinct<K>(x: (K, real), s: seq<(K, real)>)
    requires DistinctKeys(s)
    requires forall i :: 0 <= i < |s| ==> s[i].0 != x.0
    ensures DistinctKeys(InsertDesc(x, s))
  {
    if s == [] || s[0].1 <= x.1 {
      assert InsertDesc(x, s) == [x] + s;
    } else {
      var tail := InsertDesc(x, s[1..]);
      InsertDescDistinct(x, s[1..]);
      InsertDescPerm(x, s[1..]);
      assert InsertDesc(x, s) == [s[0]] + tail;
      forall i | 0 <= i < |tail| ensures tail[i].0 != s[0].0 {
        assert tail[i] in multiset(s[1..]) + multiset{x};
        if tail[i] != x {
          assert tail[i] in multiset(s[1..]);
          var k :| 0 <= k < |s[1..]| && s[1..][k] == tail[i];
          assert s[k + 1] == tail[i];
        }
      }
    }
  }

  /** An entry whose key the rest does not use keeps the keys distinct. */
  lemma DistinctCons<K>(x: (K, real), s: seq<(K, real)>)
    requires DistinctKeys(s)
    requires forall i :: 0 <= i < |s| ==> s[i].0 != x.0
    ensures DistinctKeys([x] + s)
  {
    forall i, j | 0 <= i < j < |[x] + s| ensures ([x] + s)[i].0 != ([x] + s)[j].0 {
      if i > 0 {
        assert ([x] + s)[i] == s[i - 1];
      }
      assert ([x] + s)[j] == s[j - 1];
    }
  }

  /** Python's slice `s[:n]`; a negative `n` drops `-n` entries from the end. */
  function Prefix<K>(s: seq<K>, n: int): (r: seq<K>)
    ensures |r| <= |s| && r == s[..|r|]
    ensures 0 <= n ==> |r| == if n < |s| then n else |s|
    ensures n < 0 ==> |r| == if |s| + n > 0 then |s| + n else 0
  {
    if 0 <= n then (if n < |s| then s[..n] else s)
    else if |s| + n > 0 then s[..|s| + n]
    else []
  }

  /** Taking a prefix keeps, for every score, a prefix of the tied entries. */
  lemma {:induction false} WithScorePrefix<K>(s: seq<(K, real)>, k: nat, v: real)
    requires k <= |s|
    ensures WithScore(s[..k], v) <= WithScore(s, v)
  {
    if k > 0 {
      WithScorePrefix(s[1..], k - 1, v);
      assert s[..k][1..] == s[1..][..k - 1];
    }
  }

  /** What the leader boards return: `sorted(s, key=score, reverse=True)[:n]`.
      The result is a part of `s`, highest first, ties kept in their order in
      `s`, and nothing left out outranks anything kept. */
  function Top<K>(s: seq<(K, real)>, n: int): (r: seq<(K, real)>)
    ensures NonIncreasing(r)
    ensures forall i :: 0 <= i < |r| ==> r[i] in s
    ensures 0 <= n ==> |r| == if n < |s| then n else |s|
    ensures DistinctKeys(s) ==> DistinctKeys(r)
    ensures forall v :: WithScore(r, v) <= WithScore(s, v)
    ensures forall y :: y in s && y !in r ==>
              && (0 <= n ==> |r| == n)
              && forall i :: 0 <= i < |r| ==> r[i].1 >= y.1
  {
    TopMembers(s, n);
    TopStable(s, n);
    TopOutranks(s, n);
    assert DistinctKeys(s) ==> DistinctKeys(SortDesc(s)) by {
      if DistinctKeys(s) { SortDescDistinct(s); }
    }
    Prefix(SortDesc(s), n)
  }

  lemma TopMembers<K>(s: seq<(K, real)>, n: int)
    ensures forall i :: 0 <= i < |Prefix(SortDesc(s), n)| ==> Prefix(SortDesc(s), n)[i] in s
  {
    var sorted := SortDesc(s);
    var r := Prefix(sorted, n);
    forall i | 0 <= i < |r| ensures r[i] in s {
      assert r[i] == sorted[i];
      assert r[i] in multiset(sorted);
    }
  }

  lemma TopStable<K>(s: seq<(K, real)>, n: int)
    ensures forall v :: WithScore(Prefix(SortDesc(s), n), v) <= WithScore(s, v)
  {
    forall v ensures WithScore(Prefix(SortDesc(s), n), v) <= WithScore(s, v) {
      WithScorePrefix(SortDesc(s), |Prefix(SortDesc(s), n)|, v);
      SortDescStable(s, v);
    }
  }

  lemma TopOutranks<K>(s: seq<(K, real)>, n: int)
    ensures forall y :: y in s && y !in Prefix(SortDesc(s), n) ==>
              && (0 <= n ==> |Prefix(SortDesc(s), n)| == n)
              && forall i :: 0 <= i < |Prefix(SortDesc(s), n)| ==> Prefix(SortDesc(s), n)[i].1 >= y.1
  {
    var sorted := SortDesc(s);
    var r := Prefix(sorted, n);
    forall y | y in s && y !in r
      ensures 0 <= n ==> |r| == n
      ensures forall i :: 0 <= i < |r| ==> r[i].1 >= y.1
    {
      assert y in multiset(sorted);
      var j :| 0 <= j < |sorted| && sorted[j] == y;
      assert j >= |r|;
    }
  }
}
