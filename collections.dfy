/** Sequence utilities shared by both storage backends and the statistics
    route: counting, grouping into an insertion-ordered tally (the shape of a
    JavaScript Map filled in a loop, and of an SQL GROUP BY), a stable
    descending sort, SQL LIMIT and JavaScript Array.prototype.slice. */
module Collections {

  datatype Option<+T> = None | Some(value: T)

  /** Number of occurrences of k in s. */
  function Count<K(==)>(s: seq<K>, k: K): (n: nat)
    ensures n <= |s|
    ensures n > 0 <==> k in s
  {
    if |s| == 0 then 0
    else
      assert s == s[..|s| - 1] + [s[|s| - 1]];
      Count(s[..|s| - 1], k) + (if s[|s| - 1] == k then 1 else 0)
  }

  /** The set of elements of s (SQL COUNT(DISTINCT ...), JavaScript new Set(...).size). */
  function Elems<T>(s: seq<T>): set<T>
  {
    set x | x in s
  }

  lemma {:induction false} ElemsCard<T>(s: seq<T>)
    ensures |Elems(s)| <= |s|
    ensures |s| > 0 ==> |Elems(s)| >= 1
  {
    if |s| == 0 {
      assert Elems(s) == {};
    } else {
      var p := s[..|s| - 1];
      assert s == p + [s[|s| - 1]];
      assert Elems(s) == Elems(p) + {s[|s| - 1]};
      ElemsCard(p);
    }
  }

  /** Largest element of a non-empty sequence (SQL MAX, Math.max). */
  function MaxOf(s: seq<int>): (m: int)
    requires |s| > 0
    ensures m in s
    ensures forall x :: x in s ==> x <= m
  {
    if |s| == 1 then s[0]
    else
      var rest := MaxOf(s[1..]);
      assert s == [s[0]] + s[1..];
      if s[0] >= rest then s[0] else rest
  }

  /** The elements of s that `keep` accepts, in their order (Array.prototype.filter, SQL WHERE). */
  function Filter<T>(s: seq<T>, keep: T -> bool): (r: seq<T>)
    ensures |r| <= |s|
    ensures forall i :: 0 <= i < |r| ==> keep(r[i])
    ensures multiset(r) <= multiset(s)
    ensures forall x :: x in s && keep(x) ==> x in r
    ensures Subseq(r, s)
  {
    if |s| == 0 then []
    else
      var p, x := s[..|s| - 1], s[|s| - 1];
      assert s == p + [x];
      var r := Filter(p, keep) + (if keep(x) then [x] else []);
      assert s[..|s| - 1] == p;
      assert keep(x) ==> r[..|r| - 1] == Filter(p, keep) && r[|r| - 1] == x;
      assert Subseq(r, s) by {
        if !keep(x) {
          assert r == Filter(p, keep);
        }
      }
      r
  }

  /** r keeps some of the elements of s, in their order. */
  ghost predicate Subseq<T>(r: seq<T>, s: seq<T>)
    decreases |s|
  {
    if |s| == 0 then |r| == 0
    else
      || (|r| > 0 && r[|r| - 1] == s[|s| - 1] && Subseq(r[..|r| - 1], s[..|s| - 1]))
      || Subseq(r, s[..|s| - 1])
  }

  lemma FilterSnoc<T>(p: seq<T>, x: T, keep: T -> bool)
    ensures Filter(p + [x], keep) == Filter(p, keep) + (if keep(x) then [x] else [])
  {
    assert (p + [x])[..|p|] == p;
  }

  /** A filter that rejects nothing returns its input. */
  lemma {:induction false} FilterKeepsAll<T>(s: seq<T>, keep: T -> bool)
    requires forall x :: x in s ==> keep(x)
    ensures Filter(s, keep) == s
  {
    if |s| > 0 {
      var p, x := s[..|s| - 1], s[|s| - 1];
      assert s == p + [x];
      FilterKeepsAll(p, keep);
      FilterSnoc(p, x, keep);
    }
  }

  lemma SubMultisetMembers<T>(r: seq<T>, s: seq<T>)
    requires multiset(r) <= multiset(s)
    ensures forall x :: x in r ==> x in s
  {
    forall x | x in r ensures x in s {
      assert x in multiset(r);
    }
  }

  lemma PrefixFacts<T>(s: seq<T>, r: seq<T>, rank: T -> int)
    requires r <= s
    ensures r == s[..|r|]
    ensures multiset(r) <= multiset(s)
    ensures SortedDesc(s, rank) ==> SortedDesc(r, rank)
  {
    assert s == r + s[|r|..];
  }

  // ---------------------------------------------------------------------
  // Grouping: an insertion-ordered association list from keys to counts.

  datatype Tallied<K> = Tallied(key: K, count: int)

  predicate KeysDistinct<K(==)>(e: seq<Tallied<K>>)
  {
    forall i, j :: 0 <= i < j < |e| ==> e[i].key != e[j].key
  }

  function SumCounts<K>(e: seq<Tallied<K>>): int
  {
    if |e| == 0 then 0 else e[0].count + SumCounts(e[1..])
  }

  /** Position of key k, if present. */
  function IndexOfKey<K(==)>(e: seq<Tallied<K>>, k: K): (r: Option<nat>)
    ensures r.Some? ==> r.value < |e| && e[r.value].key == k
    ensures r.None? ==> forall i :: 0 <= i < |e| ==> e[i].key != k
  {
    if |e| == 0 then None
    else if e[0].key == k then Some(0)
    else match IndexOfKey(e[1..], k)
      case Some(i) => Some(i + 1)
      case None => None
  }

  /** One `map.set(k, (map.get(k) || 0) + 1)`: an existing key keeps its
      place, a new key goes last. */
  function Bump<K(==)>(e: seq<Tallied<K>>, k: K): seq<Tallied<K>>
  {
    match IndexOfKey(e, k)
    case Some(i) => e[i := Tallied(k, e[i].count + 1)]
    case None => e + [Tallied(k, 1)]
  }

  /** Counts of each distinct key of s, in order of first occurrence. */
  function Tally<K(==)>(s: seq<K>): seq<Tallied<K>>
  {
    if |s| == 0 then [] else Bump(Tally(s[..|s| - 1]), s[|s| - 1])
  }

  lemma TallySnoc<K>(s: seq<K>, x: K)
    ensures Tally(s + [x]) == Bump(Tally(s), x)
  {
    assert (s + [x])[..|s|] == s;
  }

  function KeysOf<K>(e: seq<Tallied<K>>): (ks: seq<K>)
    ensures |ks| == |e|
    ensures forall i :: 0 <= i < |e| ==> ks[i] == e[i].key
  {
    seq(|e|, i requires 0 <= i < |e| => e[i].key)
  }

  function CountRank<K>(e: Tallied<K>): int
  {
    e.count
  }

  lemma {:induction false} SumCountsAppend<K>(e: seq<Tallied<K>>, t: Tallied<K>)
    ensures SumCounts(e + [t]) == SumCounts(e) + t.count
  {
    if |e| == 0 {
      assert (e + [t])[1..] == [];
    } else {
      assert (e + [t])[1..] == e[1..] + [t];
      SumCountsAppend(e[1..], t);
    }
  }

  lemma {:induction false} SumCountsUpdate<K>(e: seq<Tallied<K>>, i: nat, t: Tallied<K>)
    requires i < |e|
    ensures SumCounts(e[i := t]) == SumCounts(e) - e[i].count + t.count
  {
    if i == 0 {
      assert e[i := t][1..] == e[1..];
    } else {
      assert e[i := t][1..] == e[1..][i - 1 := t];
      SumCountsUpdate(e[1..], i - 1, t);
    }
  }

  lemma BumpFacts<K>(e: seq<Tallied<K>>, x: K)
    requires KeysDistinct(e)
    ensures var t := Bump(e, x);
      && KeysDistinct(t)
      && SumCounts(t) == SumCounts(e) + 1
      && |e| <= |t| <= |e| + 1
      && (forall j :: 0 <= j < |e| ==>
            t[j].key == e[j].key && t[j].count == e[j].count + (if e[j].key == x then 1 else 0))
      && (|t| == |e| + 1 ==> t[|e|] == Tallied(x, 1) && forall j :: 0 <= j < |e| ==> e[j].key != x)
      && IndexOfKey(t, x).Some?
  {
    match IndexOfKey(e, x)
    case Some(i) =>
      SumCountsUpdate(e, i, Tallied(x, e[i].count + 1));
      assert Bump(e, x)[i].key == x;
    case None =>
      SumCountsAppend(e, Tallied(x, 1));
      assert Bump(e, x)[|e|].key == x;
  }

  /** What a tally is: one entry per distinct key of s, carrying that key's
      number of occurrences, the counts adding up to |s|. */
  lemma {:induction false} TallyFacts<K>(s: seq<K>)
    ensures KeysDistinct(Tally(s))
    ensures SumCounts(Tally(s)) == |s|
    ensures forall i :: 0 <= i < |Tally(s)| ==>
      Tally(s)[i].key in s && Tally(s)[i].count == Count(s, Tally(s)[i].key) >= 1
    ensures forall k :: k in s ==> IndexOfKey(Tally(s), k).Some?
  {
    if |s| > 0 {
      var p, x := s[..|s| - 1], s[|s| - 1];
      assert s == p + [x];
      TallyFacts(p);
      var e := Tally(p);
      var t := Tally(s);
      assert t == Bump(e, x);
      BumpFacts(e, x);
      forall j | 0 <= j < |t|
        ensures t[j].key in s && t[j].count == Count(s, t[j].key) >= 1
      {
        if j == |e| {
          assert x !in p;
        }
      }
      forall k | k in s ensures IndexOfKey(t, k).Some? {
        if k != x {
          var j := IndexOfKey(e, k).value;
          assert t[j].key == k;
        }
      }
    }
  }

  // ---------------------------------------------------------------------
  // Stable sort, highest rank first (Array.prototype.sort with a comparator
  // `(a, b) => rank(b) - rank(a)`, and one admissible order for SQL ORDER BY
  // ... DESC, whose order among ties SQLite leaves open).

  predicate SortedDesc<T>(s: seq<T>, rank: T -> int)
  {
    forall i, j :: 0 <= i < j < |s| ==> rank(s[i]) >= rank(s[j])
  }

  /** x goes before the first element ranked no higher, so it stays ahead of
      the elements it ties with. */
  function InsertDesc<T>(x: T, s: seq<T>, rank: T -> int): seq<T>
  {
    if |s| == 0 || rank(s[0]) <= rank(x) then [x] + s
    else [s[0]] + InsertDesc(x, s[1..], rank)
  }

  function SortDesc<T>(s: seq<T>, rank: T -> int): seq<T>
  {
    if |s| == 0 then [] else InsertDesc(s[0], SortDesc(s[1..], rank), rank)
  }

  lemma {:induction false} InsertDescPerm<T>(x: T, s: seq<T>, rank: T -> int)
    ensures multiset(InsertDesc(x, s, rank)) == multiset(s) + multiset{x}
  {
    if |s| > 0 && rank(s[0]) > rank(x) {
      InsertDescPerm(x, s[1..], rank);
      assert s == [s[0]] + s[1..];
    }
  }

  predicate RankedAtMost<T>(s: seq<T>, v: int, rank: T -> int)
  {
    forall j :: 0 <= j < |s| ==> rank(s[j]) <= v
  }

  /** An element ranked at least as high as a sorted sequence can lead it. */
  lemma SortedCons<T>(a: T, r: seq<T>, rank: T -> int)
    requires SortedDesc(r, rank) && RankedAtMost(r, rank(a), rank)
    ensures SortedDesc([a] + r, rank)
  {
    var c := [a] + r;
    forall i, j | 0 <= i < j < |c| ensures rank(c[i]) >= rank(c[j]) {
      assert c[j] == r[j - 1];
      if i > 0 {
        assert c[i] == r[i - 1];
      }
    }
  }

  lemma {:induction false} InsertDescBounded<T>(x: T, s: seq<T>, v: int, rank: T -> int)
    requires RankedAtMost(s, v, rank) && rank(x) <= v
    ensures RankedAtMost(InsertDesc(x, s, rank), v, rank)
  {
    if |s| > 0 && rank(s[0]) > rank(x) {
      InsertDescBounded(x, s[1..], v, rank);
      var r := InsertDesc(x, s[1..], rank);
      assert forall j :: 0 < j < |r| + 1 ==> ([s[0]] + r)[j] == r[j - 1];
    }
  }

  lemma {:induction false} InsertDescSorted<T>(x: T, s: seq<T>, rank: T -> int)
    requires SortedDesc(s, rank)
    ensures SortedDesc(InsertDesc(x, s, rank), rank)
  {
    if |s| > 0 && rank(s[0]) > rank(x) {
      var tail := s[1..];
      InsertDescSorted(x, tail, rank);
      assert forall j :: 0 <= j < |tail| ==> tail[j] == s[j + 1];
      InsertDescBounded(x, tail, rank(s[0]), rank);
      SortedCons(s[0], InsertDesc(x, tail, rank), rank);
    } else {
      SortedCons(x, s, rank);
    }
  }

  /** The sort yields a permutation of its input, ordered by rank. */
  lemma {:induction false} SortDescFacts<T>(s: seq<T>, rank: T -> int)
    ensures SortedDesc(SortDesc(s, rank), rank)
    ensures multiset(SortDesc(s, rank)) == multiset(s)
    ensures |SortDesc(s, rank)| == |s|
    ensures forall x :: x in SortDesc(s, rank) <==> x in s
  {
    if |s| > 0 {
      SortDescFacts(s[1..], rank);
      InsertDescSorted(s[0], SortDesc(s[1..], rank), rank);
      InsertDescPerm(s[0], SortDesc(s[1..], rank), rank);
      assert s == [s[0]] + s[1..];
    }
    var r := SortDesc(s, rank);
    assert |r| == |multiset(r)| == |multiset(s)| == |s|;
    forall x ensures x in r <==> x in s {
      assert x in r <==> x in multiset(r);
    }
  }

  lemma KeysDistinctCons<K>(a: Tallied<K>, r: seq<Tallied<K>>)
    ensures KeysDistinct([a] + r) <==> (forall y :: y in r ==> y.key != a.key) && KeysDistinct(r)
  {
    var s := [a] + r;
    if KeysDistinct(s) {
      forall y | y in r ensures y.key != a.key {
        var k :| 0 <= k < |r| && r[k] == y;
        assert s[0] == a && s[k + 1] == y;
      }
      forall i, j | 0 <= i < j < |r| ensures r[i].key != r[j].key {
        assert s[i + 1] == r[i] && s[j + 1] == r[j];
      }
    }
    if (forall y :: y in r ==> y.key != a.key) && KeysDistinct(r) {
      forall i, j | 0 <= i < j < |s| ensures s[i].key != s[j].key {
        if i == 0 {
          assert s[j] == r[j - 1];
        } else {
          assert s[i] == r[i - 1] && s[j] == r[j - 1];
        }
      }
    }
  }

  lemma {:induction false} InsertDescKeys<K>(x: Tallied<K>, s: seq<Tallied<K>>, rank: Tallied<K> -> int)
    requires KeysDistinct(s)
    requires forall y :: y in s ==> y.key != x.key
    ensures KeysDistinct(InsertDesc(x, s, rank))
    ensures SumCounts(InsertDesc(x, s, rank)) == x.count + SumCounts(s)
  {
    if |s| == 0 || rank(s[0]) <= rank(x) {
      assert InsertDesc(x, s, rank) == [x] + s;
      KeysDistinctCons(x, s);
    } else {
      var r := InsertDesc(x, s[1..], rank);
      assert s == [s[0]] + s[1..];
      KeysDistinctCons(s[0], s[1..]);
      InsertDescKeys(x, s[1..], rank);
      InsertDescPerm(x, s[1..], rank);
      forall y | y in r ensures y.key != s[0].key {
        assert y in multiset(r);
      }
      assert InsertDesc(x, s, rank) == [s[0]] + r;
      KeysDistinctCons(s[0], r);
    }
  }

  /** Sorting a tally keeps its keys distinct and its total. */
  lemma {:induction false} SortTallyFacts<K>(e: seq<Tallied<K>>, rank: Tallied<K> -> int)
    requires KeysDistinct(e)
    ensures KeysDistinct(SortDesc(e, rank))
    ensures SumCounts(SortDesc(e, rank)) == SumCounts(e)
  {
    if |e| > 0 {
      assert e == [e[0]] + e[1..];
      KeysDistinctCons(e[0], e[1..]);
      SortTallyFacts(e[1..], rank);
      SortDescFacts(e[1..], rank);
      InsertDescKeys(e[0], SortDesc(e[1..], rank), rank);
    }
  }

  /** A tally in any sorted order is still a tally: one entry per distinct
      key, each with its number of occurrences. */
  lemma SortedTallyFacts<K>(keys: seq<K>, rank: Tallied<K> -> int)
    ensures var r := SortDesc(Tally(keys), rank);
      && KeysDistinct(r) && SortedDesc(r, rank) && SumCounts(r) == |keys|
      && (forall i :: 0 <= i < |r| ==> r[i].key in keys && r[i].count == Count(keys, r[i].key) >= 1)
      && (forall k :: k in keys <==> k in KeysOf(r))
  {
    var t := Tally(keys);
    TallyFacts(keys);
    SortTallyFacts(t, rank);
    SortDescFacts(t, rank);
    SameEntries(keys, t, SortDesc(t, rank));
  }

  lemma SameEntries<K>(keys: seq<K>, t: seq<Tallied<K>>, r: seq<Tallied<K>>)
    requires t == Tally(keys)
    requires forall x :: x in r <==> x in t
    ensures forall i :: 0 <= i < |r| ==> r[i].key in keys && r[i].count == Count(keys, r[i].key) >= 1
    ensures forall k :: k in keys <==> k in KeysOf(r)
  {
    TallyFacts(keys);
    forall i | 0 <= i < |r| ensures r[i].key in keys && r[i].count == Count(keys, r[i].key) >= 1 {
      assert r[i] in r;
      var j :| 0 <= j < |t| && t[j] == r[i];
    }
    forall k | k in keys ensures k in KeysOf(r) {
      var j := IndexOfKey(t, k).value;
      assert t[j] in t;
      var i :| 0 <= i < |r| && r[i] == t[j];
      assert KeysOf(r)[i] == k;
    }
    forall k | k in KeysOf(r) ensures k in keys {
      var i :| 0 <= i < |r| && KeysOf(r)[i] == k;
    }
  }

  /** SQL `GROUP BY key ORDER BY COUNT(*) DESC LIMIT limit` over the grouped
      column: distinct keys, most played first, each with its exact count. */
  function TopCounts<K(==)>(keys: seq<K>, limit: int): (r: seq<Tallied<K>>)
    ensures KeysDistinct(r)
    ensures SortedDesc(r, CountRank)
    ensures 0 <= limit ==> |r| <= limit
    ensures forall i :: 0 <= i < |r| ==> r[i].key in keys && r[i].count == Count(keys, r[i].key) >= 1
    ensures SumCounts(r) <= |keys|
    ensures limit < 0 ==> SumCounts(r) == |keys| && forall k :: k in keys ==> k in KeysOf(r)
    ensures |r| == if 0 <= limit < |Elems(keys)| then limit else |Elems(keys)|
    ensures |r| > 0 ==> forall k :: k in keys && Count(keys, k) > r[|r| - 1].count ==> k in KeysOf(r)
  {
    var sorted := SortDesc(Tally(keys), CountRank);
    SortedTallyFacts(keys, CountRank);
    LimitTallied(keys, sorted, limit);
    DistinctKeysCount(keys, sorted);
    PrefixTop(keys, sorted, |Limit(sorted, limit)|);
    Limit(sorted, limit)
  }

  /** A tally has as many entries as there are distinct keys. */
  lemma DistinctKeysCount<K>(keys: seq<K>, t: seq<Tallied<K>>)
    requires KeysDistinct(t)
    requires forall k :: k in keys <==> k in KeysOf(t)
    ensures |t| == |Elems(keys)|
  {
    assert Elems(keys) == Elems(KeysOf(t));
    DistinctElems(KeysOf(t));
  }

  /** A sequence without repetitions has as many elements as it is long. */
  lemma {:induction false} DistinctElems<T>(s: seq<T>)
    requires forall i, j :: 0 <= i < j < |s| ==> s[i] != s[j]
    ensures |Elems(s)| == |s|
  {
    if |s| > 0 {
      var p := s[..|s| - 1];
      assert s == p + [s[|s| - 1]];
      assert Elems(s) == Elems(p) + {s[|s| - 1]};
      assert s[|s| - 1] !in Elems(p);
      DistinctElems(p);
    }
  }

  /** The first n entries of a sorted tally hold every key counted more
      often than the n-th. */
  lemma PrefixTop<K>(keys: seq<K>, sorted: seq<Tallied<K>>, n: nat)
    requires SortedDesc(sorted, CountRank) && n <= |sorted|
    requires forall i :: 0 <= i < |sorted| ==> sorted[i].count == Count(keys, sorted[i].key)
    requires forall k :: k in keys <==> k in KeysOf(sorted)
    ensures 0 < n ==> forall k :: k in keys && Count(keys, k) > sorted[n - 1].count ==> k in KeysOf(sorted[..n])
  {
    SortedPrefixTop(sorted, n, CountRank);
    forall k | 0 < n && k in keys && Count(keys, k) > sorted[n - 1].count ensures k in KeysOf(sorted[..n]) {
      var i :| 0 <= i < |sorted| && KeysOf(sorted)[i] == k;
      assert sorted[i] in sorted && CountRank(sorted[i]) > CountRank(sorted[n - 1]);
      var j :| 0 <= j < n && sorted[..n][j] == sorted[i];
      assert KeysOf(sorted[..n])[j] == k;
    }
  }

  /** Truncating a sorted tally keeps its entries exact and its order. */
  lemma LimitTallied<K>(keys: seq<K>, sorted: seq<Tallied<K>>, limit: int)
    requires KeysDistinct(sorted) && SortedDesc(sorted, CountRank) && SumCounts(sorted) == |keys|
    requires forall i :: 0 <= i < |sorted| ==> sorted[i].key in keys && sorted[i].count == Count(keys, sorted[i].key) >= 1
    requires forall k :: k in keys <==> k in KeysOf(sorted)
    ensures var r := Limit(sorted, limit);
      && KeysDistinct(r) && SortedDesc(r, CountRank)
      && (0 <= limit ==> |r| <= limit)
      && (forall i :: 0 <= i < |r| ==> r[i].key in keys && r[i].count == Count(keys, r[i].key) >= 1)
      && SumCounts(r) <= |keys|
      && (limit < 0 ==> SumCounts(r) == |keys| && forall k :: k in keys ==> k in KeysOf(r))
  {
    PrefixTallied(keys, sorted, Limit(sorted, limit));
  }

  /** The first n entries of a tally sorted by count: distinct keys in
      descending order with their exact counts, and every key counted more
      often than the last of them is among them. */
  lemma TopTallyPrefix<K>(keys: seq<K>, n: nat)
    requires n <= |SortDesc(Tally(keys), CountRank)|
    ensures |SortDesc(Tally(keys), CountRank)| == |Elems(keys)|
    ensures var r := SortDesc(Tally(keys), CountRank)[..n];
      && KeysDistinct(r) && SortedDesc(r, CountRank)
      && (forall i :: 0 <= i < |r| ==> r[i].key in keys && r[i].count == Count(keys, r[i].key) >= 1)
      && SumCounts(r) <= |keys|
      && (0 < n ==> forall k :: k in keys && Count(keys, k) > r[n - 1].count ==> k in KeysOf(r))
  {
    var sorted := SortDesc(Tally(keys), CountRank);
    SortedTallyFacts(keys, CountRank);
    PrefixTallied(keys, sorted, sorted[..n]);
    DistinctKeysCount(keys, sorted);
    PrefixTop(keys, sorted, n);
  }

  /** Any prefix of a sorted tally is distinct, ordered, exact and counts
      no more than the whole. */
  lemma PrefixTallied<K>(keys: seq<K>, sorted: seq<Tallied<K>>, r: seq<Tallied<K>>)
    requires r <= sorted
    requires KeysDistinct(sorted) && SortedDesc(sorted, CountRank) && SumCounts(sorted) == |keys|
    requires forall i :: 0 <= i < |sorted| ==> sorted[i].key in keys && sorted[i].count == Count(keys, sorted[i].key) >= 1
    ensures KeysDistinct(r) && SortedDesc(r, CountRank)
    ensures forall i :: 0 <= i < |r| ==> r[i].key in keys && r[i].count == Count(keys, r[i].key) >= 1
    ensures SumCounts(r) <= |keys|
  {
    PrefixFacts(sorted, r, CountRank);
    assert forall i :: 0 <= i < |r| ==> r[i] == sorted[i];
    SumCountsPrefix(sorted, |r|);
  }

  // ---------------------------------------------------------------------
  // Truncation.

  /** SQLite `LIMIT n`: a negative limit means no limit. */
  function Limit<T>(s: seq<T>, n: int): (r: seq<T>)
    ensures r <= s
    ensures |r| == if 0 <= n < |s| then n else |s|
  {
    if 0 <= n < |s| then s[..n] else s
  }

  /** The first n of a sorted sequence are its n highest ranked: nothing
      ranked above the last one kept is left out. */
  lemma SortedPrefixTop<T>(s: seq<T>, n: nat, rank: T -> int)
    requires SortedDesc(s, rank)
    requires n <= |s|
    ensures 0 < n ==> forall x :: x in s && rank(x) > rank(s[n - 1]) ==> x in s[..n]
  {
    forall x | 0 < n && x in s && rank(x) > rank(s[n - 1]) ensures x in s[..n] {
      var j :| 0 <= j < |s| && s[j] == x;
      assert j < n;
      assert s[..n][j] == x;
    }
  }

  lemma {:induction false} SumCountsPrefix<K>(e: seq<Tallied<K>>, n: nat)
    requires n <= |e|
    requires forall i :: 0 <= i < |e| ==> e[i].count >= 0
    ensures SumCounts(e[..n]) <= SumCounts(e)
  {
    if n > 0 {
      assert e[..n][1..] == e[1..][..n - 1];
      SumCountsPrefix(e[1..], n - 1);
    } else if |e| > 0 {
      SumCountsNonNegative(e[1..]);
    }
  }

  lemma {:induction false} SumCountsNonNegative<K>(e: seq<Tallied<K>>)
    requires forall i :: 0 <= i < |e| ==> e[i].count >= 0
    ensures SumCounts(e) >= 0
  {
    if |e| > 0 {
      SumCountsNonNegative(e[1..]);
    }
  }

  /** Resolves a relative index of Array.prototype.slice against a length. */
  function SliceIndex(rel: int, len: nat): (k: nat)
    ensures k <= len
    ensures 0 <= rel ==> k == if rel < len then rel else len
  {
    if rel < 0 then (if len + rel < 0 then 0 else len + rel)
    else if rel < len then rel else len
  }

  /** Array.prototype.slice(start, end). */
  function JsSlice<T>(s: seq<T>, start: int, end: int): (r: seq<T>)
  {
    var from, to := SliceIndex(start, |s|), SliceIndex(end, |s|);
    if from < to then s[from..to] else []
  }

  /** `slice(0, end)` is a prefix: `end` elements when it is in range, the
      whole sequence past its end, and all but the last -end for a negative
      end. */
  lemma JsSliceFromStart<T>(s: seq<T>, end: int)
    ensures JsSlice(s, 0, end) == s[..SliceIndex(end, |s|)]
  {
  }

  /** For non-negative arguments, `slice(offset, offset + limit)` is the
      window of at most `limit` elements starting at `offset`. */
  lemma JsSliceWindow<T>(s: seq<T>, offset: int, limit: int)
    requires offset >= 0 && limit >= 0
    ensures var r := JsSlice(s, offset, offset + limit);
      && |r| == (if limit < |s| - offset then limit else if offset < |s| then |s| - offset else 0)
      && forall i :: 0 <= i < |r| ==> r[i] == s[offset + i]
  {
  }
}
