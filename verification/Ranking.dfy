/** ORDER BY and LIMIT: ranks compare lexicographically, and ties are left open. */
module Ranking {
  import opened Basics

  datatype Rank = Rank(a: int, b: int, c: int, d: int, due: Time, last: Time)

  predicate Less(x: Rank, y: Rank) {
    || x.a < y.a
    || (x.a == y.a && (x.b < y.b
    || (x.b == y.b && (x.c < y.c
    || (x.c == y.c && (x.d < y.d
    || (x.d == y.d && (x.due < y.due
    || (x.due == y.due && x.last < y.last)))))))))
  }

  ghost predicate Distinct<K>(s: seq<K>) {
    forall i, j | 0 <= i < j < |s| :: s[i] != s[j]
  }

  /** k sorts first: nothing in the table sorts strictly before it. */
  predicate Lowest<K(==)>(ranks: map<K, Rank>, k: K) {
    k in ranks && forall o | o in ranks :: !Less(ranks[o], ranks[k])
  }

  /** SELECT ... ORDER BY rank LIMIT n */
  ghost predicate TopOf<K>(ranks: map<K, Rank>, n: nat, picks: seq<K>) {
    && Distinct(picks)
    && (forall k | k in picks :: k in ranks)
    && |picks| == Min(n, |ranks|)
    && (forall i, j | 0 <= i < j < |picks| :: !Less(ranks[picks[j]], ranks[picks[i]]))
    && (forall k, p | k in ranks && k !in picks && p in picks :: !Less(ranks[k], ranks[p]))
  }

  lemma LowestExists<K>(ranks: map<K, Rank>)
    requires ranks != map[]
    ensures exists k :: Lowest(ranks, k)
    decreases |ranks|
  {
    var k :| k in ranks;
    var rest := ranks - {k};
    if rest == map[] {
      assert ranks.Keys == {k} + rest.Keys;
      assert forall o | o in ranks :: o == k;
      assert Lowest(ranks, k);
    } else {
      LowestExists(rest);
      var m :| Lowest(rest, m);
      assert forall o | o in ranks :: o == k || (o in rest && rest[o] == ranks[o]);
      var best := if Less(ranks[k], ranks[m]) then k else m;
      assert Lowest(ranks, best);
    }
  }

  lemma {:induction false} DistinctCount<K>(s: seq<K>)
    requires Distinct(s)
    ensures |set k | k in s| == |s|
  {
    if s != [] {
      var n := |s| - 1;
      DistinctCount(s[..n]);
      assert (set k | k in s) == (set k | k in s[..n]) + {s[n]};
    }
  }

  lemma SubsetOfSameSize<K>(a: set<K>, b: set<K>)
    requires a <= b && |a| == |b|
    ensures a == b
  {
    assert b == a + (b - a);
    assert |b - a| == 0;
  }

  lemma SubsetSize<K>(a: set<K>, b: set<K>)
    requires a <= b
    ensures |a| <= |b|
  {
    assert b == a + (b - a);
  }

  lemma ProperSubsetSize<K>(a: set<K>, b: set<K>)
    requires a < b
    ensures |a| < |b|
  {
    assert b == a + (b - a);
    assert b - a != {};
  }

  /** The picked prefix of an ORDER BY: sorted, and nothing left sorts before it. */
  ghost predicate PartlyPicked<K>(ranks: map<K, Rank>, left: map<K, Rank>, picks: seq<K>) {
    && Distinct(picks)
    && (forall k | k in picks :: k in ranks)
    && (forall k | k in left :: k in ranks && k !in picks && left[k] == ranks[k])
    && (forall k | k in ranks && k !in picks :: k in left)
    && |left| + |picks| == |ranks|
    && (forall i, j | 0 <= i < j < |picks| :: !Less(ranks[picks[j]], ranks[picks[i]]))
    && (forall k, p | k in left && p in picks :: !Less(ranks[k], ranks[p]))
  }

  lemma PickNext<K>(ranks: map<K, Rank>, left: map<K, Rank>, picks: seq<K>, k: K)
    requires PartlyPicked(ranks, left, picks) && Lowest(left, k)
    ensures PartlyPicked(ranks, left - {k}, picks + [k])
  {
    var rest := left - {k};
    assert left.Keys == rest.Keys + {k};
    assert |left| == |left.Keys| && |rest| == |rest.Keys|;
    PickSorts(ranks, left, picks, k);
  }

  lemma PickSorts<K>(ranks: map<K, Rank>, left: map<K, Rank>, picks: seq<K>, k: K)
    requires PartlyPicked(ranks, left, picks) && k in left
    ensures var more := picks + [k];
            && Distinct(more) && (forall o | o in more :: o in ranks)
            && forall i, j | 0 <= i < j < |more| :: !Less(ranks[more[j]], ranks[more[i]])
  {
    var more := picks + [k];
    forall i, j | 0 <= i < j < |more| ensures more[i] != more[j] && !Less(ranks[more[j]], ranks[more[i]]) {
      if j == |picks| { assert more[i] in picks; }
    }
  }

  lemma TopExists<K>(ranks: map<K, Rank>, n: nat) returns (picks: seq<K>)
    ensures TopOf(ranks, n, picks)
  {
    picks := [];
    var left := ranks;
    while |picks| < n && left != map[]
      invariant PartlyPicked(ranks, left, picks) && |picks| <= n
      decreases n - |picks|
    {
      LowestExists(left);
      var k :| Lowest(left, k);
      PickNext(ranks, left, picks, k);
      left := left - {k};
      picks := picks + [k];
    }
  }

  /** ORDER BY ... LIMIT 1 */
  method LowestRow<K(==)>(ranks: map<K, Rank>) returns (k: K)
    requires ranks != map[]
    ensures Lowest(ranks, k)
  {
    k :| k in ranks;
    var left := ranks.Keys - {k};
    while left != {}
      invariant k in ranks && left <= ranks.Keys && k !in left
      invariant forall o | o in ranks && o !in left :: !Less(ranks[o], ranks[k])
      decreases |left|
    {
      var o :| o in left;
      left := left - {o};
      if Less(ranks[o], ranks[k]) { k := o; }
    }
  }

  /** ORDER BY ... LIMIT n */
  method TopRows<K(==)>(ranks: map<K, Rank>, n: nat) returns (picks: seq<K>)
    ensures TopOf(ranks, n, picks)
  {
    picks := [];
    var left := ranks;
    while |picks| < n && left != map[]
      invariant PartlyPicked(ranks, left, picks) && |picks| <= n
      decreases n - |picks|
    {
      var k := LowestRow(left);
      PickNext(ranks, left, picks, k);
      left := left - {k};
      picks := picks + [k];
    }
  }
}
