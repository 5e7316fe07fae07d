/** Space in leaf pages: what in-place updates and count-based splits do to it. */
module KvTreeSpace {
  import opened Sequences
  import opened KvKeys
  import opened KvTree

  /** The entry table and the data region do not meet, and the data region holds every pair; what it holds
      beyond them is dead space. */
  ghost predicate Sized(pageSize: nat, t: Tree)
    requires t.Leaf?
  {
    && LeafTableEnd(|t.entries|) <= t.dataEnd
    && t.dataEnd + TotalSize(t.entries) <= pageSize
  }

  lemma {:induction false} TotalSizeConcat(a: seq<Pair>, b: seq<Pair>)
    ensures TotalSize(a + b) == TotalSize(a) + TotalSize(b)
    decreases |b|
  {
    if b == [] {
      ConcatEmpty(a);
    } else {
      ConcatFront(a, b);
      TotalSizeConcat(a, b[..|b| - 1]);
    }
  }

  lemma TotalSizeOne(p: Pair)
    ensures TotalSize([p]) == PairSize(p)
  {
    FrontOfOne(p);
  }

  lemma TotalSizeTwo(p: Pair, q: Pair)
    ensures TotalSize([p, q]) == PairSize(p) + PairSize(q)
  {
    assert [p] + [q] == [p, q];
    TotalSizeConcat([p], [q]);
    TotalSizeOne(p);
    TotalSizeOne(q);
  }

  lemma TotalSizeThree(a: seq<Pair>, p: Pair, b: seq<Pair>)
    ensures TotalSize(a + [p] + b) == TotalSize(a) + PairSize(p) + TotalSize(b)
  {
    TotalSizeConcat(a + [p], b);
    TotalSizeConcat(a, [p]);
    TotalSizeOne(p);
  }

  lemma TotalSizeAround(es: seq<Pair>, i: nat)
    requires i < |es|
    ensures TotalSize(es) == TotalSize(es[..i]) + PairSize(es[i]) + TotalSize(es[i + 1..])
  {
    SplitAround(es, i);
    TotalSizeThree(es[..i], es[i], es[i + 1..]);
  }

  lemma TotalSizeSplit(es: seq<Pair>, i: nat)
    requires i <= |es|
    ensures TotalSize(es) == TotalSize(es[..i]) + TotalSize(es[i..])
  {
    SplitAt(es, i);
    TotalSizeConcat(es[..i], es[i..]);
  }

  lemma TotalSizeGrows(es: seq<Pair>, i: nat)
    requires i < |es|
    ensures TotalSize(es[..i + 1]) == TotalSize(es[..i]) + PairSize(es[i]) <= TotalSize(es)
  {
    TakeTake(es, i, i + 1);
    TotalSizeSplit(es, i + 1);
  }

  /** The first pair behind the place where a pair is put. */
  function Behind(es: seq<Pair>, k: Key): (j: nat)
    ensures LowerBound(es, k) <= j <= |es| && j <= LowerBound(es, k) + 1
  {
    var i := LowerBound(es, k);
    if i < |es| && es[i].key == k then i + 1 else i
  }

  /** The two lists around the place where a pair is put. */
  lemma UpsertParts(es: seq<Pair>, k: Key, v: Value)
    ensures Upsert(es, k, v) == es[..LowerBound(es, k)] + [Pair(k, v)] + es[Behind(es, k)..]
  {
    var i := LowerBound(es, k);
    if i < |es| && es[i].key == k {
      UpdateAround(es, i, Pair(k, v));
    }
  }

  lemma UpsertShape(es: seq<Pair>, k: Key, v: Value)
    ensures TotalSize(Upsert(es, k, v))
            == TotalSize(es[..LowerBound(es, k)]) + |k| + |v| + TotalSize(es[Behind(es, k)..])
  {
    UpsertParts(es, k, v);
    TotalSizeThree(es[..LowerBound(es, k)], Pair(k, v), es[Behind(es, k)..]);
  }

  /** In-place insertion keeps the page well sized, dead space included. */
  lemma LeafPutSized(pageSize: nat, t: Tree, k: Key, v: Value)
    requires t.Leaf? && Sized(pageSize, t) && LeafFits(t, k, v)
    ensures Sized(pageSize, LeafPut(t, k, v))
  {
    var i := LowerBound(t.entries, k);
    UpsertShape(t.entries, k, v);
    if i < |t.entries| && t.entries[i].key == k {
      TotalSizeAround(t.entries, i);
    } else {
      TotalSizeSplit(t.entries, i);
    }
  }

  /** Split space bound: if the new pair costs no more than the table entries of half the pairs, both
      halves of the count-based split fit, however much dead space the page had. */
  lemma SplitFits(pageSize: nat, t: Tree, k: Key, v: Value)
    requires t.Leaf? && Sized(pageSize, t)
    requires var n := |Upsert(t.entries, k, v)|;
             n >= 2 && 32 + |k| + |v| <= 32 * (n / 2)
    ensures SplitLeaf(pageSize, Upsert(t.entries, k, v)).Split?
  {
    var es := t.entries;
    var us := Upsert(es, k, v);
    var mid := |us| / 2;
    UpsertParts(es, k, v);
    UpsertTotal(es, us, LowerBound(es, k), Behind(es, k), mid, k, v);
    HalvesFit(pageSize, |es|, TotalSize(es), us, mid, |k| + |v|);
  }

  /** Half of the table rows of the old page make room for the new pair. */
  lemma HalvesFit(pageSize: nat, n: nat, total: nat, us: seq<Pair>, mid: nat, cost: nat)
    requires mid == |us| / 2 && n <= |us| <= n + 1 && 2 <= |us|
    requires LeafTableEnd(n) + total <= pageSize && 32 + cost <= 32 * mid
    requires TotalSize(us[..mid]) + TotalSize(us[mid..]) <= total + cost
    ensures LeafBuilds(pageSize, us[..mid]) && LeafBuilds(pageSize, us[mid..])
  {
  }

  /** Upserting adds at most the new pair. */
  lemma UpsertTotal(es: seq<Pair>, us: seq<Pair>, i: nat, j: nat, mid: nat, k: Key, v: Value)
    requires i <= j <= |es| && j <= i + 1 && mid <= |us|
    requires us == es[..i] + [Pair(k, v)] + es[j..]
    ensures TotalSize(us[..mid]) + TotalSize(us[mid..]) <= TotalSize(es) + |k| + |v|
  {
    TotalSizeSplit(us, mid);
    TotalSizeThree(es[..i], Pair(k, v), es[j..]);
    if j == i {
      TotalSizeSplit(es, i);
    } else {
      TotalSizeAround(es, i);
    }
  }
}
