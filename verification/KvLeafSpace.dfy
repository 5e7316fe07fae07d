/** Disjoint regions cannot hold more than the page: what is known about the space of leaves as values holds
    of their bytes. */
module KvLeafSpace {
  import opened KvKeys
  import opened KvTree
  import opened KvTreeSpace
  import opened KvLeafBytes

  ghost predicate Between(a: int, x: int, b: int) {
    a <= x < b
  }

  ghost function Interval(a: int, b: int): set<int> {
    set x | a <= x < b && Between(a, x, b)
  }

  lemma {:induction false} IntervalSize(a: int, b: int)
    requires a <= b
    ensures |Interval(a, b)| == b - a
    decreases b - a
  {
    if a < b {
      IntervalSize(a, b - 1);
      assert Interval(a, b) == Interval(a, b - 1) + {b - 1};
    }
  }

  ghost function Region(m: Meta): set<int> {
    Interval(m.keyOffset, m.valueOffset + m.valueSize)
  }

  /** The positions that some regions occupy. */
  ghost function Covered(ms: seq<Meta>): set<int> {
    if ms == [] then {} else Covered(ms[..|ms| - 1]) + Region(ms[|ms| - 1])
  }

  ghost function Occupied(ms: seq<Meta>): int {
    if ms == [] then 0 else Occupied(ms[..|ms| - 1]) + RegionSize(ms[|ms| - 1])
  }

  ghost function RegionSize(m: Meta): int {
    m.valueOffset + m.valueSize - m.keyOffset
  }

  ghost predicate Packed(ms: seq<Meta>, end: nat, size: nat) {
    && (forall i :: 0 <= i < |ms| ==> Placed(ms[i], end, size))
    && (forall i, j :: 0 <= i < j < |ms| ==> Disjoint(ms[i], ms[j]))
  }

  lemma {:induction false} RegionsApart(m: Meta, n: Meta)
    requires Disjoint(m, n)
    ensures Region(m) !! Region(n)
  {
  }

  lemma {:induction false} RegionInside(m: Meta, end: nat, size: nat)
    requires Placed(m, end, size)
    ensures Region(m) <= Interval(end, size) && |Region(m)| == RegionSize(m)
  {
    IntervalSize(m.keyOffset, m.valueOffset + m.valueSize);
  }

  lemma {:induction false} CoveredApart(ms: seq<Meta>, m: Meta)
    requires forall i :: 0 <= i < |ms| ==> Disjoint(ms[i], m)
    ensures Covered(ms) !! Region(m)
  {
    if ms != [] {
      CoveredApart(ms[..|ms| - 1], m);
      RegionsApart(ms[|ms| - 1], m);
    }
  }

  /** Disjoint regions occupy as much as their sizes say. */
  lemma {:induction false} CoveredSize(ms: seq<Meta>, end: nat, size: nat)
    requires Packed(ms, end, size)
    ensures |Covered(ms)| == Occupied(ms) && Covered(ms) <= Interval(end, size)
  {
    if ms != [] {
      var front, last := ms[..|ms| - 1], ms[|ms| - 1];
      CoveredSize(front, end, size);
      CoveredApart(front, last);
      RegionInside(last, end, size);
      UnionSize(Covered(front), Region(last));
    }
  }

  lemma {:induction false} UnionSize(a: set<int>, b: set<int>)
    requires a !! b
    ensures |a + b| == |a| + |b|
  {
  }

  ghost function Metas(c: Codec, p: Bytes): seq<Meta>
    requires Formed(c, p)
  {
    seq(Count(c, p), i requires 0 <= i < Count(c, p) => MetaAt(c, p, i))
  }

  lemma {:induction false} OccupiedIsTotal(ms: seq<Meta>, es: seq<Pair>)
    requires |ms| == |es| && forall i :: 0 <= i < |ms| ==> RegionSize(ms[i]) == PairSize(es[i])
    ensures Occupied(ms) == TotalSize(es)
  {
    if ms != [] {
      OccupiedIsTotal(ms[..|ms| - 1], es[..|es| - 1]);
    }
  }

  lemma {:induction false} EntrySize(c: Codec, p: Bytes, i: nat)
    requires Formed(c, p) && i < Count(c, p)
    ensures RegionSize(Metas(c, p)[i]) == PairSize(Entries(c, p)[i])
  {
    assert Placed(MetaAt(c, p, i), End(c, p), |p|);
  }

  /** Every well-formed page is well sized, dead space included. */
  lemma {:induction false} FormedIsSized(c: Codec, p: Bytes)
    requires Formed(c, p)
    ensures Sized(|p|, LeafOfBytes(c, p))
  {
    var ms, es := Metas(c, p), Entries(c, p);
    forall i | 0 <= i < |ms|
      ensures RegionSize(ms[i]) == PairSize(es[i])
    {
      EntrySize(c, p, i);
    }
    OccupiedIsTotal(ms, es);
    CoveredSize(ms, End(c, p), |p|);
    IntervalSize(End(c, p), |p|);
    Contained(Covered(ms), Interval(End(c, p), |p|));
  }

  lemma {:induction false} Contained(a: set<int>, b: set<int>)
    requires a <= b
    ensures |a| <= |b|
  {
    assert b == a + (b - a);
  }

  /** Where in-place insertion is possible, so is rebuilding the page with the same pairs, and both give the
      same list. */
  lemma {:induction false} InPlaceMatchesRebuild(c: Codec, p: Bytes, k: Key, v: Value)
    requires Formed(c, p) && LeafFits(LeafOfBytes(c, p), k, v)
    ensures LeafBuilds(|p|, Upsert(Entries(c, p), k, v))
    ensures LeafPut(LeafOfBytes(c, p), k, v).entries == BuildLeaf(|p|, Upsert(Entries(c, p), k, v)).entries
  {
    FormedIsSized(c, p);
    LeafPutSized(|p|, LeafOfBytes(c, p), k, v);
  }

  /** Split space bound, for the bytes: if the new pair costs no more than the table rows of half the pairs,
      both halves of the split fit into pages of the same size. */
  lemma {:induction false} SplitFitsPage(c: Codec, p: Bytes, k: Key, v: Value)
    requires Formed(c, p)
    requires var n := |Upsert(Entries(c, p), k, v)|;
             n >= 2 && 32 + |k| + |v| <= 32 * (n / 2)
    ensures SplitLeaf(|p|, Upsert(Entries(c, p), k, v)).Split?
  {
    FormedIsSized(c, p);
    SplitFits(|p|, LeafOfBytes(c, p), k, v);
  }
}
