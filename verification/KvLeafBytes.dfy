/** The bytes of a leaf page: a header, a table of entries that grows upward, and the keys and values, which
    grow downward from the end of the page. */
module KvLeafBytes {
  import opened Sequences
  import opened KvKeys
  import opened KvTree

  // ----- Numbers -----

  const U64_LIMIT: nat := 0x1_0000_0000_0000_0000

  /** How the 64-bit fields of a page are written and read. */
  datatype Codec = Codec(put: nat -> Bytes, get: Bytes -> nat)

  /** Fields are eight bytes wide, and reading gives back what was written. */
  ghost predicate CodecOk(c: Codec) {
    && (forall n: nat {:trigger c.put(n)} :: |c.put(n)| == 8)
    && (forall n: nat {:trigger c.put(n)} :: n < U64_LIMIT ==> c.get(c.put(n)) == n)
  }

  // ----- Table entries -----

  datatype Meta = Meta(keySize: nat, keyOffset: nat, valueSize: nat, valueOffset: nat)

  function EncodeMeta(c: Codec, m: Meta): Bytes {
    c.put(m.keySize) + c.put(m.keyOffset) + c.put(m.valueSize) + c.put(m.valueOffset)
  }

  function DecodeMeta(c: Codec, bs: Bytes): Meta
    requires |bs| == LEAF_ENTRY
  {
    Meta(c.get(bs[0..8]), c.get(bs[8..16]), c.get(bs[16..24]), c.get(bs[24..32]))
  }

  lemma {:induction false} MetaRoundTrip(c: Codec, m: Meta)
    requires CodecOk(c) && m.keySize < U64_LIMIT && m.keyOffset < U64_LIMIT && m.valueSize < U64_LIMIT
             && m.valueOffset < U64_LIMIT
    ensures |EncodeMeta(c, m)| == LEAF_ENTRY && DecodeMeta(c, EncodeMeta(c, m)) == m
  {
    FourWords(c.put(m.keySize), c.put(m.keyOffset), c.put(m.valueSize), c.put(m.valueOffset));
  }

  lemma {:induction false} FourWords(a: Bytes, b: Bytes, c: Bytes, d: Bytes)
    requires |a| == |b| == |c| == |d| == 8
    ensures var bs := a + b + c + d;
            |bs| == 32 && bs[0..8] == a && bs[8..16] == b && bs[16..24] == c && bs[24..32] == d
  {
  }

  // ----- The page -----

  const KIND_AT: nat := 0
  const COUNT_AT: nat := 8
  const END_AT: nat := 16
  const LEAF_KIND: nat := 0

  function TableAt(i: nat): nat {
    LeafTableEnd(i)
  }

  function Kind(c: Codec, p: Bytes): nat
    requires |p| >= NODE_HEADER
  {
    c.get(p[0..8])
  }

  function Count(c: Codec, p: Bytes): nat
    requires |p| >= NODE_HEADER
  {
    c.get(p[8..16])
  }

  function End(c: Codec, p: Bytes): nat
    requires |p| >= NODE_HEADER
  {
    c.get(p[16..24])
  }

  function RowOf(p: Bytes, i: nat): Bytes
    requires TableAt(i + 1) <= |p|
  {
    p[TableAt(i)..TableAt(i + 1)]
  }

  function MetaAt(c: Codec, p: Bytes, i: nat): Meta
    requires TableAt(i + 1) <= |p|
  {
    DecodeMeta(c, RowOf(p, i))
  }

  /** A pair lies in one piece in the data region. */
  predicate Placed(m: Meta, end: nat, size: nat) {
    end <= m.keyOffset && m.keyOffset + m.keySize == m.valueOffset && m.valueOffset + m.valueSize <= size
  }

  predicate Disjoint(m: Meta, n: Meta) {
    m.valueOffset + m.valueSize <= n.keyOffset || n.valueOffset + n.valueSize <= m.keyOffset
  }

  function PairAt(p: Bytes, m: Meta): Pair
    requires Placed(m, 0, |p|)
  {
    Pair(p[m.keyOffset..m.keyOffset + m.keySize], p[m.valueOffset..m.valueOffset + m.valueSize])
  }

  /** The table lies below the data region, every pair lies inside it, and no two pairs overlap. */
  ghost predicate Formed(c: Codec, p: Bytes) {
    && CodecOk(c) && NODE_HEADER <= |p| < U64_LIMIT && Kind(c, p) == LEAF_KIND
    && TableAt(Count(c, p)) <= End(c, p) <= |p|
    && (forall i {:trigger MetaAt(c, p, i)} :: 0 <= i < Count(c, p) ==> Placed(MetaAt(c, p, i), End(c, p), |p|))
    && (forall i, j {:trigger MetaAt(c, p, i), MetaAt(c, p, j)} :: 0 <= i < j < Count(c, p) ==>
          Disjoint(MetaAt(c, p, i), MetaAt(c, p, j)))
  }

  /** What parsing a page yields. */
  function Entries(c: Codec, p: Bytes): seq<Pair>
    requires Formed(c, p)
  {
    seq(Count(c, p), i requires 0 <= i < Count(c, p) => PairAt(p, MetaAt(c, p, i)))
  }

  ghost function LeafOfBytes(c: Codec, p: Bytes): Tree
    requires Formed(c, p)
  {
    Leaf(Entries(c, p), End(c, p))
  }

  // ----- A new pair -----

  /** What in-place insertion of a new pair at table position `i` leaves behind. */
  ghost predicate Added(c: Codec, p: Bytes, q: Bytes, i: nat, k: Key, v: Value)
    requires Formed(c, p)
  {
    var n, end := Count(c, p), End(c, p);
    && i <= n && |q| == |p| && |k| + |v| <= end && TableAt(n + 1) <= end - |k| - |v|
    && var at := end - |k| - |v|;
       && Kind(c, q) == LEAF_KIND && Count(c, q) == n + 1 && End(c, q) == at
       && (forall x :: end <= x < |p| ==> q[x] == p[x]) && q[at..at + |k|] == k && q[at + |k|..end] == v
       && RowOf(q, i) == EncodeMeta(c, Meta(|k|, at, |v|, at + |k|))
       && (forall j {:trigger RowOf(q, j)} :: 0 <= j < i ==> RowOf(q, j) == RowOf(p, j))
       && (forall j {:trigger RowOf(q, j)} :: i < j <= n ==> RowOf(q, j) == RowOf(p, j - 1))
  }

  lemma {:induction false} SamePair(p: Bytes, q: Bytes, m: Meta, from: nat)
    requires Placed(m, from, |p|) && from <= |p| == |q| && forall x :: from <= x < |p| ==> q[x] == p[x]
    ensures PairAt(q, m) == PairAt(p, m)
  {
    SameSlice(p, q, m.keyOffset, m.keyOffset + m.keySize);
    SameSlice(p, q, m.valueOffset, m.valueOffset + m.valueSize);
  }

  /** Reading a table row that was written. */
  lemma {:induction false} ReadRow(c: Codec, p: Bytes, i: nat, m: Meta)
    requires CodecOk(c) && TableAt(i + 1) <= |p| < U64_LIMIT && Placed(m, 0, |p|) && RowOf(p, i) == EncodeMeta(c, m)
    ensures MetaAt(c, p, i) == m
  {
    MetaRoundTrip(c, m);
  }

  lemma {:induction false} SameRow(c: Codec, p: Bytes, i: nat, q: Bytes, j: nat)
    requires TableAt(i + 1) <= |p| && TableAt(j + 1) <= |q| && RowOf(q, j) == RowOf(p, i)
    ensures MetaAt(c, q, j) == MetaAt(c, p, i)
  {
  }

  /** Where row `j` of the new table comes from. */
  lemma {:induction false} AddedRow(c: Codec, p: Bytes, q: Bytes, i: nat, k: Key, v: Value, j: nat)
    requires Formed(c, p) && Added(c, p, q, i, k, v) && j <= Count(c, p)
    ensures MetaAt(c, q, j) == if j < i then MetaAt(c, p, j)
                               else if j == i then Meta(|k|, End(c, q), |v|, End(c, q) + |k|)
                               else MetaAt(c, p, j - 1)
  {
    if j < i {
      SameRow(c, p, j, q, j);
    } else if j == i {
      ReadRow(c, q, i, Meta(|k|, End(c, q), |v|, End(c, q) + |k|));
    } else {
      SameRow(c, p, j - 1, q, j);
    }
  }

  lemma {:induction false} AddedPair(c: Codec, p: Bytes, q: Bytes, i: nat, k: Key, v: Value, j: nat)
    requires Formed(c, p) && Added(c, p, q, i, k, v) && j <= Count(c, p)
    ensures Placed(MetaAt(c, q, j), End(c, q), |q|)
    ensures j != i ==> Placed(MetaAt(c, q, j), End(c, p), |q|)
    ensures PairAt(q, MetaAt(c, q, j)) == if j < i then PairAt(p, MetaAt(c, p, j))
                                          else if j == i then Pair(k, v)
                                          else PairAt(p, MetaAt(c, p, j - 1))
  {
    AddedRow(c, p, q, i, k, v, j);
    if j != i {
      SamePair(p, q, MetaAt(c, q, j), End(c, p));
    }
  }

  lemma {:induction false} AddedDisjoint(c: Codec, p: Bytes, q: Bytes, i: nat, k: Key, v: Value, a: nat, b: nat)
    requires Formed(c, p) && Added(c, p, q, i, k, v) && a < b <= Count(c, p)
    ensures Disjoint(MetaAt(c, q, a), MetaAt(c, q, b))
  {
    AddedRow(c, p, q, i, k, v, a);
    AddedRow(c, p, q, i, k, v, b);
    AddedPair(c, p, q, i, k, v, a);
    AddedPair(c, p, q, i, k, v, b);
  }

  lemma {:induction false} AddedFormed(c: Codec, p: Bytes, q: Bytes, i: nat, k: Key, v: Value)
    requires Formed(c, p) && Added(c, p, q, i, k, v)
    ensures Formed(c, q)
  {
    forall j | 0 <= j < Count(c, q)
      ensures Placed(MetaAt(c, q, j), End(c, q), |q|)
    {
      AddedPair(c, p, q, i, k, v, j);
    }
    forall a, b | 0 <= a < b < Count(c, q)
      ensures Disjoint(MetaAt(c, q, a), MetaAt(c, q, b))
    {
      AddedDisjoint(c, p, q, i, k, v, a, b);
    }
  }

  lemma {:induction false} AddedEntry(c: Codec, p: Bytes, q: Bytes, i: nat, k: Key, v: Value, j: nat)
    requires Formed(c, p) && Added(c, p, q, i, k, v) && Formed(c, q) && j <= Count(c, p)
    ensures |Entries(c, q)| == |Entries(c, p)| + 1
    ensures Entries(c, q)[j] == if j < i then Entries(c, p)[j] else if j == i then Pair(k, v) else Entries(c, p)[j - 1]
  {
    AddedPair(c, p, q, i, k, v, j);
  }

  /** In-place insertion of a new pair is insertion into the list of pairs. */
  lemma {:induction false} AddedOk(c: Codec, p: Bytes, q: Bytes, i: nat, k: Key, v: Value)
    requires Formed(c, p) && Added(c, p, q, i, k, v)
    ensures Formed(c, q) && End(c, q) == End(c, p) - |k| - |v|
    ensures Entries(c, q) == Entries(c, p)[..i] + [Pair(k, v)] + Entries(c, p)[i..]
  {
    AddedFormed(c, p, q, i, k, v);
    var es, fs := Entries(c, p), Entries(c, q);
    assert |es| == Count(c, p) && |fs| == Count(c, q) == |es| + 1;
    forall j | 0 <= j < |fs|
      ensures j < i ==> fs[j] == es[j]
      ensures j == i ==> fs[j] == Pair(k, v)
      ensures j > i ==> fs[j] == es[j - 1]
    {
      AddedEntry(c, p, q, i, k, v, j);
    }
    InsertedAt(es, i, Pair(k, v), fs);
  }

  // ----- A changed pair -----

  /** What in-place insertion of an existing key leaves behind: the pair at `at`, and the data region ending
      at `end`. */
  ghost predicate Changed(c: Codec, p: Bytes, q: Bytes, i: nat, k: Key, v: Value, at: nat, end: nat)
    requires Formed(c, p)
  {
    && i < Count(c, p) && |q| == |p| && at + |k| + |v| <= |p| && TableAt(Count(c, p)) <= end <= at && end <= End(c, p)
    && (at + |k| + |v| <= End(c, p)
        || (at == MetaAt(c, p, i).keyOffset && |k| + |v| <= MetaAt(c, p, i).keySize + MetaAt(c, p, i).valueSize))
    && Kind(c, q) == LEAF_KIND && Count(c, q) == Count(c, p) && End(c, q) == end
    && q[at..at + |k|] == k && q[at + |k|..at + |k| + |v|] == v
    && (forall x :: End(c, p) <= x < |p| && !(at <= x < at + |k| + |v|) ==> q[x] == p[x])
    && RowOf(q, i) == EncodeMeta(c, Meta(|k|, at, |v|, at + |k|))
    && (forall j {:trigger RowOf(q, j)} :: 0 <= j < Count(c, p) && j != i ==> RowOf(q, j) == RowOf(p, j))
  }

  /** A pair outside the bytes that were written. */
  lemma {:induction false} UnchangedPair(p: Bytes, q: Bytes, m: Meta, from: nat, to: nat, end: nat)
    requires Placed(m, end, |p|) && |q| == |p| && (to <= m.keyOffset || m.valueOffset + m.valueSize <= from)
    requires forall x :: end <= x < |p| && !(from <= x < to) ==> q[x] == p[x]
    ensures PairAt(q, m) == PairAt(p, m)
  {
    SameSlice(p, q, m.keyOffset, m.keyOffset + m.keySize);
    SameSlice(p, q, m.valueOffset, m.valueOffset + m.valueSize);
  }

  lemma {:induction false} ChangedOwn(c: Codec, p: Bytes, q: Bytes, i: nat, k: Key, v: Value, at: nat, end: nat)
    requires Formed(c, p) && Changed(c, p, q, i, k, v, at, end)
    ensures MetaAt(c, q, i) == Meta(|k|, at, |v|, at + |k|)
    ensures Placed(MetaAt(c, q, i), end, |q|) && PairAt(q, MetaAt(c, q, i)) == Pair(k, v)
  {
    ReadRow(c, q, i, Meta(|k|, at, |v|, at + |k|));
  }

  lemma {:induction false} ChangedOther(c: Codec, p: Bytes, q: Bytes, i: nat, k: Key, v: Value, at: nat, end: nat,
                                        j: nat)
    requires Formed(c, p) && Changed(c, p, q, i, k, v, at, end) && j < Count(c, p) && j != i
    ensures MetaAt(c, q, j) == MetaAt(c, p, j)
    ensures Placed(MetaAt(c, q, j), end, |q|) && Disjoint(MetaAt(c, q, j), Meta(|k|, at, |v|, at + |k|))
    ensures PairAt(q, MetaAt(c, q, j)) == PairAt(p, MetaAt(c, p, j))
  {
    var m := MetaAt(c, p, j);
    SameRow(c, p, j, q, j);
    assert Disjoint(m, MetaAt(c, p, i)) && Placed(m, End(c, p), |p|) && Placed(MetaAt(c, p, i), End(c, p), |p|);
    UnchangedPair(p, q, m, at, at + |k| + |v|, End(c, p));
  }

  lemma {:induction false} ChangedPair(c: Codec, p: Bytes, q: Bytes, i: nat, k: Key, v: Value, at: nat, end: nat,
                                       j: nat)
    requires Formed(c, p) && Changed(c, p, q, i, k, v, at, end) && j < Count(c, p)
    ensures MetaAt(c, q, j) == if j == i then Meta(|k|, at, |v|, at + |k|) else MetaAt(c, p, j)
    ensures Placed(MetaAt(c, q, j), end, |q|) && (j != i ==> Disjoint(MetaAt(c, q, j), Meta(|k|, at, |v|, at + |k|)))
    ensures PairAt(q, MetaAt(c, q, j)) == if j == i then Pair(k, v) else PairAt(p, MetaAt(c, p, j))
  {
    if j == i {
      ChangedOwn(c, p, q, i, k, v, at, end);
    } else {
      ChangedOther(c, p, q, i, k, v, at, end, j);
    }
  }

  lemma {:induction false} ChangedFormed(c: Codec, p: Bytes, q: Bytes, i: nat, k: Key, v: Value, at: nat, end: nat)
    requires Formed(c, p) && Changed(c, p, q, i, k, v, at, end)
    ensures Formed(c, q)
  {
    forall j | 0 <= j < Count(c, q)
      ensures Placed(MetaAt(c, q, j), End(c, q), |q|)
    {
      ChangedPair(c, p, q, i, k, v, at, end, j);
    }
    forall a, b | 0 <= a < b < Count(c, q)
      ensures Disjoint(MetaAt(c, q, a), MetaAt(c, q, b))
    {
      ChangedPair(c, p, q, i, k, v, at, end, a);
      ChangedPair(c, p, q, i, k, v, at, end, b);
    }
  }

  /** In-place update of a pair is update of the list of pairs. */
  lemma {:induction false} ChangedOk(c: Codec, p: Bytes, q: Bytes, i: nat, k: Key, v: Value, at: nat, end: nat)
    requires Formed(c, p) && Changed(c, p, q, i, k, v, at, end)
    ensures Formed(c, q) && End(c, q) == end && Entries(c, q) == Entries(c, p)[i := Pair(k, v)]
  {
    ChangedFormed(c, p, q, i, k, v, at, end);
    var es, fs := Entries(c, p)[i := Pair(k, v)], Entries(c, q);
    assert |fs| == Count(c, q) == |es|;
    forall j | 0 <= j < |fs|
      ensures fs[j] == es[j]
    {
      ChangedPair(c, p, q, i, k, v, at, end, j);
    }
  }

  // ----- Little-endian numbers -----

  function Encode(n: nat, len: nat): (r: Bytes)
    ensures |r| == len
  {
    if len == 0 then [] else [n % 256] + Encode(n / 256, len - 1)
  }

  function Decode(bs: Bytes): nat {
    if bs == [] then 0 else bs[0] + 256 * Decode(bs[1..])
  }

  function Power256(n: nat): (r: nat)
    ensures r > 0
  {
    if n == 0 then 1 else 256 * Power256(n - 1)
  }

  lemma {:induction false} DecodeEncode(n: nat, len: nat)
    requires n < Power256(len)
    ensures Decode(Encode(n, len)) == n
  {
    if len > 0 {
      DecodeEncode(n / 256, len - 1);
      assert Encode(n, len)[1..] == Encode(n / 256, len - 1);
    }
  }

  lemma EightBytes()
    ensures Power256(8) == U64_LIMIT
  {
    assert Power256(4) == 65536 * 65536;
  }

  function LittleEndian(): Codec {
    Codec(n => Encode(n, 8), Decode)
  }

  /** Little-endian: one more in byte `i` is 256 to the power of `i` more in the number. */
  lemma {:induction false} ByteWeight(bs: Bytes, i: nat)
    requires i < |bs| && bs[i] < 255
    ensures Decode(bs[i := bs[i] + 1]) == Decode(bs) + Power256(i)
  {
    var more, tail := bs[i := bs[i] + 1], bs[1..];
    DecodeFirst(bs);
    DecodeFirst(more);
    if i > 0 {
      ByteWeight(tail, i - 1);
      assert more[1..] == tail[i - 1 := tail[i - 1] + 1];
      assert Power256(i) == 256 * Power256(i - 1);
    } else {
      assert more[1..] == tail;
    }
  }

  lemma {:induction false} DecodeFirst(bs: Bytes)
    requires bs != []
    ensures Decode(bs) == bs[0] + 256 * Decode(bs[1..])
  {
  }

  /** The program's fields: little-endian 64-bit numbers. */
  lemma {:induction false} LittleEndianOk()
    ensures CodecOk(LittleEndian())
  {
    EightBytes();
    forall n: nat | n < U64_LIMIT
      ensures Decode(Encode(n, 8)) == n
    {
      DecodeEncode(n, 8);
    }
  }
}
