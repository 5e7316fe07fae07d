/** Operations on the bytes of a leaf page, in place: search, space check, insertion, and building a page
    from a list of pairs. */
module KvLeafPage {
  import opened Collections
  import opened Sequences
  import opened KvKeys
  import opened KvTree
  import opened KvTreeSpace
  import opened KvLeafBytes

  // ----- Writing -----

  method WriteData(page: array<Byte>, data: Bytes, at: nat)
    requires at + |data| <= page.Length
    modifies page
    ensures page[at..at + |data|] == data
    ensures forall x :: 0 <= x < page.Length && !(at <= x < at + |data|) ==> page[x] == old(page[x])
  {
    forall i | 0 <= i < |data| {
      page[at + i] := data[i];
    }
  }

  /** Move table rows from position `i` up by one. */
  method ShiftRows(page: array<Byte>, i: nat, n: nat)
    requires i <= n && TableAt(n + 1) <= page.Length
    modifies page
    ensures forall x :: 0 <= x < TableAt(i + 1) || TableAt(n + 1) <= x < page.Length ==> page[x] == old(page[x])
    ensures forall x :: TableAt(i + 1) <= x < TableAt(n + 1) ==> page[x] == old(page[x - LEAF_ENTRY])
  {
    forall x | TableAt(i) <= x < TableAt(n) {
      page[x + LEAF_ENTRY] := page[x];
    }
  }

  // ----- Searching -----

  lemma {:induction false} AllBefore(es: seq<Pair>, mid: nat, k: Key)
    requires Sorted(es) && mid < |es| && Less(es[mid].key, k)
    ensures forall i :: 0 <= i <= mid ==> Less(es[i].key, k)
  {
    forall i | 0 <= i < mid
      ensures Less(es[i].key, k)
    {
      LessTrans(es[i].key, es[mid].key, k);
    }
  }

  function KeyAt(c: Codec, p: Bytes, i: nat): (key: Key)
    requires Formed(c, p) && i < Count(c, p)
    ensures key == Entries(c, p)[i].key
  {
    var m := MetaAt(c, p, i);
    p[m.keyOffset..m.keyOffset + m.keySize]
  }

  function ValueAt(c: Codec, p: Bytes, i: nat): (value: Value)
    requires Formed(c, p) && i < Count(c, p)
    ensures value == Entries(c, p)[i].value
  {
    var m := MetaAt(c, p, i);
    p[m.valueOffset..m.valueOffset + m.valueSize]
  }

  /** Binary search in the table. */
  method SearchEntry(c: Codec, page: array<Byte>, k: Key) returns (found: bool, index: nat)
    requires Formed(c, page[..]) && Sorted(Entries(c, page[..]))
    ensures index == LowerBound(Entries(c, page[..]), k)
    ensures found <==> index < Count(c, page[..]) && Entries(c, page[..])[index].key == k
  {
    var p := page[..];
    ghost var es := Entries(c, p);
    var lo, hi := 0, Count(c, p);
    while lo < hi
      invariant 0 <= lo <= hi <= |es|
      invariant forall i :: 0 <= i < lo ==> Less(es[i].key, k)
      invariant hi < |es| ==> !Less(es[hi].key, k)
    {
      var mid := (lo + hi) / 2;
      if Less(KeyAt(c, p, mid), k) {
        AllBefore(es, mid, k);
        lo := mid + 1;
      } else {
        hi := mid;
      }
    }
    LowerBoundIs(es, k, lo);
    index := lo;
    found := index < Count(c, p) && KeyAt(c, p, index) == k;
  }

  method GetPairValue(c: Codec, page: array<Byte>, k: Key) returns (r: Option<Value>)
    requires Formed(c, page[..]) && Sorted(Entries(c, page[..]))
    ensures r == Lookup(Entries(c, page[..]), k)
  {
    var found, i := SearchEntry(c, page, k);
    if !found {
      return None;
    }
    return Some(ValueAt(c, page[..], i));
  }

  method Fits(c: Codec, page: array<Byte>, k: Key, v: Value) returns (ok: bool)
    requires Formed(c, page[..])
    ensures ok <==> LeafFits(LeafOfBytes(c, page[..]), k, v)
  {
    var end := End(c, page[..]);
    if end < |k| + |v| {
      return false;
    }
    return LeafTableEnd(Count(c, page[..]) + 1) <= end - |k| - |v|;
  }

  // ----- Insertion in place -----

  /** The page after an insertion, byte range by byte range. */
  ghost predicate AddedBytes(c: Codec, p: Bytes, q: Bytes, i: nat, k: Key, v: Value)
    requires |p| >= NODE_HEADER
  {
    |k| + |v| <= End(c, p) &&
    RowAndPair(p, q, Count(c, p), End(c, p), i, k, v, c.put(Count(c, p) + 1), c.put(End(c, p) - |k| - |v|),
               EncodeMeta(c, Meta(|k|, End(c, p) - |k| - |v|, |v|, End(c, p) - |v|)))
  }

  /** A pair was appended to the data that ends at `end`, a row was put into the table of `n` rows, and the
      count and the end were set. */
  ghost predicate RowAndPair(p: Bytes, q: Bytes, n: nat, end: nat, i: nat, k: Key, v: Value, count: Bytes,
                             newEnd: Bytes, row: Bytes) {
    && i <= n && |q| == |p| && |k| + |v| <= end <= |p| && TableAt(n + 1) <= end - |k| - |v|
    && var at := end - |k| - |v|;
       && (forall x :: 0 <= x < COUNT_AT || end <= x < |p| ==> q[x] == p[x])
       && q[COUNT_AT..END_AT] == count && q[END_AT..NODE_HEADER] == newEnd
       && (forall x :: NODE_HEADER <= x < TableAt(i) ==> q[x] == p[x])
       && RowOf(q, i) == row
       && (forall x :: TableAt(i + 1) <= x < TableAt(n + 1) ==> q[x] == p[x - LEAF_ENTRY])
       && q[at..at + |k|] == k && q[at + |k|..end] == v
  }

  lemma {:induction false} RowMoved(p: Bytes, q: Bytes, i: nat, j: nat)
    requires |p| == |q| && TableAt(i + 1) <= |p| && TableAt(j + 1) <= |p|
    requires forall x :: TableAt(j) <= x < TableAt(j + 1) ==> q[x] == p[x - TableAt(j) + TableAt(i)]
    ensures RowOf(q, j) == RowOf(p, i)
  {
    var a, b := RowOf(q, j), RowOf(p, i);
    forall y | 0 <= y < LEAF_ENTRY
      ensures a[y] == b[y]
    {
      assert a[y] == q[TableAt(j) + y];
    }
  }

  lemma {:induction false} AddedRows(c: Codec, p: Bytes, q: Bytes, i: nat, k: Key, v: Value, j: nat)
    requires Formed(c, p) && AddedBytes(c, p, q, i, k, v) && j <= Count(c, p)
    ensures j < i ==> RowOf(q, j) == RowOf(p, j)
    ensures j > i ==> RowOf(q, j) == RowOf(p, j - 1)
  {
    if j < i {
      RowMoved(p, q, j, j);
    } else if j > i {
      RowMoved(p, q, j - 1, j);
    }
  }

  lemma {:induction false} AddedHeader(c: Codec, p: Bytes, q: Bytes, i: nat, k: Key, v: Value)
    requires Formed(c, p) && AddedBytes(c, p, q, i, k, v)
    ensures Kind(c, q) == LEAF_KIND && Count(c, q) == Count(c, p) + 1 && End(c, q) == End(c, p) - |k| - |v|
  {
    SameSlice(p, q, KIND_AT, KIND_AT + 8);
  }

  lemma {:induction false} AddedBytesOk(c: Codec, p: Bytes, q: Bytes, i: nat, k: Key, v: Value)
    requires Formed(c, p) && AddedBytes(c, p, q, i, k, v)
    ensures Added(c, p, q, i, k, v)
  {
    AddedHeader(c, p, q, i, k, v);
    forall j | 0 <= j <= Count(c, p)
      ensures j < i ==> RowOf(q, j) == RowOf(p, j)
      ensures j > i ==> RowOf(q, j) == RowOf(p, j - 1)
    {
      AddedRows(c, p, q, i, k, v, j);
    }
  }

  /** `write_kv`. */
  method WriteKeyValue(page: array<Byte>, k: Key, v: Value, at: nat)
    requires at + |k| + |v| <= page.Length
    modifies page
    ensures page[at..at + |k|] == k && page[at + |k|..at + |k| + |v|] == v
    ensures forall x :: 0 <= x < page.Length && !(at <= x < at + |k| + |v|) ==> page[x] == old(page[x])
  {
    WriteData(page, k, at);
    WriteData(page, v, at + |k|);
  }

  /** Set the count and the end of the data, and put a row into a table of `n` rows. */
  method PutRow(page: array<Byte>, n: nat, i: nat, count: Bytes, end: Bytes, row: Bytes)
    requires i <= n && TableAt(n + 1) <= page.Length && |count| == |end| == 8 && |row| == LEAF_ENTRY
    modifies page
    ensures page[COUNT_AT..END_AT] == count && page[END_AT..NODE_HEADER] == end
            && page[TableAt(i)..TableAt(i + 1)] == row
    ensures forall x :: 0 <= x < COUNT_AT || NODE_HEADER <= x < TableAt(i) || TableAt(n + 1) <= x < page.Length ==>
              page[x] == old(page[x])
    ensures forall x :: TableAt(i + 1) <= x < TableAt(n + 1) ==> page[x] == old(page[x - LEAF_ENTRY])
  {
    WriteData(page, count + end, COUNT_AT);
    ShiftRows(page, i, n);
    WriteData(page, row, TableAt(i));
    assert page[COUNT_AT..NODE_HEADER] == count + end;
    TwoPieces(page[..], COUNT_AT, count, end);
  }

  /** Append a pair and put its row into the table. */
  method WriteNew(page: array<Byte>, n: nat, end: nat, i: nat, k: Key, v: Value, count: Bytes, newEnd: Bytes,
                  row: Bytes)
    requires i <= n && |k| + |v| <= end <= page.Length && TableAt(n + 1) <= end - |k| - |v|
    requires |count| == |newEnd| == 8 && |row| == LEAF_ENTRY
    modifies page
    ensures RowAndPair(old(page[..]), page[..], n, end, i, k, v, count, newEnd, row)
  {
    var at := end - |k| - |v|;
    WriteKeyValue(page, k, v, at);
    ghost var p1 := page[..];
    PutRow(page, n, i, count, newEnd, row);
    ghost var q := page[..];
    SameSlice(p1, q, at, at + |k|);
    SameSlice(p1, q, at + |k|, end);
  }

  /** There is room for one more row and the pair. */
  ghost predicate Roomy(c: Codec, p: Bytes, k: Key, v: Value) {
    && CodecOk(c) && NODE_HEADER <= |p| < U64_LIMIT
    && |k| + |v| <= End(c, p) <= |p| && TableAt(Count(c, p) + 1) <= End(c, p) - |k| - |v|
  }

  /** `insert_new_kv`. */
  method InsertNew(c: Codec, page: array<Byte>, i: nat, k: Key, v: Value)
    requires Roomy(c, page[..], k, v) && i <= Count(c, page[..])
    modifies page
    ensures AddedBytes(c, old(page[..]), page[..], i, k, v)
  {
    var n, end := Count(c, page[..]), End(c, page[..]);
    var at := end - |k| - |v|;
    WriteNew(page, n, end, i, k, v, c.put(n + 1), c.put(at), EncodeMeta(c, Meta(|k|, at, |v|, end - |v|)));
  }

  ghost predicate ChangedBytes(c: Codec, p: Bytes, q: Bytes, i: nat, k: Key, v: Value, at: nat, end: nat)
    requires Formed(c, p)
  {
    && i < Count(c, p) && |q| == |p| && at + |k| + |v| <= |p| && TableAt(Count(c, p)) <= end <= at && end <= End(c, p)
    && (forall x :: 0 <= x < END_AT || End(c, p) <= x < |p| ==> at <= x < at + |k| + |v| || q[x] == p[x])
    && End(c, q) == end
    && (forall x :: NODE_HEADER <= x < TableAt(i) || TableAt(i + 1) <= x < TableAt(Count(c, p)) ==> q[x] == p[x])
    && RowOf(q, i) == EncodeMeta(c, Meta(|k|, at, |v|, at + |k|))
    && q[at..at + |k|] == k && q[at + |k|..at + |k| + |v|] == v
  }

  lemma {:induction false} ChangedBytesOk(c: Codec, p: Bytes, q: Bytes, i: nat, k: Key, v: Value, at: nat, end: nat)
    requires Formed(c, p) && ChangedBytes(c, p, q, i, k, v, at, end)
    requires at + |k| + |v| <= End(c, p)
             || (at == MetaAt(c, p, i).keyOffset && |k| + |v| <= MetaAt(c, p, i).keySize + MetaAt(c, p, i).valueSize)
    ensures Changed(c, p, q, i, k, v, at, end)
  {
    SameSlice(p, q, KIND_AT, KIND_AT + 8);
    SameSlice(p, q, COUNT_AT, COUNT_AT + 8);
    forall j | 0 <= j < Count(c, p) && j != i
      ensures RowOf(q, j) == RowOf(p, j)
    {
      RowMoved(p, q, j, j);
    }
  }

  /** The region that an update gets. */
  ghost predicate Relocated(c: Codec, p: Bytes, i: nat, k: Key, v: Value, at: nat, end: nat)
    requires Formed(c, p) && i < Count(c, p)
  {
    var m := MetaAt(c, p, i);
    if m.keySize + m.valueSize >= |k| + |v| then at == m.keyOffset && end == End(c, p)
    else at == end == End(c, p) - |k| - |v|
  }

  /** Write a pair and its table row. */
  method WriteWithRow(page: array<Byte>, i: nat, k: Key, v: Value, at: nat, row: Bytes)
    requires |row| == LEAF_ENTRY && TableAt(i + 1) <= at && at + |k| + |v| <= page.Length
    modifies page
    ensures page[at..at + |k|] == k && page[at + |k|..at + |k| + |v|] == v && page[TableAt(i)..TableAt(i + 1)] == row
    ensures forall x :: 0 <= x < page.Length && !(at <= x < at + |k| + |v|) && !(TableAt(i) <= x < TableAt(i + 1)) ==>
              page[x] == old(page[x])
  {
    WriteKeyValue(page, k, v, at);
    ghost var p := page[..];
    WriteData(page, row, TableAt(i));
    SameSlice(p, page[..], at, at + |k|);
    SameSlice(p, page[..], at + |k|, at + |k| + |v|);
  }

  /** The same, with a new end of the data. */
  method WriteAppended(page: array<Byte>, i: nat, k: Key, v: Value, at: nat, row: Bytes, newEnd: Bytes)
    requires |row| == LEAF_ENTRY && |newEnd| == 8 && TableAt(i + 1) <= at && at + |k| + |v| <= page.Length
    modifies page
    ensures page[at..at + |k|] == k && page[at + |k|..at + |k| + |v|] == v && page[TableAt(i)..TableAt(i + 1)] == row
    ensures page[END_AT..NODE_HEADER] == newEnd
    ensures forall x ::
              && 0 <= x < page.Length && !(at <= x < at + |k| + |v|)
              && !(TableAt(i) <= x < TableAt(i + 1)) && !(END_AT <= x < NODE_HEADER)
              ==> page[x] == old(page[x])
  {
    WriteWithRow(page, i, k, v, at, row);
    ghost var p := page[..];
    WriteData(page, newEnd, END_AT);
    ghost var q := page[..];
    SameSlice(p, q, at, at + |k|);
    SameSlice(p, q, at + |k|, at + |k| + |v|);
    SameSlice(p, q, TableAt(i), TableAt(i + 1));
  }

  /** `insert_existing_kv`: the old region is reused if it is large enough. */
  method InsertExisting(c: Codec, page: array<Byte>, i: nat, k: Key, v: Value) returns (ghost at: nat, ghost end: nat)
    requires Formed(c, page[..]) && i < Count(c, page[..]) && LeafFits(LeafOfBytes(c, page[..]), k, v)
    modifies page
    ensures ChangedBytes(c, old(page[..]), page[..], i, k, v, at, end)
    ensures Relocated(c, old(page[..]), i, k, v, at, end)
  {
    ghost var p := page[..];
    var m := MetaAt(c, page[..], i);
    var keyAt, dataEnd := m.keyOffset, End(c, page[..]);
    if m.keySize + m.valueSize < |k| + |v| {
      keyAt := dataEnd - |k| - |v|;
      dataEnd := keyAt;
    }
    var row := EncodeMeta(c, Meta(|k|, keyAt, |v|, keyAt + |k|));
    if m.keySize + m.valueSize >= |k| + |v| {
      WriteWithRow(page, i, k, v, keyAt, row);
      SameSlice(p, page[..], END_AT, END_AT + 8);
    } else {
      WriteAppended(page, i, k, v, keyAt, row, c.put(dataEnd));
    }
    at, end := keyAt, dataEnd;
  }

  lemma {:induction false} NewIsPut(c: Codec, p: Bytes, q: Bytes, i: nat, k: Key, v: Value)
    requires Formed(c, p) && LeafFits(LeafOfBytes(c, p), k, v) && AddedBytes(c, p, q, i, k, v)
    requires i == LowerBound(Entries(c, p), k) && !(i < Count(c, p) && Entries(c, p)[i].key == k)
    ensures Formed(c, q) && LeafOfBytes(c, q) == LeafPut(LeafOfBytes(c, p), k, v)
  {
    AddedBytesOk(c, p, q, i, k, v);
    AddedOk(c, p, q, i, k, v);
  }

  lemma {:induction false} ExistingIsPut(c: Codec, p: Bytes, q: Bytes, i: nat, k: Key, v: Value, at: nat, end: nat)
    requires Formed(c, p) && LeafFits(LeafOfBytes(c, p), k, v) && ChangedBytes(c, p, q, i, k, v, at, end)
    requires i == LowerBound(Entries(c, p), k) && i < Count(c, p) && Entries(c, p)[i].key == k
    requires Relocated(c, p, i, k, v, at, end)
    ensures Formed(c, q) && LeafOfBytes(c, q) == LeafPut(LeafOfBytes(c, p), k, v)
  {
    EntryIs(c, p, i);
    ChangedBytesOk(c, p, q, i, k, v, at, end);
    ChangedOk(c, p, q, i, k, v, at, end);
  }

  lemma {:induction false} EntryIs(c: Codec, p: Bytes, i: nat)
    requires Formed(c, p) && i < Count(c, p)
    ensures Placed(MetaAt(c, p, i), End(c, p), |p|)
    ensures PairSize(Entries(c, p)[i]) == MetaAt(c, p, i).keySize + MetaAt(c, p, i).valueSize
  {
    assert Entries(c, p)[i] == PairAt(p, MetaAt(c, p, i));
  }

  /** `LeafPageMutator::insert` does to the bytes what `LeafPut` does to the leaf: the pairs are the old ones
      with the key set, no regions overlap, and the data region is where `LeafPut` says. */
  method InsertInPlace(c: Codec, page: array<Byte>, k: Key, v: Value)
    requires Formed(c, page[..]) && Sorted(Entries(c, page[..])) && LeafFits(LeafOfBytes(c, page[..]), k, v)
    modifies page
    ensures Formed(c, page[..])
    ensures LeafOfBytes(c, page[..]) == LeafPut(LeafOfBytes(c, old(page[..])), k, v)
  {
    ghost var p := page[..];
    var found, i := SearchEntry(c, page, k);
    if found {
      ghost var at, end := InsertExisting(c, page, i, k, v);
      ExistingIsPut(c, p, page[..], i, k, v, at, end);
    } else {
      InsertNew(c, page, i, k, v);
      NewIsPut(c, p, page[..], i, k, v);
    }
  }

  // ----- Building a page -----

  /** Where the builder puts the pair at `i`. */
  function BuiltAt(size: nat, es: seq<Pair>, i: nat): Meta
    requires i < |es| && TotalSize(es[..i + 1]) <= size
  {
    var at := size - TotalSize(es[..i + 1]);
    Meta(|es[i].key|, at, |es[i].value|, at + |es[i].key|)
  }

  lemma {:induction false} BuiltInOrder(size: nat, es: seq<Pair>, i: nat, j: nat)
    requires i < j < |es| && TotalSize(es) <= size
    ensures TotalSize(es[..i + 1]) <= size && TotalSize(es[..j + 1]) <= size
    ensures var m, n := BuiltAt(size, es, i), BuiltAt(size, es, j);
            n.valueOffset + n.valueSize <= m.keyOffset
  {
    TotalSizeGrows(es, i);
    TotalSizeGrows(es, j);
    assert es[..j][..i + 1] == es[..i + 1];
    TotalSizeSplit(es[..j], i + 1);
  }

  /** The builder has written the pair at `i` and its table row. */
  ghost predicate Built(c: Codec, p: Bytes, es: seq<Pair>, i: nat) {
    && i < |es| && TotalSize(es[..i + 1]) <= |p| && TableAt(i + 1) <= |p|
    && var m := BuiltAt(|p|, es, i);
       RowOf(p, i) == EncodeMeta(c, m) && PairAt(p, m) == es[i]
  }

  /** Writing below the data and above the table leaves what is built as it is. */
  lemma {:induction false} BuiltKept(c: Codec, p: Bytes, q: Bytes, es: seq<Pair>, i: nat, table: nat, data: nat)
    requires Built(c, p, es, i) && |q| == |p| && TableAt(i + 1) <= table <= |p| && data <= BuiltAt(|p|, es, i).keyOffset
    requires forall x :: NODE_HEADER <= x < table || data <= x < |p| ==> q[x] == p[x]
    ensures Built(c, q, es, i)
  {
    RowMoved(p, q, i, i);
  }

  method WritePair(c: Codec, page: array<Byte>, es: seq<Pair>, i: nat, cursor: nat, data: nat)
    requires CodecOk(c) && page.Length < U64_LIMIT && i < |es| && LeafBuilds(page.Length, es)
    requires cursor == TableAt(i) && data == page.Length - TotalSize(es[..i]) && PairSize(es[i]) <= data
             && TableAt(i + 1) <= data - PairSize(es[i])
    modifies page
    ensures Built(c, page[..], es, i)
    ensures forall x :: 0 <= x < cursor || data <= x < page.Length ==> page[x] == old(page[x])
  {
    var k, v := es[i].key, es[i].value;
    TotalSizeGrows(es, i);
    var keyAt := data - |v| - |k|;
    WriteBackward(page, i, k, v, keyAt, EncodeMeta(c, Meta(|k|, keyAt, |v|, keyAt + |k|)));
    assert BuiltAt(page.Length, es, i) == Meta(|k|, keyAt, |v|, keyAt + |k|);
  }

  /** The builder writes the value first, then the key in front of it, and then the row. */
  method WriteBackward(page: array<Byte>, i: nat, k: Key, v: Value, at: nat, row: Bytes)
    requires at + |k| + |v| <= page.Length && |row| == LEAF_ENTRY && TableAt(i + 1) <= at
    modifies page
    ensures page[at..at + |k|] == k && page[at + |k|..at + |k| + |v|] == v && page[TableAt(i)..TableAt(i + 1)] == row
    ensures forall x :: 0 <= x < TableAt(i) || at + |k| + |v| <= x < page.Length ==> page[x] == old(page[x])
  {
    WriteData(page, v, at + |k|);
    WriteData(page, k, at);
    ghost var p := page[..];
    assert p[at + |k|..at + |k| + |v|] == v;
    WriteData(page, row, TableAt(i));
    SameSlice(p, page[..], at, at + |k|);
    SameSlice(p, page[..], at + |k|, at + |k| + |v|);
  }

  lemma {:induction false} BuiltMeta(c: Codec, p: Bytes, es: seq<Pair>, i: nat)
    requires CodecOk(c) && |p| < U64_LIMIT && TotalSize(es) <= |p| && Built(c, p, es, i)
    ensures TotalSize(es[..i + 1]) <= TotalSize(es)
    ensures MetaAt(c, p, i) == BuiltAt(|p|, es, i) && PairAt(p, MetaAt(c, p, i)) == es[i]
    ensures Placed(MetaAt(c, p, i), |p| - TotalSize(es), |p|)
  {
    TotalSizeGrows(es, i);
    ReadRow(c, p, i, BuiltAt(|p|, es, i));
  }

  lemma {:induction false} BuiltPage(c: Codec, p: Bytes, es: seq<Pair>)
    requires CodecOk(c) && |p| < U64_LIMIT && LeafBuilds(|p|, es)
    requires AllBuilt(c, p, es, |es|)
    requires Kind(c, p) == LEAF_KIND && Count(c, p) == |es| && End(c, p) == |p| - TotalSize(es)
    ensures Formed(c, p) && LeafOfBytes(c, p) == BuildLeaf(|p|, es)
  {
    forall i | 0 <= i < |es|
      ensures TableAt(i + 1) <= |p| && Placed(MetaAt(c, p, i), End(c, p), |p|) && PairAt(p, MetaAt(c, p, i)) == es[i]
    {
      assert Built(c, p, es, i);
      BuiltMeta(c, p, es, i);
    }
    forall i, j | 0 <= i < j < |es|
      ensures Disjoint(MetaAt(c, p, i), MetaAt(c, p, j))
    {
      assert Built(c, p, es, i) && Built(c, p, es, j);
      BuiltMeta(c, p, es, i);
      BuiltMeta(c, p, es, j);
      BuiltInOrder(|p|, es, i, j);
    }
    assert Entries(c, p) == es;
  }

  ghost predicate AllBuilt(c: Codec, p: Bytes, es: seq<Pair>, n: nat) {
    forall i {:trigger Built(c, p, es, i)} :: 0 <= i < n ==> Built(c, p, es, i)
  }

  lemma {:induction false} AllBuiltKept(c: Codec, p: Bytes, q: Bytes, es: seq<Pair>, n: nat, data: nat)
    requires AllBuilt(c, p, es, n) && n <= |es| && LeafBuilds(|p|, es) && |q| == |p|
             && data == |p| - TotalSize(es[..n]) && TableAt(n) <= |p|
    requires forall x :: NODE_HEADER <= x < TableAt(n) || data <= x < |p| ==> q[x] == p[x]
    ensures AllBuilt(c, q, es, n)
  {
    forall j | 0 <= j < n
      ensures Built(c, q, es, j)
    {
      assert Built(c, p, es, j);
      assert es[..n][..j + 1] == es[..j + 1];
      TotalSizeSplit(es[..n], j + 1);
      BuiltKept(c, p, q, es, j, TableAt(n), data);
    }
  }

  method WriteHeader(c: Codec, page: array<Byte>, n: nat, data: nat)
    requires CodecOk(c) && NODE_HEADER <= page.Length && n < U64_LIMIT && data < U64_LIMIT
    modifies page
    ensures Kind(c, page[..]) == LEAF_KIND && Count(c, page[..]) == n && End(c, page[..]) == data
    ensures forall x :: NODE_HEADER <= x < page.Length ==> page[x] == old(page[x])
  {
    WriteData(page, c.put(LEAF_KIND), KIND_AT);
    WriteData(page, c.put(n), COUNT_AT);
    ghost var p := page[..];
    WriteData(page, c.put(data), END_AT);
    ghost var q := page[..];
    SameSlice(p, q, KIND_AT, KIND_AT + 8);
    SameSlice(p, q, COUNT_AT, COUNT_AT + 8);
    assert p[KIND_AT..KIND_AT + 8] == c.put(LEAF_KIND);
  }

  /** `build_entries_at_buf`: parsing the page that was built gives back the pairs, and the data region is
      packed. */
  method BuildEntries(c: Codec, es: seq<Pair>, page: array<Byte>)
    requires CodecOk(c) && page.Length < U64_LIMIT && LeafBuilds(page.Length, es)
    modifies page
    ensures Formed(c, page[..]) && Entries(c, page[..]) == es
    ensures LeafOfBytes(c, page[..]) == BuildLeaf(page.Length, es)
  {
    var data := WritePairs(c, es, page);
    ghost var p := page[..];
    WriteHeader(c, page, |es|, data);
    assert es[..|es|] == es;
    AllBuiltKept(c, p, page[..], es, |es|, data);
    BuiltPage(c, page[..], es);
  }

  /** The pairs and their rows, one after the other. */
  method WritePairs(c: Codec, es: seq<Pair>, page: array<Byte>) returns (data: nat)
    requires CodecOk(c) && page.Length < U64_LIMIT && LeafBuilds(page.Length, es)
    modifies page
    ensures AllBuilt(c, page[..], es, |es|) && data == page.Length - TotalSize(es)
  {
    var cursor := NODE_HEADER;
    data := page.Length;
    for i := 0 to |es|
      invariant cursor == TableAt(i) && data == page.Length - TotalSize(es[..i])
      invariant AllBuilt(c, page[..], es, i)
    {
      ghost var p := page[..];
      TotalSizeGrows(es, i);
      WritePair(c, page, es, i, cursor, data);
      AllBuiltKept(c, p, page[..], es, i, data);
      cursor, data := cursor + LEAF_ENTRY, data - PairSize(es[i]);
    }
    assert es[..|es|] == es;
  }
}
