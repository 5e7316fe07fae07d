/** Byte-string keys in lexicographic order, and sorted lists of key-value pairs as the reference
    meaning of a database. */
module KvKeys {
  import opened Collections

  type Byte = b: int | 0 <= b < 256
  type Bytes = seq<Byte>
  type Key = Bytes
  type Value = Bytes

  datatype Pair = Pair(key: Key, value: Value)

  // ----- Order -----

  predicate Less(a: Key, b: Key) {
    |b| > 0 && (|a| == 0 || a[0] < b[0] || (a[0] == b[0] && Less(a[1..], b[1..])))
  }

  predicate LessEq(a: Key, b: Key) {
    a == b || Less(a, b)
  }

  /** `a` and `b` agree up to `i`, and there `a` ends or has the smaller byte. */
  predicate LessAt(a: Key, b: Key, i: nat) {
    i <= |a| && i < |b| && a[..i] == b[..i] && (i == |a| || a[i] < b[i])
  }

  /** The order is that of the first difference. */
  lemma {:induction false} LessIs(a: Key, b: Key)
    ensures Less(a, b) <==> exists i: nat :: LessAt(a, b, i)
  {
    if Less(a, b) {
      LessHasDifference(a, b);
    }
    if i: nat :| LessAt(a, b, i) {
      DifferenceIsLess(a, b, i);
    }
  }

  lemma {:induction false} LessHasDifference(a: Key, b: Key)
    requires Less(a, b)
    ensures exists i: nat :: LessAt(a, b, i)
  {
    if |a| > 0 && a[0] == b[0] {
      LessHasDifference(a[1..], b[1..]);
      var i: nat :| LessAt(a[1..], b[1..], i);
      assert a[..i + 1] == [a[0]] + a[1..][..i] && b[..i + 1] == [b[0]] + b[1..][..i];
      assert LessAt(a, b, i + 1);
    } else {
      assert LessAt(a, b, 0);
    }
  }

  lemma {:induction false} DifferenceIsLess(a: Key, b: Key, i: nat)
    requires LessAt(a, b, i)
    ensures Less(a, b)
  {
    if i > 0 {
      assert a[..i][0] == b[..i][0];
      assert a[1..][..i - 1] == a[..i][1..] && b[1..][..i - 1] == b[..i][1..];
      DifferenceIsLess(a[1..], b[1..], i - 1);
    }
  }

  lemma {:induction false} LessIrreflexive(a: Key)
    ensures !Less(a, a)
  {
    if |a| > 0 {
      LessIrreflexive(a[1..]);
    }
  }

  lemma {:induction false} LessTrans(a: Key, b: Key, c: Key)
    requires Less(a, b) && Less(b, c)
    ensures Less(a, c)
  {
    if |a| > 0 && a[0] == b[0] == c[0] {
      LessTrans(a[1..], b[1..], c[1..]);
    }
  }

  lemma {:induction false} LessTotal(a: Key, b: Key)
    ensures Less(a, b) || a == b || Less(b, a)
  {
    if |a| > 0 && |b| > 0 && a[0] == b[0] {
      LessTotal(a[1..], b[1..]);
      assert a == [a[0]] + a[1..] && b == [b[0]] + b[1..];
    }
  }

  /** The order laws, for use where many keys are compared. */
  lemma OrderLaws()
    ensures forall a: Key :: !Less(a, a)
    ensures forall a: Key, b: Key, c: Key {:trigger Less(a, b), Less(b, c)} :: Less(a, b) && Less(b, c) ==> Less(a, c)
    ensures forall a: Key, b: Key {:trigger Less(a, b)} :: Less(a, b) || a == b || Less(b, a)
  {
    forall a: Key ensures !Less(a, a) { LessIrreflexive(a); }
    forall a: Key, b: Key, c: Key | Less(a, b) && Less(b, c) ensures Less(a, c) { LessTrans(a, b, c); }
    forall a: Key, b: Key ensures Less(a, b) || a == b || Less(b, a) { LessTotal(a, b); }
  }

  // ----- Sorted lists of pairs -----

  ghost predicate Sorted(es: seq<Pair>) {
    forall i, j :: 0 <= i < j < |es| ==> Less(es[i].key, es[j].key)
  }

  /** Where a binary search for `k` ends: the number of keys before `k`. */
  function LowerBound(es: seq<Pair>, k: Key): (r: nat)
    ensures r <= |es|
    ensures forall i :: 0 <= i < r ==> Less(es[i].key, k)
    ensures r < |es| ==> !Less(es[r].key, k)
  {
    if es == [] || !Less(es[0].key, k) then 0 else 1 + LowerBound(es[1..], k)
  }

  function Upsert(es: seq<Pair>, k: Key, v: Value): seq<Pair> {
    var i := LowerBound(es, k);
    if i < |es| && es[i].key == k then es[i := Pair(k, v)]
    else es[..i] + [Pair(k, v)] + es[i..]
  }

  /** The pairs after a list of insertions. */
  function UpsertAll(es: seq<Pair>, ops: seq<Pair>): seq<Pair> {
    if ops == [] then es
    else Upsert(UpsertAll(es, ops[..|ops| - 1]), ops[|ops| - 1].key, ops[|ops| - 1].value)
  }

  function Lookup(es: seq<Pair>, k: Key): Option<Value> {
    var i := LowerBound(es, k);
    if i < |es| && es[i].key == k then Some(es[i].value) else None
  }

  lemma LowerBoundIs(es: seq<Pair>, k: Key, i: nat)
    requires i <= |es|
    requires forall j :: 0 <= j < i ==> Less(es[j].key, k)
    requires i < |es| ==> !Less(es[i].key, k)
    ensures LowerBound(es, k) == i
  {
  }

  lemma UpsertSorted(es: seq<Pair>, k: Key, v: Value)
    requires Sorted(es)
    ensures Sorted(Upsert(es, k, v)) && |Upsert(es, k, v)| >= 1
    ensures forall p :: p in Upsert(es, k, v) ==> p in es || p == Pair(k, v)
    ensures Pair(k, v) in Upsert(es, k, v)
  {
    OrderLaws();
    var i := LowerBound(es, k);
    if i < |es| && es[i].key == k {
      assert Upsert(es, k, v)[i] == Pair(k, v);
    } else {
      assert Upsert(es, k, v)[i] == Pair(k, v);
      assert forall j :: i <= j < |es| ==> Less(k, es[j].key);
    }
  }

  /** `us` is `es` with `p` put in at position `i`. */
  ghost predicate PutIn(es: seq<Pair>, i: nat, p: Pair, us: seq<Pair>) {
    && i <= |es| && |us| == |es| + 1 && us[i] == p
    && (forall x :: 0 <= x < i ==> us[x] == es[x])
    && (forall x :: i < x < |us| ==> us[x] == es[x - 1])
  }

  lemma PutInAt(es: seq<Pair>, i: nat, p: Pair)
    requires i <= |es|
    ensures PutIn(es, i, p, es[..i] + [p] + es[i..])
  {
  }

  lemma LookupElsewhere(es: seq<Pair>, k: Key, v: Value, q: Key)
    requires Sorted(es) && q != k
    ensures Lookup(Upsert(es, k, v), q) == Lookup(es, q)
  {
    var us := Upsert(es, k, v);
    var i := LowerBound(es, k);
    LessTotal(q, k);
    if i < |es| && es[i].key == k {
      LowerBoundIs(us, q, LowerBound(es, q));
    } else {
      PutInAt(es, i, Pair(k, v));
      if Less(q, k) {
        LookupBefore(es, us, k, v, q);
      } else {
        LookupBehind(es, us, k, v, q);
      }
    }
  }

  lemma LookupBefore(es: seq<Pair>, us: seq<Pair>, k: Key, v: Value, q: Key)
    requires PutIn(es, LowerBound(es, k), Pair(k, v), us) && Less(q, k)
    ensures Lookup(us, q) == Lookup(es, q)
  {
    var i, j := LowerBound(es, k), LowerBound(es, q);
    NotLess(q, k);
    assert i < |es| ==> !Less(es[i].key, k);
    if i < j {
      LessTrans(es[i].key, q, k);
    }
    LowerBoundIs(us, q, j);
  }

  lemma NotLess(a: Key, b: Key)
    requires Less(a, b)
    ensures !Less(b, a) && a != b
  {
    LessIrreflexive(a);
    if Less(b, a) {
      LessTrans(a, b, a);
    }
  }

  lemma LookupBehind(es: seq<Pair>, us: seq<Pair>, k: Key, v: Value, q: Key)
    requires PutIn(es, LowerBound(es, k), Pair(k, v), us) && Less(k, q)
    ensures Lookup(us, q) == Lookup(es, q)
  {
    var i, j := LowerBound(es, k), LowerBound(es, q);
    if j < i {
      LessTrans(es[j].key, k, q);
    }
    forall x | 0 <= x < j + 1
      ensures Less(us[x].key, q)
    {
      assert us[x] == if x < i then es[x] else if x == i then Pair(k, v) else es[x - 1];
    }
    LowerBoundIs(us, q, j + 1);
  }

  /** The reference semantics: a sorted list under `Upsert` is a map under update. */
  lemma LookupUpsert(es: seq<Pair>, k: Key, v: Value, q: Key)
    requires Sorted(es)
    ensures Lookup(Upsert(es, k, v), q) == (if q == k then Some(v) else Lookup(es, q))
  {
    if q == k {
      LessIrreflexive(k);
      LowerBoundIs(Upsert(es, k, v), k, LowerBound(es, k));
    } else {
      LookupElsewhere(es, k, v, q);
    }
  }

  /** All keys of `es` lie at or above `lo` and below `hi`. */
  ghost predicate InRange(es: seq<Pair>, lo: Key, hi: Option<Key>) {
    forall i :: 0 <= i < |es| ==> KeyIn(es[i].key, lo, hi)
  }

  predicate KeyIn(k: Key, lo: Key, hi: Option<Key>) {
    LessEq(lo, k) && (hi.Some? ==> Less(k, hi.value))
  }

  ghost predicate AllBelow(es: seq<Pair>, k: Key) {
    forall i :: 0 <= i < |es| ==> Less(es[i].key, k)
  }

  ghost predicate AllAbove(es: seq<Pair>, k: Key) {
    forall i :: 0 <= i < |es| ==> Less(k, es[i].key)
  }

  lemma LowerBoundConcat(a: seq<Pair>, b: seq<Pair>, c: seq<Pair>, k: Key)
    requires AllBelow(a, k) && AllAbove(c, k)
    ensures LowerBound(a + b + c, k) == |a| + LowerBound(b, k)
  {
    OrderLaws();
    var es := a + b + c;
    var i := LowerBound(b, k);
    forall j | 0 <= j < |a| + i
      ensures Less(es[j].key, k)
    {
      assert es[j] == if j < |a| then a[j] else b[j - |a|];
    }
    if i == |b| && |c| > 0 {
      assert es[|a| + i] == c[0];
    }
    LowerBoundIs(es, k, |a| + i);
  }

  /** Upserting into the middle of a list changes only the middle. */
  lemma UpsertConcat(a: seq<Pair>, b: seq<Pair>, c: seq<Pair>, k: Key, v: Value)
    requires AllBelow(a, k) && AllAbove(c, k)
    ensures Upsert(a + b + c, k, v) == a + Upsert(b, k, v) + c
    ensures Lookup(a + b + c, k) == Lookup(b, k)
  {
    var i := LowerBound(b, k);
    LowerBoundConcat(a, b, c, k);
    MiddleAt(a, b, c, i, Pair(k, v));
    LessIrreflexive(k);
    assert |c| > 0 ==> c[0].key != k;
    UpsertAt(a + b + c, |a| + i, k, v);
    UpsertAt(b, i, k, v);
  }

  lemma UpsertAt(es: seq<Pair>, i: nat, k: Key, v: Value)
    requires i == LowerBound(es, k)
    ensures i <= |es|
    ensures i < |es| && es[i].key == k ==> Upsert(es, k, v) == es[i := Pair(k, v)] && Lookup(es, k) == Some(es[i].value)
    ensures !(i < |es| && es[i].key == k) ==>
              Upsert(es, k, v) == es[..i] + [Pair(k, v)] + es[i..] && Lookup(es, k) == None
  {
  }

  /** Changing the middle of three lists. */
  lemma MiddleAt(a: seq<Pair>, b: seq<Pair>, c: seq<Pair>, i: nat, p: Pair)
    requires i <= |b|
    ensures var es := a + b + c;
            && (i < |b| ==> es[|a| + i] == b[i] && es[|a| + i := p] == a + b[i := p] + c)
            && (i == |b| && |c| > 0 ==> es[|a| + i] == c[0])
            && es[..|a| + i] + [p] + es[|a| + i..] == a + (b[..i] + [p] + b[i..]) + c
  {
    var es := a + b + c;
    assert es[..|a| + i] == a + b[..i];
    assert es[|a| + i..] == b[i..] + c;
    FiveParts(a, b[..i], [p], b[i..], c);
  }

  lemma FiveParts(a: seq<Pair>, b: seq<Pair>, p: seq<Pair>, c: seq<Pair>, d: seq<Pair>)
    ensures a + b + p + (c + d) == a + (b + p + c) + d
  {
  }
}
